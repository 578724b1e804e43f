/** The status strings the sender hands to its notifier, and Python's `str(int)`. */
module Messages {

  function Digit(d: int): char
    requires 0 <= d < 10
  {
    "0123456789"[d]
  }

  /** Decimal digits of a natural number, most significant first. */
  function NatDecimal(n: nat): (r: string)
    ensures |r| >= 1 && forall i :: 0 <= i < |r| ==> '0' <= r[i] <= '9'
    ensures r[0] == '0' ==> n == 0 && r == "0"
    decreases n
  {
    if n < 10 then [Digit(n)] else NatDecimal(n / 10) + [Digit(n % 10)]
  }

  /** `str(i)` / `f"{i}"` for an integer. */
  function Decimal(i: int): string
  {
    if i < 0 then "-" + NatDecimal(-i) else NatDecimal(i)
  }

  /** Reads a string of decimal digits back as a number, the inverse of NatDecimal. */
  function DigitsValue(s: string): int
    decreases |s|
  {
    if s == [] then 0 else DigitsValue(s[..|s| - 1]) * 10 + (s[|s| - 1] as int - '0' as int)
  }

  lemma DigitValue(d: int)
    requires 0 <= d < 10
    ensures Digit(d) as int - '0' as int == d
  {
  }

  /** The decimal rendering of a status code loses nothing: reading it back gives the number. */
  lemma {:induction false} DecimalRoundTrip(n: nat)
    ensures DigitsValue(NatDecimal(n)) == n
    decreases n
  {
    if n < 10 {
      DigitValue(n);
      assert [Digit(n)][..0] == [];
    } else {
      var p := NatDecimal(n / 10);
      DecimalRoundTrip(n / 10);
      DigitValue(n % 10);
      assert (p + [Digit(n % 10)])[..|p|] == p;
    }
  }

  const EndpointNotSet: string := "endpoint URL is not set, data sending will fail"
  const GroupIdMissing: string := "Group ID could not be retrieved, check device firmware"
  /** Sent when the attempt chain stops because sending is disabled. */
  const TokenFailure: string := "Data Collect Token request failure"

  /** A token refresh answered with a status other than 200. */
  function TokenRequestFailed(code: int): string
  {
    "Data Collect Token request failure (" + Decimal(code) + ")"
  }

  /** An upload answered with a status other than 200. */
  function UploadFailed(code: int, text: string): string
  {
    "Data collect failed with status " + Decimal(code) + " (reason: " + text + ")"
  }

  /** The one message reported per processed item. */
  function Tried(success: bool): string
  {
    "Tried to send data sample: " + (if success then "Success" else "Failure")
  }

  /** The final report tells success from failure. */
  lemma TriedDistinguishes(a: bool, b: bool)
    ensures Tried(a) == Tried(b) <==> a == b
  {
    if a != b {
      assert Tried(a)[27] != Tried(b)[27];
    }
  }
}
