/**
 * POSIX path joining as `os.path.join` does it on the device, and the two
 * endpoint URLs the sender builds from its endpoint root.
 */
module Paths {

  /** The separator `os.path.join` puts between `a` and a relative component. */
  function Sep(a: string): string
  {
    if a == "" || a[|a| - 1] == '/' then "" else "/"
  }

  predicate IsAbsolute(b: string)
  {
    |b| > 0 && b[0] == '/'
  }

  /**
   * Two-argument `os.path.join`: an absolute component replaces what came
   * before; otherwise a '/' is added unless `a` is empty or already ends in one.
   */
  function Join(a: string, b: string): (r: string)
    ensures IsAbsolute(b) ==> r == b
    ensures !IsAbsolute(b) ==> |r| == |a| + |b| + (if a == "" || a[|a| - 1] == '/' then 0 else 1)
    ensures !IsAbsolute(b) ==> r[..|a|] == a && r[|r| - |b|..] == b
    ensures !IsAbsolute(b) && |r| > |a| + |b| ==> r[|a|] == '/'
  {
    if IsAbsolute(b) then b else a + Sep(a) + b
  }

  /** The last path component: everything after the last '/' (`os.path.basename`). */
  function Basename(p: string): (r: string)
    decreases |p|
  {
    if p == [] || p[|p| - 1] == '/' then [] else Basename(p[..|p| - 1]) + [p[|p| - 1]]
  }

  /** Everything up to and including the last '/' (the unstripped head of `os.path.split`). */
  function Head(p: string): string
  {
    BasenameIsSuffix(p);
    p[..|p| - |Basename(p)|]
  }

  lemma {:induction false} BasenameIsSuffix(p: string)
    ensures |Basename(p)| <= |p| && Basename(p) == p[|p| - |Basename(p)|..]
    ensures forall i :: 0 <= i < |Basename(p)| ==> Basename(p)[i] != '/'
    ensures |Basename(p)| < |p| ==> p[|p| - |Basename(p)| - 1] == '/'
    decreases |p|
  {
    if p == [] || p[|p| - 1] == '/' {
    } else {
      BasenameIsSuffix(p[..|p| - 1]);
    }
  }

  /** Appending a component without '/' to a '/'-terminated (or empty) prefix makes that component the basename. */
  lemma {:induction false} BasenameAfterSlash(x: string, b: string)
    requires x == "" || x[|x| - 1] == '/'
    requires forall i :: 0 <= i < |b| ==> b[i] != '/'
    ensures Basename(x + b) == b
    decreases |b|
  {
    if b == [] {
      assert x + b == x;
    } else {
      var b' := b[..|b| - 1];
      assert (x + b)[..|x + b| - 1] == x + b';
      BasenameAfterSlash(x, b');
      assert b' + [b[|b| - 1]] == b;
    }
  }

  /**
   * Splitting undoes joining: for a relative, non-empty component without '/',
   * the basename of `Join(a, b)` is `b` and its head is `a` plus the separator.
   */
  lemma JoinThenSplit(a: string, b: string)
    requires b != "" && forall i :: 0 <= i < |b| ==> b[i] != '/'
    ensures Basename(Join(a, b)) == b
    ensures Head(Join(a, b)) == a + Sep(a)
  {
    var x := a + Sep(a);
    assert x == "" || x[|x| - 1] == '/';
    assert Join(a, b) == x + b;
    BasenameAfterSlash(x, b);
    assert (x + b)[..|x + b| - |b|] == x;
  }

  /** `data_collect_url`. */
  function DataCollectUrl(root: string): string
  {
    Join(root, "data_collect")
  }

  /** `request_data_collect_token_url`: a three-argument join. */
  function TokenUrl(root: string): string
  {
    Join(Join(root, "device"), "token")
  }

  /** Both URLs hang off the endpoint root with the same separator. */
  lemma UrlShapes(root: string)
    ensures DataCollectUrl(root) == root + Sep(root) + "data_collect"
    ensures TokenUrl(root) == root + Sep(root) + "device/token"
    ensures TokenUrl(root) == Join(root, "device/token")
  {
    var d := Join(root, "device");
    assert d == root + Sep(root) + "device";
    assert d[|d| - 1] == 'e';
    assert TokenUrl(root) == d + "/" + "token";
  }

  /** The URLs for the endpoint root used by the repository's tests. */
  lemma TestEndpointUrls()
    ensures DataCollectUrl("https://api.mock.autolearner.actcast.io")
         == "https://api.mock.autolearner.actcast.io/data_collect"
    ensures TokenUrl("https://api.mock.autolearner.actcast.io")
         == "https://api.mock.autolearner.actcast.io/device/token"
    ensures DataCollectUrl("https://api.mock.autolearner.actcast.io/")
         == "https://api.mock.autolearner.actcast.io/data_collect"
  {
    UrlShapes("https://api.mock.autolearner.actcast.io");
    UrlShapes("https://api.mock.autolearner.actcast.io/");
  }
}
