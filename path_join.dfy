/**
 * Joining a key-value store's path with a driver's own path. The N5 and Neuroglancer
 * drivers strip the slashes at the seam and put back exactly one; the Zarr driver
 * concatenates directly when either side already has a slash there.
 */
module PathJoin {
  import opened Json

  /** `s.rstrip('/')`. */
  function RStripSlash(s: string): (r: string)
    ensures |r| <= |s| && r == s[..|r|]
    ensures r == [] || r[|r| - 1] != '/'
  {
    if |s| > 0 && s[|s| - 1] == '/' then RStripSlash(s[..|s| - 1]) else s
  }

  /** `s.lstrip('/')`. */
  function LStripSlash(s: string): (r: string)
    ensures |r| <= |s| && r == s[|s| - |r|..]
    ensures r == [] || r[0] != '/'
  {
    if |s| > 0 && s[0] == '/' then LStripSlash(s[1..]) else s
  }

  /** `f"{a.rstrip('/')}/{b.lstrip('/')}"`. */
  function StripJoin(a: string, b: string): string
  {
    RStripSlash(a) + "/" + LStripSlash(b)
  }

  function Slashes(k: nat): (r: string)
    ensures |r| == k && forall i :: 0 <= i < k ==> r[i] == '/'
  {
    if k == 0 then "" else Slashes(k - 1) + "/"
  }

  /**
   * The join has exactly one slash at the seam: the stripped left part does not end with
   * one, the stripped right part does not start with one, and nothing else is removed.
   */
  lemma StripJoinOneSlash(a: string, b: string)
    ensures var r := StripJoin(a, b); var n := |RStripSlash(a)|;
      n < |r| && r[n] == '/'
      && (n == 0 || r[n - 1] != '/')
      && (n + 1 == |r| || r[n + 1] != '/')
      && r[..n] == a[..n]
      && r[n + 1..] == b[|b| - |r[n + 1..]|..]
  {
  }

  lemma {:induction false} RStripSlashes(a: string, k: nat)
    ensures RStripSlash(a + Slashes(k)) == RStripSlash(a)
    decreases k
  {
    if k > 0 {
      var s := a + Slashes(k);
      assert s[|s| - 1] == Slashes(k)[k - 1] == '/';
      assert s[..|s| - 1] == a + Slashes(k - 1);
      RStripSlashes(a, k - 1);
    } else {
      assert a + Slashes(0) == a;
    }
  }

  lemma {:induction false} LStripSlashes(b: string, k: nat)
    ensures LStripSlash(Slashes(k) + b) == LStripSlash(b)
    decreases k
  {
    if k > 0 {
      var s := Slashes(k) + b;
      assert s[0] == Slashes(k)[0] == '/';
      assert Slashes(k)[1..] == Slashes(k - 1);
      assert s[1..] == Slashes(k - 1) + b;
      LStripSlashes(b, k - 1);
    } else {
      assert Slashes(0) + b == b;
    }
  }

  /** Extra slashes on either side of the seam do not change the stripped join. */
  lemma StripJoinIgnoresSeamSlashes(a: string, b: string, k: nat, m: nat)
    ensures StripJoin(a + Slashes(k), Slashes(m) + b) == StripJoin(a, b)
  {
    RStripSlashes(a, k);
    LStripSlashes(b, m);
  }

  /** The Zarr join: direct concatenation when either side has a slash at the seam. */
  function ConcatJoin(a: string, b: string): (r: string)
    ensures |r| == |a| + |b| || |r| == |a| + |b| + 1
    ensures r[..|a|] == a && r[|r| - |b|..] == b
  {
    if (|a| > 0 && a[|a| - 1] == '/') || (|b| > 0 && b[0] == '/') then a + b else a + "/" + b
  }

  /** Without slashes at the seam both joins insert exactly one. */
  lemma JoinsAgreeWithoutSeamSlashes(a: string, b: string)
    requires a == [] || a[|a| - 1] != '/'
    requires b == [] || b[0] != '/'
    ensures ConcatJoin(a, b) == StripJoin(a, b) == a + "/" + b
  {
  }

  /**
   * With a slash on both sides of the seam the Zarr join keeps both (a double slash),
   * where the stripped join leaves one.
   */
  lemma ConcatJoinKeepsDoubleSlash(a: string, b: string)
    requires a != [] && a[|a| - 1] == '/'
    requires b != [] && b[0] == '/'
    ensures ConcatJoin(a, b) == a + b
    ensures ConcatJoin(a, b)[|a| - 1] == ConcatJoin(a, b)[|a|] == '/'
    ensures StripJoin(a, b) != ConcatJoin(a, b)
  {
    assert |RStripSlash(a)| < |a|;
    assert |LStripSlash(b)| < |b|;
  }

  /** `kvstore.get("path", "")`: a missing path reads as the empty string. */
  function KvStorePath(kvstore: map<string, Json>): (r: Json)
    ensures "path" in kvstore ==> r == kvstore["path"]
    ensures "path" !in kvstore ==> r == Str("")
  {
    if "path" in kvstore then kvstore["path"] else Str("")
  }

  /**
   * The N5 and Neuroglancer effective path: a falsy store path yields the driver path,
   * an empty driver path yields `str()` of the store path, and otherwise the stripped join.
   * `strOf` is Python's `str()` on the store path value.
   */
  function StripEffectivePath(kvstore: map<string, Json>, path: string, strOf: Json -> string): (r: string)
  {
    var kvPath := KvStorePath(kvstore);
    if !Truthy(kvPath) then path
    else if path == "" then strOf(kvPath)
    else StripJoin(strOf(kvPath), path)
  }

  /**
   * The three cases of the stripped effective path for a string store path: either side
   * empty gives the other, otherwise the two are joined with exactly one slash.
   */
  lemma StripEffectivePathCases(kvstore: map<string, Json>, path: string, strOf: Json -> string)
    requires forall s :: strOf(Str(s)) == s
    requires "path" in kvstore ==> kvstore["path"].Str?
    ensures var p := if "path" in kvstore then kvstore["path"].s else "";
      var r := StripEffectivePath(kvstore, path, strOf);
      (p == "" ==> r == path)
      && (p != "" && path == "" ==> r == p)
      && (p != "" && path != "" ==> r == StripJoin(p, path))
      && (p != "" && (p[|p| - 1] != '/') && path != "" && path[0] != '/' ==> r == p + "/" + path)
  {
    var p := if "path" in kvstore then kvstore["path"].s else "";
    assert KvStorePath(kvstore) == Str(p);
    if p != "" && p[|p| - 1] != '/' && path != "" && path[0] != '/' {
      JoinsAgreeWithoutSeamSlashes(p, path);
    }
  }
}
