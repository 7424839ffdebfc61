// Hierarchical lookup: a section inherits from the sections whose keys are paths above its own.
module ConfTree {
  import opened Wrappers
  import opened ConfSimple

  // path_catslash.
  function CatSlash(s: string): string {
    if s == "" || s[|s| - 1] != '/' then s + "/" else s
  }

  // The keys that are searched for sk: sk with a final slash, and whatever is left of it
  // when it is cut just before a slash. The last of them is the global section.
  ghost predicate Ancestor(k: string, sk: string) {
    var full := CatSlash(sk);
    k <= full && (|k| < |full| ==> full[|k|] == '/')
  }

  // r is the value in the deepest ancestor that has one.
  ghost predicate Inherits(m: Store.Submaps, nm: string, sk: string, r: Option<string>) {
    match r
    case None => forall k | Ancestor(k, sk) :: Lookup(m, nm, k) == None
    case Some(v) => exists k :: Deepest(m, nm, sk, k) && Lookup(m, nm, k) == Some(v)
  }

  ghost predicate Deepest(m: Store.Submaps, nm: string, sk: string, k: string) {
    Ancestor(k, sk) && forall k1 | Ancestor(k1, sk) && |k1| > |k| :: Lookup(m, nm, k1) == None
  }

  // There is only one such r.
  lemma InheritsUnique(m: Store.Submaps, nm: string, sk: string, r1: Option<string>, r2: Option<string>)
    requires Inherits(m, nm, sk, r1) && Inherits(m, nm, sk, r2)
    ensures r1 == r2
  {
    if r1.Some? && r2.Some? {
      var k1 :| Deepest(m, nm, sk, k1) && Lookup(m, nm, k1) == r1;
      var k2 :| Deepest(m, nm, sk, k2) && Lookup(m, nm, k2) == r2;
      assert |k1| == |k2|;
      assert k1 == CatSlash(sk)[..|k1|] == k2;
    }
  }

  // The root key is an ancestor of nothing but itself, or of paths that start with two slashes.
  lemma RootAncestor(sk: string)
    requires sk != "" && sk[0] == '/'
    ensures Ancestor("/", sk) <==> sk == "/" || (|sk| >= 2 && sk[1] == '/')
  {
    if |sk| == 1 {
      assert sk == "/";
    }
  }

  // --- paths ---

  // The names of a path, from the top down.
  function Path(names: seq<string>): string {
    if names == [] then "" else Path(names[..|names| - 1]) + "/" + names[|names| - 1]
  }

  ghost predicate Names(names: seq<string>) {
    forall i | 0 <= i < |names| :: names[i] != "" && '/' !in names[i]
  }

  // The slashes of a path are where its upper parts end.
  lemma {:induction false} SlashAt(names: seq<string>, j: nat)
    requires Names(names) && j <= |Path(names)|
    ensures (Path(names) + "/")[j] == '/' <==> exists i | 0 <= i <= |names| :: |Path(names[..i])| == j
    decreases |names|
  {
    var n := |names|;
    assert names[..n] == names;
    if n > 0 {
      var most, nm := names[..n - 1], names[n - 1];
      var p := Path(most);
      if j <= |p| {
        SlashAt(most, j);
        assert forall i | 0 <= i <= n - 1 :: most[..i] == names[..i];
        assert (Path(names) + "/")[j] == (p + "/")[j];
      } else {
        forall i | 0 <= i <= n ensures |Path(names[..i])| == j ==> i == n {
          if i < n { PathGrows(names, i, n - 1); }
        }
        if j < |Path(names)| {
          assert (Path(names) + "/")[j] == nm[j - |p| - 1];
          assert nm[j - |p| - 1] in nm;
        }
      }
    }
  }

  lemma {:induction false} PathGrows(names: seq<string>, i: nat, n: nat)
    requires i <= n <= |names|
    ensures Path(names[..i]) <= Path(names[..n])
    decreases n
  {
    if i < n {
      PathGrows(names, i, n - 1);
      assert names[..n][..n - 1] == names[..n - 1];
      PathOne(names, n);
    }
  }

  lemma PathOne(names: seq<string>, n: nat)
    requires 0 < n <= |names|
    ensures Path(names[..n]) == Path(names[..n - 1]) + "/" + names[n - 1]
  {
    assert names[..n][..n - 1] == names[..n - 1];
  }

  // The sections searched for a path, with or without a final slash, are that of the path with one,
  // and those of the path and of its upper parts without; the last is the global one.
  lemma AncestorPath(names: seq<string>, k: string)
    requires Names(names) && names != []
    ensures Ancestor(k, Path(names)) <==>
            k == Path(names) + "/" || exists i | 0 <= i <= |names| :: k == Path(names[..i])
    ensures Ancestor(k, Path(names) + "/") <==> Ancestor(k, Path(names))
  {
    var p := Path(names);
    var n := |names|;
    PathOne(names, n);
    assert names[..n] == names;
    var nm := names[n - 1];
    assert p[|p| - 1] == nm[|nm| - 1] && nm[|nm| - 1] in nm;
    assert CatSlash(p) == p + "/" == CatSlash(p + "/");
    if |k| <= |p| {
      SlashAt(names, |k|);
      forall i | 0 <= i <= n ensures Path(names[..i]) <= p {
        PathGrows(names, i, n);
      }
      forall i | 0 <= i <= n && |Path(names[..i])| == |k| && k <= p + "/" ensures k == Path(names[..i]) {
        assert k == (p + "/")[..|k|] == p[..|k|] == Path(names[..i]);
      }
    } else {
      forall i | 0 <= i <= n ensures k != Path(names[..i]) {
        PathGrows(names, i, n);
      }
    }
  }

  // The value of the deepest of a path and its upper parts that has one, the global section last.
  function Upward(m: Store.Submaps, nm: string, names: seq<string>): Option<string> {
    var here := Lookup(m, nm, Path(names));
    if here.Some? || names == [] then here else Upward(m, nm, names[..|names| - 1])
  }

  lemma {:induction false} UpwardFirst(m: Store.Submaps, nm: string, names: seq<string>) returns (i: nat)
    ensures i <= |names| && Upward(m, nm, names) == Lookup(m, nm, Path(names[..i]))
    ensures forall j | i < j <= |names| :: Lookup(m, nm, Path(names[..j])) == None
    ensures Upward(m, nm, names) == None ==> i == 0
  {
    var n := |names|;
    assert names[..n] == names;
    if Lookup(m, nm, Path(names)).Some? || n == 0 {
      i := n;
    } else {
      i := UpwardFirst(m, nm, names[..n - 1]);
      assert forall j | 0 <= j < n :: names[..n - 1][..j] == names[..j];
    }
  }

  // get finds the value of the path with a final slash, if there is one, and otherwise goes up.
  lemma InheritsPath(m: Store.Submaps, nm: string, names: seq<string>, r: Option<string>)
    requires Names(names) && names != []
    ensures Inherits(m, nm, Path(names), r) <==>
            var first := Lookup(m, nm, Path(names) + "/");
            r == if first.Some? then first else Upward(m, nm, names)
  {
    var p := Path(names);
    var first := Lookup(m, nm, p + "/");
    var goal := if first.Some? then first else Upward(m, nm, names);
    forall k ensures Ancestor(k, p) <==> k == p + "/" || exists i | 0 <= i <= |names| :: k == Path(names[..i]) {
      AncestorPath(names, k);
    }
    assert forall i | 0 <= i <= |names| :: |Path(names[..i])| <= |p| by {
      forall i | 0 <= i <= |names| ensures |Path(names[..i])| <= |p| {
        PathGrows(names, i, |names|);
        assert names[..|names|] == names;
      }
    }
    if first.Some? {
      assert Deepest(m, nm, p, p + "/");
    } else {
      var i := UpwardFirst(m, nm, names);
      var k := Path(names[..i]);
      if goal.Some? {
        forall k1 | Ancestor(k1, p) && |k1| > |k| ensures Lookup(m, nm, k1) == None {
          LongerBelow(names, i, k1);
        }
        assert Deepest(m, nm, p, k);
      }
    }
    assert Inherits(m, nm, p, goal);
    if Inherits(m, nm, p, r) { InheritsUnique(m, nm, p, r, goal); }
  }

  lemma LongerBelow(names: seq<string>, i: nat, k: string)
    requires i <= |names| && |k| > |Path(names[..i])|
    ensures forall j | 0 <= j <= |names| && k == Path(names[..j]) :: i < j
  {
    forall j | 0 <= j <= i ensures k != Path(names[..j]) {
      PathGrows(names, j, i);
    }
  }

  method RFind(s: string, c: char) returns (pos: int)
    ensures -1 <= pos < |s|
    ensures pos >= 0 ==> s[pos] == c
    ensures forall i | pos < i < |s| :: s[i] != c
  {
    pos := |s| - 1;
    while pos >= 0 && s[pos] != c
      invariant -1 <= pos < |s|
      invariant forall i | pos < i < |s| :: s[i] != c
    {
      pos := pos - 1;
    }
  }

  // ConfTree::get.
  method Get(conf: ConfSimple, nm: string, sk: string) returns (r: Option<string>)
    ensures if !conf.Ok() then r == None
            else if sk == "" || sk[0] != '/' then r == Lookup(conf.submaps, nm, sk)
            else Inherits(conf.submaps, nm, sk, r)
  {
    if sk == "" || sk[0] != '/' {
      r := conf.Get(nm, sk);
      return;
    }
    var msk := CatSlash(sk);
    while true
      invariant Ancestor(msk, sk)
      invariant conf.Ok() ==> forall k | Ancestor(k, sk) && |k| > |msk| :: Lookup(conf.submaps, nm, k) == None
      decreases |msk|
    {
      r := conf.Get(nm, msk);
      if r.Some? {
        assert Deepest(conf.submaps, nm, sk, msk);
        return;
      }
      var pos := RFind(msk, '/');
      if pos < 0 {
        forall k | conf.Ok() && Ancestor(k, sk) ensures Lookup(conf.submaps, nm, k) == None {
          CutIsSlash(sk, msk, k);
        }
        return;
      }
      forall k | conf.Ok() && Ancestor(k, sk) && |k| > pos ensures Lookup(conf.submaps, nm, k) == None {
        CutIsSlash(sk, msk, k);
      }
      msk := msk[..pos];
    }
  }

  // Two ancestors of one key: the shorter one ends just before a slash of the longer.
  lemma CutIsSlash(sk: string, msk: string, k: string)
    requires Ancestor(msk, sk) && Ancestor(k, sk)
    ensures |k| < |msk| ==> msk[|k|] == '/'
    ensures |k| == |msk| ==> k == msk
  {
    var full := CatSlash(sk);
    assert k == full[..|k|] && msk == full[..|msk|];
  }
}
