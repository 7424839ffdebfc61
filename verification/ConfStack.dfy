// Several configurations, the earlier ones overriding the later; only the first is written to.
module ConfStack {
  import opened Wrappers
  import opened ConfSimple
  import opened Sequences
  import Agreement = ConfAgreement

  // The first configuration that has a value decides.
  function Find(ms: seq<Store.Submaps>, nm: string, sk: string): Option<string> {
    if ms == [] then None
    else
      var first := Lookup(ms[0], nm, sk);
      if first.Some? then first else Find(ms[1..], nm, sk)
  }

  // The number of the first configuration that has a value, or of all of them if there is none.
  lemma {:induction false} First(ms: seq<Store.Submaps>, nm: string, sk: string) returns (i: nat)
    ensures i <= |ms| && forall j | 0 <= j < i :: !Store.Live(ms[j], sk, nm)
    ensures if i == |ms| then Find(ms, nm, sk) == None
            else Store.Live(ms[i], sk, nm) && Find(ms, nm, sk) == Some(ms[i][sk][nm])
  {
    if ms == [] || Store.Live(ms[0], sk, nm) {
      i := 0;
    } else {
      i := First(ms[1..], nm, sk);
      forall j | 0 < j < i + 1 ensures !Store.Live(ms[j], sk, nm) {
        assert ms[j] == ms[1..][j - 1];
      }
      i := i + 1;
    }
  }

  // A value found is that of some configuration, none of those before which has one.
  lemma FoundIff(ms: seq<Store.Submaps>, nm: string, sk: string, v: string)
    ensures Find(ms, nm, sk) == Some(v)
            <==> exists i | 0 <= i < |ms| :: Store.Live(ms[i], sk, nm) && ms[i][sk][nm] == v
                                             && forall j | 0 <= j < i :: !Store.Live(ms[j], sk, nm)
    ensures Find(ms, nm, sk) == None <==> forall i | 0 <= i < |ms| :: !Store.Live(ms[i], sk, nm)
  {
    var i := First(ms, nm, sk);
  }

  class ConfStack {
    var mOk: bool
    var confs: seq<ConfSimple>

    // What each configuration shows to get.
    ghost function Maps(): seq<Store.Submaps>
      reads this, confs
    {
      seq(|confs|, i requires 0 <= i < |confs| reads this, confs => if confs[i].Ok() then confs[i].submaps else map[])
    }

    // The top configuration is not one of the deeper ones.
    ghost predicate Valid()
      reads this, confs
    {
      && (mOk ==> confs != [])
      && (forall c | c in confs :: c.Valid())
      && (confs != [] ==> confs[0] !in confs[1..])
    }

    ghost predicate Writable()
      reads this, confs
    {
      confs != [] && confs[0].status == ReadWrite
    }

    method Get(nm: string, sk: string) returns (r: Option<string>)
      requires Valid()
      ensures r == Find(Maps(), nm, sk)
    {
      for i := 0 to |confs|
        invariant Find(Maps(), nm, sk) == Find(Maps()[i..], nm, sk)
      {
        r := confs[i].Get(nm, sk);
        assert Maps()[i..][1..] == Maps()[i + 1..];
        if r.Some? {
          return;
        }
      }
      r := None;
    }

    // Does a deeper configuration give nm the value val?
    method Provided(nm: string, val: string, sk: string) returns (found: bool)
      requires Valid() && mOk
      ensures found <==> Find(Maps()[1..], nm, sk) == Some(val)
    {
      var i := 1;
      while i < |confs|
        invariant 1 <= i <= |confs|
        invariant Find(Maps()[1..], nm, sk) == Find(Maps()[i..], nm, sk)
      {
        var value := confs[i].Get(nm, sk);
        assert Maps()[i..][1..] == Maps()[i + 1..];
        if value.Some? {
          return value.value == val;
        }
        i := i + 1;
      }
      return false;
    }

    // Only the top configuration was touched.
    twostate lemma TopOnly()
      requires old(Valid()) && confs != [] && confs == old(confs) && mOk == old(mOk) && confs[0].Valid()
      requires forall c | c in confs[1..] :: unchanged(c)
      ensures Valid()
      ensures Maps() == [if confs[0].Ok() then confs[0].submaps else map[]] + old(Maps())[1..]
    {
      assert forall i | 0 < i < |confs| :: confs[i] in confs[1..];
      assert confs == [confs[0]] + confs[1..];
    }

    // ConfStack::set.
    method Set(nm: string, val: string, sk: string) returns (r: bool)
      requires Valid()
      modifies if confs == [] then {} else {confs[0]}
      ensures Valid()
      ensures !mOk ==> !r && Maps() == old(Maps())
      ensures mOk ==> Reply(Maps(), r) == SetTop(old(Maps()), Writable(), nm, val, sk)
      ensures Writable() == old(Writable())
    {
      if !mOk {
        return false;
      }
      HeadAndTail(Maps());
      var provided := Provided(nm, val, sk);
      if provided {
        var _ := confs[0].Erase(nm, sk);
        r := true;
      } else {
        r := confs[0].Set(nm, val, sk);
      }
      TopOnly();
    }

    // ConfStack::erase, which there is no calling without a top configuration.
    method Erase(nm: string, sk: string) returns (r: bool)
      requires Valid() && confs != []
      modifies confs[0]
      ensures Valid()
      ensures Maps() == EraseTop(old(Maps()), Writable(), nm, sk)
      ensures r <==> Writable() && sk in old(confs[0].submaps)
      ensures Writable() == old(Writable())
    {
      HeadAndTail(Maps());
      r := confs[0].Erase(nm, sk);
      TopOnly();
    }
  }

  // --- what set and erase do to the contents ---

  datatype Reply = Reply(maps: seq<Store.Submaps>, ok: bool)

  function EraseTop(ms: seq<Store.Submaps>, rw: bool, nm: string, sk: string): seq<Store.Submaps>
    requires ms != []
  {
    if rw && sk in ms[0] then [Store.DropValue(ms[0], sk, nm)] + ms[1..] else ms
  }

  // A value that a deeper configuration provides already is removed from the top one.
  function SetTop(ms: seq<Store.Submaps>, rw: bool, nm: string, val: string, sk: string): Reply
    requires ms != []
  {
    if Find(ms[1..], nm, sk) == Some(val) then Reply(EraseTop(ms, rw, nm, sk), true)
    else if rw && Store.Settable(val) then Reply([Store.PutValue(ms[0], sk, nm, val)] + ms[1..], true)
    else Reply(ms, false)
  }

  // Erasing uncovers what is below, in one place only.
  lemma EraseLaw(ms: seq<Store.Submaps>, nm: string, sk: string)
    requires ms != [] && Store.NoEmpty(ms[0])
    ensures var after := EraseTop(ms, true, nm, sk);
            && after[1..] == ms[1..] && Store.NoEmpty(after[0])
            && Find(after, nm, sk) == Find(ms[1..], nm, sk)
            && forall n, k | (n, k) != (nm, sk) :: Find(after, n, k) == Find(ms, n, k)
  {
    if sk in ms[0] {
      var after := EraseTop(ms, true, nm, sk);
      Agreement.DropLive(ms[0], sk, nm);
      forall n, k | (n, k) != (nm, sk) ensures Find(after, n, k) == Find(ms, n, k) {
        assert (k, n) != (sk, nm);
      }
    }
  }

  // A set that is accepted with a writable top makes get return the value, and changes no other
  // lookup. It is refused only for a value with a line end that is not there already below.
  lemma SetLaw(ms: seq<Store.Submaps>, nm: string, val: string, sk: string)
    requires ms != [] && Store.NoEmpty(ms[0])
    ensures var after := SetTop(ms, true, nm, val, sk);
            && after.maps != [] && after.maps[1..] == ms[1..] && Store.NoEmpty(after.maps[0])
            && (after.ok <==> Store.Settable(val) || Find(ms[1..], nm, sk) == Some(val))
            && Find(after.maps, nm, sk) == (if after.ok then Some(val) else Find(ms, nm, sk))
            && forall n, k | (n, k) != (nm, sk) :: Find(after.maps, n, k) == Find(ms, n, k)
  {
    EraseLaw(ms, nm, sk);
    PutLive(ms[0], sk, nm, val);
  }

  lemma PutLive(m: Store.Submaps, sk: string, nm: string, val: string)
    requires Store.NoEmpty(m)
    ensures Store.NoEmpty(Store.PutValue(m, sk, nm, val))
  {
    var sub := (if sk in m then m[sk] else map[])[nm := val];
    assert nm in sub;
  }

  // With a top that cannot be written nothing changes, but set still reports success when a deeper
  // configuration has the value: get then returns it unless the top says otherwise.
  lemma ReadOnlySetIff(ms: seq<Store.Submaps>, nm: string, val: string, sk: string)
    requires ms != []
    ensures var after := SetTop(ms, false, nm, val, sk);
            && after.maps == ms && EraseTop(ms, false, nm, sk) == ms
            && (after.ok <==> Find(ms[1..], nm, sk) == Some(val))
            && (after.ok ==>
                  (Find(ms, nm, sk) == Some(val) <==> Lookup(ms[0], nm, sk) in {None, Some(val)}))
  {
  }

  // ... and it may say otherwise.
  lemma ReadOnlySetIgnored(val: string)
    requires val != "x"
    ensures var ms: seq<Store.Submaps> := [map["" := map["n" := "x"]], map["" := map["n" := val]]];
            SetTop(ms, false, "n", val, "").ok && Find(ms, "n", "") != Some(val)
  {
    var ms: seq<Store.Submaps> := [map["" := map["n" := "x"]], map["" := map["n" := val]]];
    assert Find(ms[1..], "n", "") == Some(val);
  }
}
