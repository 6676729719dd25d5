/**
 What activation, pruning and a whole restore amount to, said without any order: a restore has the
 same effect whatever order the store lists its functions and builds in, and a second one changes
 nothing.
 */
module RegistryRestore {
  import opened Wrappers
  import opened Sequences
  import opened RegistryModel

  // ---------- Pruning ----------

  // The revisions pruning with `current` in service gets rid of.
  function Targets(w: World, name: Name, from: nat, end: nat, stuck: set<RevisionKey>): set<RevisionKey> {
    set key | key in w.revisions && key.0 == name && from <= key.1 < end && Prunable(w, key, stuck)
  }

  function PrunedAll(w: World, keys: set<RevisionKey>): World {
    w.(revisions := map key | key in w.revisions ::
                      if key in keys then PrunedRecord(w.revisions[key]) else w.revisions[key],
       dirs := w.dirs - keys)
  }

  ghost predicate KeysMatch(w: World) {
    && (forall n <- w.functions :: w.functions[n].name == n)
    && (forall key <- w.revisions :: KeyOf(w.revisions[key]) == key)
    && (forall id <- w.builds :: w.builds[id].id == id)
  }

  // Every write goes under its own key.
  lemma {:induction false} KeysAfter(w: World, xs: seq<Write>)
    requires KeysMatch(w)
    ensures KeysMatch(DoAll(w, xs))
    decreases xs
  {
    if xs != [] {
      KeysAfterOne(w, xs[0]);
      KeysAfter(Do(w, xs[0]), xs[1..]);
    }
  }

  lemma KeysAfterOne(w: World, x: Write)
    requires KeysMatch(w)
    ensures KeysMatch(Do(w, x))
  {
  }

  lemma PrunedAllTwice(w: World, a: set<RevisionKey>, b: set<RevisionKey>)
    ensures PrunedAll(PrunedAll(w, a), b) == PrunedAll(w, a + b)
  {
    assert w.dirs - a - b == w.dirs - (a + b);
    assert PrunedAll(PrunedAll(w, a), b).revisions == PrunedAll(w, a + b).revisions;
  }

  lemma PruneOneResult(w: World, key: RevisionKey, stuck: set<RevisionKey>)
    requires KeysMatch(w)
    ensures DoAll(w, PruneOne(w, key, stuck)) == PrunedAll(w, Targets(w, key.0, key.1, key.1 + 1, stuck))
  {
    var keys := Targets(w, key.0, key.1, key.1 + 1, stuck);
    if Prunable(w, key, stuck) {
      assert keys == {key};
      DoAllShort(w, RemoveDir(key), PutRevision(PrunedRecord(w.revisions[key])));
      assert PrunedAll(w, keys).revisions == w.revisions[key := PrunedRecord(w.revisions[key])];
    } else {
      assert keys == {};
      assert PrunedAll(w, keys).revisions == w.revisions;
    }
  }

  lemma PrunedAllKeeps(w: World, keys: set<RevisionKey>)
    requires KeysMatch(w)
    ensures KeysMatch(PrunedAll(w, keys))
  {
  }

  lemma TargetsSplit(w: World, name: Name, from: nat, mid: nat, end: nat, stuck: set<RevisionKey>)
    requires from <= mid <= end
    ensures Targets(w, name, from, end, stuck) == Targets(w, name, from, mid, stuck) + Targets(w, name, mid, end, stuck)
    ensures Targets(PrunedAll(w, Targets(w, name, from, mid, stuck)), name, mid, end, stuck)
         == Targets(w, name, mid, end, stuck)
  {
  }

  lemma PruneWritesStep(w: World, name: Name, from: nat, end: nat, stuck: set<RevisionKey>, w1: World)
    requires from < end && w1 == DoAll(w, PruneWrites(w, name, from, end - 1, stuck))
    ensures PruneWrites(w, name, from, end, stuck)
         == PruneWrites(w, name, from, end - 1, stuck) + PruneOne(w1, (name, end - 1), stuck)
    ensures DoAll(w, PruneWrites(w, name, from, end, stuck)) == DoAll(w1, PruneOne(w1, (name, end - 1), stuck))
  {
    DoAllConcat(w, PruneWrites(w, name, from, end - 1, stuck), PruneOne(w1, (name, end - 1), stuck));
  }

  lemma PrunedAllOneMore(w: World, name: Name, from: nat, end: nat, stuck: set<RevisionKey>)
    requires KeysMatch(w) && from < end
    ensures var w1 := PrunedAll(w, Targets(w, name, from, end - 1, stuck));
            && KeysMatch(w1)
            && DoAll(w1, PruneOne(w1, (name, end - 1), stuck)) == PrunedAll(w, Targets(w, name, from, end, stuck))
  {
    var first, last := Targets(w, name, from, end - 1, stuck), Targets(w, name, end - 1, end, stuck);
    var w1 := PrunedAll(w, first);
    PrunedAllKeeps(w, first);
    PruneOneResult(w1, (name, end - 1), stuck);
    assert Targets(w1, name, end - 1, end, stuck) == last && first + last == Targets(w, name, from, end, stuck) by {
      TargetsSplit(w, name, from, end - 1, end, stuck);
    }
    PrunedAllTwice(w, first, last);
  }

  lemma {:induction false} PruneResult(w: World, name: Name, from: nat, end: nat, stuck: set<RevisionKey>)
    requires KeysMatch(w)
    ensures DoAll(w, PruneWrites(w, name, from, end, stuck)) == PrunedAll(w, Targets(w, name, from, end, stuck))
    decreases end
  {
    if end <= from {
      assert Targets(w, name, from, end, stuck) == {};
      assert PrunedAll(w, {}).revisions == w.revisions;
    } else {
      PruneResult(w, name, from, end - 1, stuck);
      PruneWritesStep(w, name, from, end, stuck, PrunedAll(w, Targets(w, name, from, end - 1, stuck)));
      PrunedAllOneMore(w, name, from, end, stuck);
    }
  }

  // ---------- Activation ----------

  function PruneEnd(number: nat): nat {
    if number < 2 then 1 else number - 1
  }

  function Switched(w: World, name: Name, r: Revision): World {
    w.(pools := w.pools[name := Activated(w.pools, r, name)],
       functions := if name in w.functions then w.functions[name := Activate(w.functions[name], r.number)]
                    else w.functions)
  }

  function Deployed(w: World, name: Name, r: Revision, stuck: set<RevisionKey>): World {
    PrunedAll(Switched(w, name, r), Targets(w, name, 1, PruneEnd(r.number), stuck))
  }

  lemma SwitchResult(w: World, name: Name, r: Revision)
    requires KeysMatch(w)
    ensures DoAll(w, SwitchWrites(w, name, r)) == Switched(w, name, r)
    ensures |SwitchWrites(w, name, r)| == if name in w.functions then 2 else 1
    ensures KeysMatch(Switched(w, name, r))
  {
    var pool := SetPool(name, Activated(w.pools, r, name));
    var switch := SwitchWrites(w, name, r);
    if name in w.functions {
      var put := PutFunction(Activate(w.functions[name], r.number));
      assert switch == [pool, put];
      DoAllShort(w, pool, put);
    } else {
      assert switch == [pool];
      DoAllShort(w, pool, pool);
    }
  }

  lemma ActivateSplit(w: World, name: Name, r: Revision, stuck: set<RevisionKey>)
    requires KeysMatch(w)
    ensures ActivateWrites(w, name, r, stuck)
         == SwitchWrites(w, name, r) + PruneWrites(Switched(w, name, r), name, 1, PruneEnd(r.number), stuck)
  {
    SwitchResult(w, name, r);
  }

  lemma ActivateResult(w: World, name: Name, r: Revision, stuck: set<RevisionKey>)
    requires KeysMatch(w)
    ensures DoAll(w, ActivateWrites(w, name, r, stuck)) == Deployed(w, name, r, stuck)
    ensures KeysMatch(Deployed(w, name, r, stuck))
  {
    var w1 := Switched(w, name, r);
    var targets := Targets(w, name, 1, PruneEnd(r.number), stuck);
    ActivateSplit(w, name, r, stuck);
    SwitchResult(w, name, r);
    DoAllConcat(w, SwitchWrites(w, name, r), PruneWrites(w1, name, 1, PruneEnd(r.number), stuck));
    PruneResult(w1, name, 1, PruneEnd(r.number), stuck);
    assert Targets(w1, name, 1, PruneEnd(r.number), stuck) == targets;
    PrunedAllKeeps(w1, targets);
  }

  // ---------- The three passes of a restore ----------

  function BackfillAll(w: World, names: set<Name>): World {
    w.(functions := map n | n in w.functions ::
                      if n in names then Backfilled(w.functions[n]) else w.functions[n])
  }

  lemma BackfillOneResult(w: World, name: Name)
    requires KeysMatch(w)
    ensures DoAll(w, BackfillOne(w, name)) == BackfillAll(w, {name})
    ensures KeysMatch(BackfillAll(w, {name}))
  {
    var one := BackfillOne(w, name);
    if one == [] {
      assert BackfillAll(w, {name}).functions == w.functions;
    } else {
      DoAllShort(w, one[0], one[0]);
      assert BackfillAll(w, {name}).functions == w.functions[name := Backfilled(w.functions[name])];
    }
  }

  lemma BackfillWritesStep(w: World, names: seq<Name>, name: Name)
    ensures var w1 := DoAll(w, BackfillWrites(w, names));
            && BackfillWrites(w, names + [name]) == BackfillWrites(w, names) + BackfillOne(w1, name)
            && DoAll(w, BackfillWrites(w, names + [name])) == DoAll(w1, BackfillOne(w1, name))
  {
    var w1 := DoAll(w, BackfillWrites(w, names));
    assert (names + [name])[..|names|] == names;
    DoAllConcat(w, BackfillWrites(w, names), BackfillOne(w1, name));
  }

  lemma {:induction false} BackfillResult(w: World, names: seq<Name>)
    requires KeysMatch(w)
    ensures DoAll(w, BackfillWrites(w, names)) == BackfillAll(w, ToSet(names))
    ensures KeysMatch(BackfillAll(w, ToSet(names)))
    decreases names
  {
    if names == [] {
      assert BackfillAll(w, {}).functions == w.functions;
    } else {
      var init, last := names[..|names| - 1], names[|names| - 1];
      assert names == init + [last];
      BackfillResult(w, init);
      BackfillWritesStep(w, init, last);
      BackfillOneResult(BackfillAll(w, ToSet(init)), last);
      BackfillAllTwice(w, init, last);
    }
  }

  lemma BackfillAllTwice(w: World, names: seq<Name>, name: Name)
    ensures BackfillAll(BackfillAll(w, ToSet(names)), {name}) == BackfillAll(w, ToSet(names + [name]))
  {
    assert BackfillAll(BackfillAll(w, ToSet(names)), {name}).functions
        == BackfillAll(w, ToSet(names + [name])).functions;
  }

  predicate InterruptedBy(w: World, name: Name, ids: set<BuildId>) {
    exists id <- ids :: id in w.builds && w.builds[id].status == Running && w.builds[id].functionName == name
  }

  function FailRunning(b: Build): Build {
    if b.status == Running then b.(status := BuildFailed) else b
  }

  function InterruptAll(w: World, ids: set<BuildId>): World {
    w.(builds := map id | id in w.builds :: if id in ids then FailRunning(w.builds[id]) else w.builds[id],
       functions := map n | n in w.functions ::
                      if InterruptedBy(w, n, ids) then Marked(w.functions[n]) else w.functions[n])
  }

  lemma InterruptOneResult(w: World, id: BuildId)
    requires KeysMatch(w)
    ensures DoAll(w, InterruptOne(w, id)) == InterruptAll(w, {id})
    ensures KeysMatch(InterruptAll(w, {id}))
  {
    InterruptedOnce(w, id);
    var one := InterruptOne(w, id);
    if one != [] {
      DoAllShort(w, one[0], one[|one| - 1]);
    }
  }

  lemma InterruptedOnce(w: World, id: BuildId)
    requires KeysMatch(w)
    ensures InterruptAll(w, {id}) ==
      if id !in w.builds || w.builds[id].status != Running then w
      else
        var b := w.builds[id];
        w.(builds := w.builds[id := b.(status := BuildFailed)],
           functions := if b.functionName in w.functions
                        then w.functions[b.functionName := Marked(w.functions[b.functionName])]
                        else w.functions)
  {
    var w1 := InterruptAll(w, {id});
    if id !in w.builds || w.builds[id].status != Running {
      assert w1.builds == w.builds && w1.functions == w.functions;
    } else {
      var b := w.builds[id];
      assert w1.builds == w.builds[id := b.(status := BuildFailed)];
      assert w1.functions ==
        if b.functionName in w.functions then w.functions[b.functionName := Marked(w.functions[b.functionName])]
        else w.functions;
    }
  }

  lemma InterruptAllTwice(w: World, ids: set<BuildId>, id: BuildId)
    requires KeysMatch(w)
    ensures InterruptAll(InterruptAll(w, ids), {id}) == InterruptAll(w, ids + {id})
  {
    var w1 := InterruptAll(w, ids);
    var both := InterruptAll(w, ids + {id});
    assert InterruptAll(w1, {id}).builds == both.builds;
    forall n | n in w.functions
      ensures InterruptAll(w1, {id}).functions[n] == both.functions[n]
    {
      if InterruptedBy(w, n, ids + {id}) {
        assert InterruptedBy(w, n, ids) || InterruptedBy(w1, n, {id});
      }
    }
    assert InterruptAll(w1, {id}).functions == both.functions;
  }

  lemma InterruptWritesStep(w: World, ids: seq<BuildId>, id: BuildId)
    ensures var w1 := DoAll(w, InterruptWrites(w, ids));
            && InterruptWrites(w, ids + [id]) == InterruptWrites(w, ids) + InterruptOne(w1, id)
            && DoAll(w, InterruptWrites(w, ids + [id])) == DoAll(w1, InterruptOne(w1, id))
  {
    var w1 := DoAll(w, InterruptWrites(w, ids));
    assert (ids + [id])[..|ids|] == ids;
    DoAllConcat(w, InterruptWrites(w, ids), InterruptOne(w1, id));
  }

  // A function with several interrupted builds is marked the same as one with one, so the order of
  // `ids` does not matter.
  lemma {:induction false} InterruptResult(w: World, ids: seq<BuildId>)
    requires KeysMatch(w)
    ensures DoAll(w, InterruptWrites(w, ids)) == InterruptAll(w, ToSet(ids))
    ensures KeysMatch(InterruptAll(w, ToSet(ids)))
    decreases ids
  {
    if ids == [] {
      assert InterruptAll(w, {}).functions == w.functions;
      assert InterruptAll(w, {}).builds == w.builds;
    } else {
      var init, last := ids[..|ids| - 1], ids[|ids| - 1];
      assert ids == init + [last];
      InterruptResult(w, init);
      InterruptWritesStep(w, init, last);
      InterruptOneResult(InterruptAll(w, ToSet(init)), last);
      InterruptAllTwice(w, ToSet(init), last);
      assert ToSet(ids) == ToSet(init) + {last};
    }
  }

  function RepoolTargets(w: World, names: set<Name>, stuck: set<RevisionKey>): set<RevisionKey> {
    set key | && key in w.revisions && key.0 in names && Serving(w, key.0).Some?
              && 1 <= key.1 < PruneEnd(Serving(w, key.0).value.number) && Prunable(w, key, stuck)
  }

  function Repooled(w: World, names: set<Name>): map<Name, PoolEntry> {
    w.pools + map n | n in names && Serving(w, n).Some? :: Activated(w.pools, Serving(w, n).value, n)
  }

  function RepoolAll(w: World, names: set<Name>, stuck: set<RevisionKey>): World {
    PrunedAll(w.(pools := Repooled(w, names)), RepoolTargets(w, names, stuck))
  }

  lemma ServingAfter(w: World, names: set<Name>, stuck: set<RevisionKey>, n: Name)
    requires KeysMatch(w)
    ensures var before, after := Serving(w, n), Serving(RepoolAll(w, names, stuck), n);
            && (after.Some? <==> before.Some?)
            && (before.Some? ==> after.value.number == before.value.number)
            && (n !in names ==> after == before)
  {
  }

  lemma RepoolNothing(w: World, names: set<Name>, stuck: set<RevisionKey>)
    requires KeysMatch(w) && forall n <- names :: Serving(w, n).None?
    ensures RepoolAll(w, names, stuck) == w
  {
    assert RepoolTargets(w, names, stuck) == {};
    assert RepoolAll(w, names, stuck).revisions == w.revisions;
    assert Repooled(w, names) == w.pools;
  }

  lemma RepoolOneResult(w: World, name: Name, stuck: set<RevisionKey>)
    requires KeysMatch(w)
    ensures DoAll(w, RepoolOne(w, name, stuck)) == RepoolAll(w, {name}, stuck)
    ensures KeysMatch(RepoolAll(w, {name}, stuck))
  {
    if Serving(w, name).None? {
      RepoolNothing(w, {name}, stuck);
    } else {
      ActivateResult(w, name, Serving(w, name).value, stuck);
      RepoolServing(w, name, stuck);
      RepoolWithMarker(w, name, stuck);
    }
  }

  // Activating what is served changes at most the marker of the function's record.
  lemma RepoolServing(w: World, name: Name, stuck: set<RevisionKey>)
    requires KeysMatch(w) && Serving(w, name).Some?
    ensures var after, f := Deployed(w, name, Serving(w, name).value, stuck), w.functions[name];
            && name in after.functions && f == after.functions[name].(lastError := f.lastError)
            && RepoolAll(w, {name}, stuck) == after.(functions := after.functions[name := f])
            && (f.lastError.None? ==> after.functions[name] == f)
  {
    var r, f, result := Serving(w, name).value, w.functions[name], RepoolAll(w, {name}, stuck);
    var after := Deployed(w, name, r, stuck);
    assert RepoolTargets(w, {name}, stuck) == Targets(w, name, 1, PruneEnd(r.number), stuck);
    assert result.pools == after.pools;
    assert f == Activate(f, r.number).(lastError := f.lastError);
    assert w.functions == after.functions[name := f];
  }

  lemma RepoolWithMarker(w: World, name: Name, stuck: set<RevisionKey>)
    requires KeysMatch(w) && Serving(w, name).Some?
    requires DoAll(w, ActivateWrites(w, name, Serving(w, name).value, stuck))
          == Deployed(w, name, Serving(w, name).value, stuck)
    ensures var after, f := Deployed(w, name, Serving(w, name).value, stuck), w.functions[name];
            DoAll(w, RepoolOne(w, name, stuck)) ==
              if f.lastError.Some? && name in after.functions
              then Do(after, PutFunction(after.functions[name].(lastError := f.lastError)))
              else after
  {
    var r, f := Serving(w, name).value, w.functions[name];
    var after := Deployed(w, name, r, stuck);
    var activate := ActivateWrites(w, name, r, stuck);
    if f.lastError.Some? && name in after.functions {
      var again := PutFunction(after.functions[name].(lastError := f.lastError));
      assert RepoolOne(w, name, stuck) == activate + [again];
      DoAllConcat(w, activate, [again]);
      DoAllShort(after, again, again);
    } else {
      assert RepoolOne(w, name, stuck) == activate;
    }
  }

  lemma RepoolTargetsTwice(w: World, names: set<Name>, name: Name, stuck: set<RevisionKey>)
    requires KeysMatch(w) && name !in names
    ensures RepoolTargets(RepoolAll(w, names, stuck), {name}, stuck) == RepoolTargets(w, {name}, stuck)
    ensures RepoolTargets(w, names + {name}, stuck) == RepoolTargets(w, names, stuck) + RepoolTargets(w, {name}, stuck)
  {
    ServingAfter(w, names, stuck, name);
  }

  // The pool `n` has after a repooling of `names`.
  function PoolAfter(w: World, names: set<Name>, n: Name): Option<PoolEntry> {
    if n in names && Serving(w, n).Some? then Some(Activated(w.pools, Serving(w, n).value, n))
    else if n in w.pools then Some(w.pools[n])
    else None
  }

  lemma RepooledAt(w: World, names: set<Name>, n: Name)
    ensures n in Repooled(w, names) <==> PoolAfter(w, names, n).Some?
    ensures n in Repooled(w, names) ==> Repooled(w, names)[n] == PoolAfter(w, names, n).value
  {
  }

  lemma PoolAfterTwice(w: World, names: set<Name>, name: Name, stuck: set<RevisionKey>, n: Name)
    requires KeysMatch(w) && name !in names
    ensures PoolAfter(RepoolAll(w, names, stuck), {name}, n) == PoolAfter(w, names + {name}, n)
  {
    RepooledAt(w, names, n);
    ServingAfter(w, names, stuck, n);
  }

  lemma SamePools(a: map<Name, PoolEntry>, b: map<Name, PoolEntry>)
    requires forall n :: n in a <==> n in b
    requires forall n <- a :: a[n] == b[n]
    ensures a == b
  {
  }

  lemma RepooledTwice(w: World, names: set<Name>, name: Name, stuck: set<RevisionKey>)
    requires KeysMatch(w) && name !in names
    ensures Repooled(RepoolAll(w, names, stuck), {name}) == Repooled(w, names + {name})
  {
    var w1 := RepoolAll(w, names, stuck);
    var a, b := Repooled(w1, {name}), Repooled(w, names + {name});
    forall n ensures (n in a <==> n in b) && (n in a ==> a[n] == b[n]) {
      PoolAfterTwice(w, names, name, stuck, n);
      RepooledAt(w1, {name}, n);
      RepooledAt(w, names + {name}, n);
    }
    SamePools(a, b);
  }

  lemma RepoolAllTwice(w: World, names: set<Name>, name: Name, stuck: set<RevisionKey>)
    requires KeysMatch(w) && name !in names
    ensures RepoolAll(RepoolAll(w, names, stuck), {name}, stuck) == RepoolAll(w, names + {name}, stuck)
  {
    var w1 := RepoolAll(w, names, stuck);
    var pools := Repooled(w, names + {name});
    RepooledTwice(w, names, name, stuck);
    RepoolTargetsTwice(w, names, name, stuck);
    assert w1.(pools := pools) == PrunedAll(w.(pools := pools), RepoolTargets(w, names, stuck));
    PrunedAllTwice(w.(pools := pools), RepoolTargets(w, names, stuck), RepoolTargets(w, {name}, stuck));
  }

  lemma RepoolWritesStep(w: World, names: seq<Name>, name: Name, stuck: set<RevisionKey>)
    ensures var w1 := DoAll(w, RepoolWrites(w, names, stuck));
            && RepoolWrites(w, names + [name], stuck) == RepoolWrites(w, names, stuck) + RepoolOne(w1, name, stuck)
            && DoAll(w, RepoolWrites(w, names + [name], stuck)) == DoAll(w1, RepoolOne(w1, name, stuck))
  {
    var w1 := DoAll(w, RepoolWrites(w, names, stuck));
    assert (names + [name])[..|names|] == names;
    DoAllConcat(w, RepoolWrites(w, names, stuck), RepoolOne(w1, name, stuck));
  }

  lemma {:induction false} RepoolResult(w: World, names: seq<Name>, stuck: set<RevisionKey>)
    requires KeysMatch(w) && NoDuplicates(names)
    ensures DoAll(w, RepoolWrites(w, names, stuck)) == RepoolAll(w, ToSet(names), stuck)
    ensures KeysMatch(RepoolAll(w, ToSet(names), stuck))
    decreases names
  {
    if names == [] {
      RepoolNothing(w, {}, stuck);
      assert ToSet(names) == {};
    } else {
      var init, last := names[..|names| - 1], names[|names| - 1];
      assert names == init + [last];
      RepoolResult(w, init, stuck);
      RepoolWritesStep(w, init, last, stuck);
      RepoolOneResult(RepoolAll(w, ToSet(init), stuck), last, stuck);
      RepoolAllTwice(w, ToSet(init), last, stuck);
      assert ToSet(names) == ToSet(init) + {last};
    }
  }

  // ---------- What a restore reports ----------

  function RunningAmong(w: World, ids: set<BuildId>): set<BuildId> {
    set id | id in ids && id in w.builds && w.builds[id].status == Running
  }

  function ServedAmong(w: World, names: set<Name>): set<Name> {
    set n | n in names && Serving(w, n).Some?
  }

  lemma OneMoreRunning(w: World, ids: seq<BuildId>, id: BuildId)
    requires KeysMatch(w) && id !in ids
    ensures var v := DoAll(w, InterruptWrites(w, ids));
            |RunningAmong(w, ToSet(ids + [id]))|
              == |RunningAmong(w, ToSet(ids))| + if id in v.builds && v.builds[id].status == Running then 1 else 0
  {
    InterruptResult(w, ids);
    var before := RunningAmong(w, ToSet(ids));
    assert RunningAmong(w, ToSet(ids + [id]))
        == before + if id in w.builds && w.builds[id].status == Running then {id} else {};
  }

  lemma ServedGrows(w: World, names: seq<Name>, name: Name)
    requires name !in names
    ensures |ServedAmong(w, ToSet(names + [name]))|
         == |ServedAmong(w, ToSet(names))| + if Serving(w, name).Some? then 1 else 0
  {
    var before := ServedAmong(w, ToSet(names));
    assert ServedAmong(w, ToSet(names + [name])) == before + if Serving(w, name).Some? then {name} else {};
  }

  lemma StillServed(w: World, names: seq<Name>, name: Name, stuck: set<RevisionKey>)
    requires KeysMatch(w) && NoDuplicates(names)
    ensures Serving(DoAll(w, RepoolWrites(w, names, stuck)), name).Some? <==> Serving(w, name).Some?
  {
    RepoolResult(w, names, stuck);
    ServingAfter(w, ToSet(names), stuck, name);
  }

  // ---------- A whole restore ----------

  function Restored(w: World, stuck: set<RevisionKey>): World {
    var w1 := BackfillAll(w, w.functions.Keys);
    var w2 := InterruptAll(w1, w.builds.Keys);
    RepoolAll(w2, w.functions.Keys, stuck)
  }

  // Whatever order the store lists functions and builds in, a restore does the same.
  lemma RestoreIgnoresOrder(w: World, names: seq<Name>, ids: seq<BuildId>, stuck: set<RevisionKey>)
    requires KeysMatch(w)
    requires NoDuplicates(names) && ToSet(names) == w.functions.Keys && ToSet(ids) == w.builds.Keys
    ensures DoAll(w, RestoreWrites(w, names, ids, stuck)) == Restored(w, stuck)
    ensures KeysMatch(Restored(w, stuck))
  {
    var backfill := BackfillWrites(w, names);
    BackfillResult(w, names);
    var w1 := DoAll(w, backfill);
    var interrupt := InterruptWrites(w1, ids);
    InterruptResult(w1, ids);
    var w2 := DoAll(w1, interrupt);
    RepoolResult(w2, names, stuck);
    DoAllConcat(w, backfill, interrupt);
    DoAllConcat(w, backfill + interrupt, RepoolWrites(w2, names, stuck));
  }

  // What each pass of a restore finds.
  lemma RestoreStages(w: World, w1: World, w2: World, names: seq<Name>, ids: seq<BuildId>, stuck: set<RevisionKey>)
    requires KeysMatch(w) && ToSet(names) == w.functions.Keys && ToSet(ids) == w.builds.Keys
    requires w1 == DoAll(w, BackfillWrites(w, names)) && w2 == DoAll(w1, InterruptWrites(w1, ids))
    ensures RestoreWrites(w, names, ids, stuck)
         == BackfillWrites(w, names) + InterruptWrites(w1, ids) + RepoolWrites(w2, names, stuck)
    ensures KeysMatch(w1) && RunningAmong(w1, ToSet(ids)) == RunningAmong(w, w.builds.Keys)
    ensures KeysMatch(w2) && ServedAmong(w2, ToSet(names)) == ServedAmong(Restored(w, stuck), w.functions.Keys)
  {
    BackfillResult(w, names);
    InterruptResult(w1, ids);
    ServedAfterwards(w2, w.functions.Keys, stuck);
  }

  lemma ServedAfterwards(w: World, names: set<Name>, stuck: set<RevisionKey>)
    requires KeysMatch(w)
    ensures ServedAmong(RepoolAll(w, names, stuck), names) == ServedAmong(w, names)
  {
    forall n ensures Serving(RepoolAll(w, names, stuck), n).Some? <==> Serving(w, n).Some? {
      ServingAfter(w, names, stuck, n);
    }
  }

  lemma RestoredFields(w: World, stuck: set<RevisionKey>)
    requires KeysMatch(w)
    ensures var v := Restored(w, stuck);
            && KeysMatch(v)
            && v.functions.Keys == w.functions.Keys && v.builds.Keys == w.builds.Keys
            && v.revisions.Keys == w.revisions.Keys
            && (forall n <- w.functions :: v.functions[n] ==
                  var f := Backfilled(w.functions[n]);
                  if InterruptedBy(w, n, w.builds.Keys) then Marked(f) else f)
            && (forall id <- w.builds :: v.builds[id] == FailRunning(w.builds[id]))
  {
    var w1 := BackfillAll(w, w.functions.Keys);
    var w2 := InterruptAll(w1, w.builds.Keys);
    forall n <- w.functions ensures InterruptedBy(w1, n, w.builds.Keys) == InterruptedBy(w, n, w.builds.Keys) {
    }
  }

  lemma PassesLeaveRestored(v: World)
    requires KeysMatch(v)
    requires forall n <- v.functions :: Backfilled(v.functions[n]) == v.functions[n]
    requires forall id <- v.builds :: v.builds[id].status != Running
    ensures BackfillAll(v, v.functions.Keys) == v
    ensures InterruptAll(v, v.builds.Keys) == v
  {
    assert BackfillAll(v, v.functions.Keys).functions == v.functions;
    var v2 := InterruptAll(v, v.builds.Keys);
    assert v2.functions == v.functions && v2.builds == v.builds;
  }

  lemma RepoolIsIdempotent(u: World, names: set<Name>, stuck: set<RevisionKey>)
    requires KeysMatch(u)
    ensures RepoolAll(RepoolAll(u, names, stuck), names, stuck) == RepoolAll(u, names, stuck)
  {
    var v := RepoolAll(u, names, stuck);
    RepooledStays(u, names, stuck);
    assert RepoolTargets(v, names, stuck) == {} by {
      forall n <- names {
        ServingAfter(u, names, stuck, n);
      }
    }
    assert PrunedAll(v, {}).revisions == v.revisions;
  }

  lemma RepooledStays(u: World, names: set<Name>, stuck: set<RevisionKey>)
    requires KeysMatch(u)
    ensures Repooled(RepoolAll(u, names, stuck), names) == RepoolAll(u, names, stuck).pools
  {
    forall n <- names {
      ServingAfter(u, names, stuck, n);
    }
  }

  // A second restore changes nothing (timestamps are not part of the model).
  lemma RestoreIsIdempotent(w: World, stuck: set<RevisionKey>)
    requires KeysMatch(w)
    ensures Restored(Restored(w, stuck), stuck) == Restored(w, stuck)
  {
    var v := Restored(w, stuck);
    RestoredFields(w, stuck);
    PassesLeaveRestored(v);
    RepoolIsIdempotent(InterruptAll(BackfillAll(w, w.functions.Keys), w.builds.Keys), w.functions.Keys, stuck);
  }
}
