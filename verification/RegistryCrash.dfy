/**
 Crashes.  An operation cut after any number of its writes, followed by a restart, leaves a function
 either settled (served, or failed without a revision) or in a state that is said exactly.
 */
module RegistryCrash {
  import opened RegistryModel
  import opened RegistryRestore

  // A pruned revision is a built one below `current - 1`, without artifact path or directory.
  predicate Retained(w: World, n: Name, k: nat) {
    var key := (n, k);
    key in w.revisions && w.revisions[key].artifactPruned ==>
      && k + 1 < CurrentNumber(w, n)
      && w.revisions[key].buildMode.Some?
      && w.revisions[key].artifactPath.None?
      && key !in w.dirs
  }

  // Every revision up to the current one is stored, and retained as it should be.
  ghost predicate Whole(w: World, n: Name) {
    && (n in w.functions && w.functions[n].currentRevision.Some? ==> CurrentNumber(w, n) > 0)
    && forall k: nat :: 1 <= k <= CurrentNumber(w, n) ==> (n, k) in w.revisions && Retained(w, n, k)
  }

  predicate HasRunningBuild(w: World, n: Name) {
    exists id <- w.builds :: w.builds[id].status == Running && w.builds[id].functionName == n
  }

  // Ready with a revision, or failed without one.
  predicate Decided(f: Function) {
    || (f.state == Ready && f.currentRevision.Some?)
    || (f.state == Failed && f.currentRevision.None?)
  }

  // What every function is like between operations.
  ghost predicate Settled(w: World, n: Name) {
    && !HasRunningBuild(w, n)
    && if n in w.functions then
         var f := w.functions[n];
         && Decided(f) && Whole(w, n) && Backfilled(f) == f
         && (f.state == Ready <==> n in w.pools)
         && (f.state == Ready ==> w.pools[n].template == f.currentRevision.value)
       else n !in w.pools
  }

  function Restarted(w: World, stuck: set<RevisionKey>): World {
    Restored(Crash(w), stuck)
  }

  // ---------- What a restart makes of one function ----------

  lemma RestartedAt(w: World, n: Name, stuck: set<RevisionKey>)
    requires KeysMatch(w)
    ensures var v := Restarted(w, stuck);
            && KeysMatch(v)
            && (n in v.functions <==> n in w.functions)
            && !HasRunningBuild(v, n)
            && (n in w.functions ==>
                  v.functions[n] ==
                    if HasRunningBuild(w, n) then Marked(Backfilled(w.functions[n])) else Backfilled(w.functions[n]))
  {
    RestoredFields(Crash(w), stuck);
    var v := Restarted(w, stuck);
    assert InterruptedBy(Crash(w), n, w.builds.Keys) <==> HasRunningBuild(w, n);
  }

  lemma RestartedPool(w: World, n: Name, stuck: set<RevisionKey>)
    requires KeysMatch(w)
    ensures var v := Restarted(w, stuck);
            && (n in v.pools <==> Serving(v, n).Some?)
            && (n in v.pools ==>
                  && v.pools[n].template == v.functions[n].currentRevision.value
                  && v.pools[n] == PoolEntry(v.pools[n].template,
                                             Serving(v, n).value.snapshot.settings, DriverFor(Serving(v, n).value)))
  {
    var u := InterruptAll(BackfillAll(Crash(w), w.functions.Keys), w.builds.Keys);
    assert u.pools == map[];
    assert Restarted(w, stuck) == RepoolAll(u, w.functions.Keys, stuck);
    RepooledAt(u, w.functions.Keys, n);
    ServingAfter(u, w.functions.Keys, stuck, n);
    if Serving(u, n).Some? {
      ServedRevisionKept(u, w.functions.Keys, n, stuck);
    }
  }

  // Pruning never touches the revision that is being served.
  lemma ServedRevisionKept(u: World, names: set<Name>, n: Name, stuck: set<RevisionKey>)
    requires KeysMatch(u) && Serving(u, n).Some?
    ensures Serving(RepoolAll(u, names, stuck), n) == Serving(u, n)
  {
    var key := (n, u.functions[n].currentRevision.value);
    assert key !in RepoolTargets(u, names, stuck);
  }

  lemma RestartKeepsRevision(w: World, key: RevisionKey, stuck: set<RevisionKey>)
    requires KeysMatch(w)
    ensures var v := Restarted(w, stuck);
            && CurrentNumber(v, key.0) == CurrentNumber(w, key.0)
            && (key in v.revisions <==> key in w.revisions)
            && (key in w.revisions && v.revisions[key] == w.revisions[key] ==> (key in v.dirs <==> key in w.dirs))
            && (key in w.revisions && v.revisions[key] != w.revisions[key] ==>
                  && v.revisions[key] == PrunedRecord(w.revisions[key]) && key !in v.dirs
                  && !w.revisions[key].artifactPruned && w.revisions[key].buildMode.Some?
                  && (1 <= key.1 <= CurrentNumber(w, key.0) ==> key.1 + 1 < CurrentNumber(w, key.0)))
  {
    var u := InterruptAll(BackfillAll(Crash(w), w.functions.Keys), w.builds.Keys);
    var targets := RepoolTargets(u, w.functions.Keys, stuck);
    RestartedAt(w, key.0, stuck);
    assert Restarted(w, stuck).dirs == w.dirs - targets;
    if key in w.revisions && key in targets {
      assert Prunable(w, key, stuck) && PrunedRecord(w.revisions[key]) != w.revisions[key];
    }
  }

  lemma RestartRetains(w: World, n: Name, k: nat, stuck: set<RevisionKey>)
    requires KeysMatch(w) && 1 <= k <= CurrentNumber(w, n)
    ensures var v := Restarted(w, stuck);
            ((n, k) in v.revisions && Retained(v, n, k)) <==> ((n, k) in w.revisions && Retained(w, n, k))
  {
    RestartKeepsRevision(w, (n, k), stuck);
  }

  lemma SameWhole(w: World, v: World, n: Name)
    requires n in w.functions <==> n in v.functions
    requires n in w.functions ==> w.functions[n].currentRevision == v.functions[n].currentRevision
    requires forall k: nat | 1 <= k <= CurrentNumber(w, n) ::
               ((n, k) in v.revisions && Retained(v, n, k)) <==> ((n, k) in w.revisions && Retained(w, n, k))
    ensures Whole(v, n) <==> Whole(w, n)
  {
  }

  lemma RestartKeepsWhole(w: World, n: Name, stuck: set<RevisionKey>)
    requires KeysMatch(w)
    ensures Whole(Restarted(w, stuck), n) <==> Whole(w, n)
  {
    var v := Restarted(w, stuck);
    RestartedAt(w, n, stuck);
    forall k: nat | 1 <= k <= CurrentNumber(w, n)
      ensures ((n, k) in v.revisions && Retained(v, n, k)) <==> ((n, k) in w.revisions && Retained(w, n, k))
    {
      RestartRetains(w, n, k, stuck);
    }
    SameWhole(w, v, n);
  }

  // What a restart settles: an unknown name; and a function whose stored revisions are whole and whose
  // build was running, or that was ready with a revision or failed without one.
  ghost predicate Settles(w: World, n: Name) {
    n in w.functions ==> Whole(w, n) && (HasRunningBuild(w, n) || Decided(w.functions[n]))
  }

  lemma RestartSettles(w: World, n: Name, stuck: set<RevisionKey>)
    requires KeysMatch(w)
    ensures Settled(Restarted(w, stuck), n) <==> Settles(w, n)
  {
    RestartedAt(w, n, stuck);
    RestartedPool(w, n, stuck);
    RestartKeepsWhole(w, n, stuck);
  }

  // ---------- Writes cut short ----------

  lemma {:induction false} PrefixOfConcat(w: World, xs: seq<Write>, ys: seq<Write>, k: nat)
    requires k <= |xs| + |ys|
    ensures k <= |xs| ==> DoAll(w, (xs + ys)[..k]) == DoAll(w, xs[..k])
    ensures k >= |xs| ==> DoAll(w, (xs + ys)[..k]) == DoAll(DoAll(w, xs), ys[..k - |xs|])
  {
    if k <= |xs| {
      assert (xs + ys)[..k] == xs[..k];
    } else {
      assert (xs + ys)[..k] == xs + ys[..k - |xs|];
    }
    if k >= |xs| {
      assert (xs + ys)[..k] == xs + ys[..k - |xs|];
      DoAllConcat(w, xs, ys[..k - |xs|]);
    }
  }

  // What every prefix of a pruning pass keeps: only prunable records and directories in range are touched,
  // and a record is marked only once its directory is gone.
  ghost predicate PrunedPartly(w: World, v: World, n: Name, from: nat, end: nat, stuck: set<RevisionKey>) {
    && v == w.(revisions := v.revisions, dirs := v.dirs)
    && v.revisions.Keys == w.revisions.Keys
    && v.dirs <= w.dirs
    && (forall key <- w.dirs :: key !in v.dirs ==> key in Targets(w, n, from, end, stuck))
    && (forall key <- w.revisions ::
          || v.revisions[key] == w.revisions[key]
          || (&& key in Targets(w, n, from, end, stuck)
              && v.revisions[key] == PrunedRecord(w.revisions[key]) && key !in v.dirs))
  }

  lemma PruneOnePrefix(w: World, key: RevisionKey, stuck: set<RevisionKey>, k: nat)
    requires KeysMatch(w) && k <= |PruneOne(w, key, stuck)|
    ensures PrunedPartly(w, DoAll(w, PruneOne(w, key, stuck)[..k]), key.0, key.1, key.1 + 1, stuck)
  {
    var one := PruneOne(w, key, stuck);
    if one != [] {
      DoAllShort(w, one[0], one[1]);
      assert one[..1] == [one[0]];
      assert one[..2] == one;
    }
    assert one[..0] == [];
  }

  lemma PrunedPartlyWider(w: World, v: World, n: Name, from: nat, mid: nat, end: nat, stuck: set<RevisionKey>)
    requires from <= mid <= end && PrunedPartly(w, v, n, from, mid, stuck)
    ensures PrunedPartly(w, v, n, from, end, stuck)
  {
    assert Targets(w, n, from, mid, stuck) <= Targets(w, n, from, end, stuck);
  }

  lemma PrunedPartlyAfter(w: World, v: World, n: Name, from: nat, mid: nat, end: nat, stuck: set<RevisionKey>)
    requires from <= mid <= end
    requires PrunedPartly(PrunedAll(w, Targets(w, n, from, mid, stuck)), v, n, mid, end, stuck)
    ensures PrunedPartly(w, v, n, from, end, stuck)
  {
    TargetsSplit(w, n, from, mid, end, stuck);
  }

  lemma PrunePrefixLater(
    w: World, n: Name, from: nat, end: nat, stuck: set<RevisionKey>, before: seq<Write>, one: seq<Write>, k: nat)
    requires from < end && |before| < k <= |before| + |one|
    requires DoAll(w, before) == PrunedAll(w, Targets(w, n, from, end - 1, stuck))
    requires PrunedPartly(DoAll(w, before), DoAll(DoAll(w, before), one[..k - |before|]), n, end - 1, end, stuck)
    ensures PrunedPartly(w, DoAll(w, (before + one)[..k]), n, from, end, stuck)
  {
    PrefixOfConcat(w, before, one, k);
    PrunedPartlyAfter(w, DoAll(DoAll(w, before), one[..k - |before|]), n, from, end - 1, end, stuck);
  }

  lemma PrunePrefixEarlier(
    w: World, n: Name, from: nat, end: nat, stuck: set<RevisionKey>, before: seq<Write>, one: seq<Write>, k: nat)
    requires from < end && k <= |before| && PrunedPartly(w, DoAll(w, before[..k]), n, from, end - 1, stuck)
    ensures PrunedPartly(w, DoAll(w, (before + one)[..k]), n, from, end, stuck)
  {
    PrefixOfConcat(w, before, one, k);
    PrunedPartlyWider(w, DoAll(w, before[..k]), n, from, end - 1, end, stuck);
  }

  ghost predicate PartlyAtEveryCut(w: World, xs: seq<Write>, n: Name, from: nat, end: nat, stuck: set<RevisionKey>) {
    forall k | 0 <= k <= |xs| :: PrunedPartly(w, DoAll(w, xs[..k]), n, from, end, stuck)
  }

  lemma PartlyConcat(
    w: World, n: Name, from: nat, end: nat, stuck: set<RevisionKey>, before: seq<Write>, one: seq<Write>)
    requires from < end && DoAll(w, before) == PrunedAll(w, Targets(w, n, from, end - 1, stuck))
    requires PartlyAtEveryCut(w, before, n, from, end - 1, stuck)
    requires PartlyAtEveryCut(DoAll(w, before), one, n, end - 1, end, stuck)
    ensures PartlyAtEveryCut(w, before + one, n, from, end, stuck)
  {
    forall k | 0 <= k <= |before + one| ensures PrunedPartly(w, DoAll(w, (before + one)[..k]), n, from, end, stuck) {
      if k <= |before| {
        PrunePrefixEarlier(w, n, from, end, stuck, before, one, k);
      } else {
        PrunePrefixLater(w, n, from, end, stuck, before, one, k);
      }
    }
  }

  lemma PruneOnePartly(w: World, n: Name, from: nat, end: nat, stuck: set<RevisionKey>, w1: World)
    requires KeysMatch(w) && from < end && w1 == PrunedAll(w, Targets(w, n, from, end - 1, stuck))
    ensures PartlyAtEveryCut(w1, PruneOne(w1, (n, end - 1), stuck), n, end - 1, end, stuck)
  {
    PrunedAllKeeps(w, Targets(w, n, from, end - 1, stuck));
    var one := PruneOne(w1, (n, end - 1), stuck);
    forall k | 0 <= k <= |one| ensures PrunedPartly(w1, DoAll(w1, one[..k]), n, end - 1, end, stuck)
    {
      PruneOnePrefix(w1, (n, end - 1), stuck, k);
    }
  }

  lemma PrunePrefixesStep(w: World, n: Name, from: nat, end: nat, stuck: set<RevisionKey>)
    requires KeysMatch(w) && from < end
    requires PartlyAtEveryCut(w, PruneWrites(w, n, from, end - 1, stuck), n, from, end - 1, stuck)
    ensures PartlyAtEveryCut(w, PruneWrites(w, n, from, end, stuck), n, from, end, stuck)
  {
    var w1 := PrunedAll(w, Targets(w, n, from, end - 1, stuck));
    PruneResult(w, n, from, end - 1, stuck);
    PruneOnePartly(w, n, from, end, stuck, w1);
    PruneWritesStep(w, n, from, end, stuck, w1);
    PartlyConcat(w, n, from, end, stuck, PruneWrites(w, n, from, end - 1, stuck), PruneOne(w1, (n, end - 1), stuck));
  }

  lemma {:induction false} PrunePrefixes(w: World, n: Name, from: nat, end: nat, stuck: set<RevisionKey>)
    requires KeysMatch(w)
    ensures PartlyAtEveryCut(w, PruneWrites(w, n, from, end, stuck), n, from, end, stuck)
    decreases end
  {
    if from < end {
      PrunePrefixes(w, n, from, end - 1, stuck);
      PrunePrefixesStep(w, n, from, end, stuck);
    }
  }

  lemma PrunePrefix(w: World, n: Name, from: nat, end: nat, stuck: set<RevisionKey>, k: nat)
    requires KeysMatch(w) && k <= |PruneWrites(w, n, from, end, stuck)|
    ensures PrunedPartly(w, DoAll(w, PruneWrites(w, n, from, end, stuck)[..k]), n, from, end, stuck)
  {
    PrunePrefixes(w, n, from, end, stuck);
  }
}
