/**
 A restore cut short, and the restart after it.  Where it was cut makes a difference in two places only:
 between failing an interrupted build and marking its function, and between re-activating a function and
 writing back what its record said of the last failure.
 */
module RegistryRestoreCuts {
  import opened Wrappers
  import opened Sequences
  import opened RegistryModel
  import opened RegistryRestore
  import opened RegistryCrash
  import opened RegistryOperations

  // The world a restart begins with, after its first pass, and after its second.
  function Backfilling(w: World): World {
    BackfillAll(Crash(w), w.functions.Keys)
  }

  function Interrupting(w: World): World {
    InterruptAll(Backfilling(w), w.builds.Keys)
  }

  lemma BackfillKeys(w: World)
    requires KeysMatch(w)
    ensures KeysMatch(Backfilling(w)) && Backfilling(w).builds == w.builds
    ensures Backfilling(w).functions.Keys == w.functions.Keys
  {
  }

  lemma PassKeys(w: World)
    requires KeysMatch(w)
    ensures KeysMatch(Backfilling(w)) && KeysMatch(Interrupting(w))
    ensures forall n <- Interrupting(w).functions ::
              Backfilled(Interrupting(w).functions[n]) == Interrupting(w).functions[n]
    ensures forall id <- Interrupting(w).builds :: Interrupting(w).builds[id].status != Running
  {
  }

  // ---------- What a second restart can find ----------

  // Functions, builds and pools.
  predicate ServesTheSame(v: World, v': World) {
    v.functions == v'.functions && v.builds == v'.builds && v.pools == v'.pools
  }

  // Revisions and directories.
  predicate PrunedTheSame(v: World, v': World) {
    v.revisions == v'.revisions && v.dirs == v'.dirs
  }

  function WithoutError(v: World, name: Name): World {
    if name in v.functions then v.(functions := v.functions[name := v.functions[name].(lastError := None)]) else v
  }

  // The records of functions behind `j` writes of the item for `name`: the second clears its last error.
  function WithoutErrorFrom(v: World, name: Name, j: nat): map<Name, Function> {
    if j < 2 then v.functions else WithoutError(v, name).functions
  }

  // The world `v` a restart ends with after a cut, against the one, `v'`, it would have ended with.
  predicate Recovers(v: World, v': World, lost: bool, samePruning: bool) {
    && (ServesTheSame(v, v') <==> !lost)
    && (samePruning && !lost ==> v == v')
  }

  predicate LosesErrorOnly(v: World, v': World, name: Name, samePruning: bool) {
    ServesTheSame(v, WithoutError(v', name)) && (samePruning ==> PrunedTheSame(v, v'))
  }

  // ---------- Where a pass is cut ----------

  // A pass takes one item after the other, each in the world that the items before it left.
  function Pass<T>(u: World, items: seq<T>, one: (World, T) -> seq<Write>): seq<Write>
    decreases items
  {
    if items == [] then []
    else
      var before := Pass(u, items[..|items| - 1], one);
      before + one(DoAll(u, before), items[|items| - 1])
  }

  lemma PassStep<T>(u: World, items: seq<T>, one: (World, T) -> seq<Write>, i: nat)
    requires i < |items|
    ensures Pass(u, items[..i + 1], one)
         == Pass(u, items[..i], one) + one(DoAll(u, Pass(u, items[..i], one)), items[i])
  {
    assert items[..i + 1][..i] == items[..i];
  }

  lemma {:induction false} PassGrows<T>(u: World, items: seq<T>, one: (World, T) -> seq<Write>, i: nat, j: nat)
    requires i <= j <= |items|
    ensures |Pass(u, items[..i], one)| <= |Pass(u, items[..j], one)|
    decreases j
  {
    if i < j {
      PassStep(u, items, one, j - 1);
      PassGrows(u, items, one, i, j - 1);
    }
  }

  // Of the writes of a pass, `k` are those for the first `i` items and `j` of those for the next.
  ghost predicate CutAt<T>(u: World, items: seq<T>, one: (World, T) -> seq<Write>, k: nat, i: nat, j: nat) {
    && i < |items|
    && var before := Pass(u, items[..i], one);
       var next := one(DoAll(u, before), items[i]);
       && k == |before| + j && j < |next| && k < |Pass(u, items, one)|
       && DoAll(u, Pass(u, items, one)[..k]) == DoAll(DoAll(u, before), next[..j])
  }

  // Every cut of a pass is of that form.
  lemma {:induction false} PassCut<T>(u: World, items: seq<T>, one: (World, T) -> seq<Write>, k: nat)
    returns (i: nat, j: nat)
    requires k < |Pass(u, items, one)|
    ensures CutAt(u, items, one, k, i, j)
    decreases items
  {
    var n := |items| - 1;
    var init := items[..n];
    var xs := Pass(u, init, one);
    var next := one(DoAll(u, xs), items[n]);
    PrefixOfConcat(u, xs, next, k);
    if k < |xs| {
      i, j := PassCut(u, init, one, k);
      assert init[..i] == items[..i];
    } else {
      i, j := n, k - |xs|;
    }
  }

  // The cut at `k` is behind at least `least` of the writes for item `i` and before the last of them.
  predicate Inside<T>(u: World, items: seq<T>, one: (World, T) -> seq<Write>, least: nat, k: int, i: int) {
    0 <= i < |items| && |Pass(u, items[..i], one)| + least <= k < |Pass(u, items[..i + 1], one)|
  }

  lemma InsideNext<T>(
    u: World, items: seq<T>, one: (World, T) -> seq<Write>, least: nat, k: nat, i: nat, j: nat, m: int)
    requires CutAt(u, items, one, k, i, j)
    ensures Inside(u, items, one, least, k, m) <==> m == i && least <= j
  {
    PassStep(u, items, one, i);
    if 0 <= m < i {
      PassGrows(u, items, one, m + 1, i);
    } else if i < m < |items| {
      PassGrows(u, items, one, i + 1, m);
    }
  }

  lemma InsideBounds<T>(u: World, items: seq<T>, one: (World, T) -> seq<Write>, least: nat, k: int, i: int)
    requires Inside(u, items, one, least, k, i)
    ensures least <= k < |Pass(u, items, one)|
  {
    PassGrows(u, items, one, i + 1, |items|);
    assert items[..|items|] == items;
  }

  // The second and the third pass of a restart.
  function InterruptStep(): (World, BuildId) -> seq<Write> {
    (u, id) => InterruptOne(u, id)
  }

  function RepoolStep(stuck: set<RevisionKey>): (World, Name) -> seq<Write> {
    (u, name) => RepoolOne(u, name, stuck)
  }

  lemma {:induction false} InterruptIsPass(u: World, ids: seq<BuildId>)
    ensures InterruptWrites(u, ids) == Pass(u, ids, InterruptStep())
  {
    if ids != [] {
      InterruptIsPass(u, ids[..|ids| - 1]);
    }
  }

  lemma {:induction false} RepoolIsPass(u: World, names: seq<Name>, stuck: set<RevisionKey>)
    ensures RepoolWrites(u, names, stuck) == Pass(u, names, RepoolStep(stuck))
  {
    if names != [] {
      RepoolIsPass(u, names[..|names| - 1], stuck);
    }
  }

  // ---------- Cut in the first pass ----------

  // Some records are backfilled already.
  ghost predicate BackfilledPartly(u: World, c: World) {
    && c == u.(functions := c.functions) && c.functions.Keys == u.functions.Keys
    && forall n <- u.functions :: c.functions[n] == u.functions[n] || c.functions[n] == Backfilled(u.functions[n])
  }

  lemma BackfilledOver(u: World, c: World)
    requires BackfilledPartly(u, c)
    ensures BackfillAll(c, u.functions.Keys) == BackfillAll(u, u.functions.Keys)
  {
    assert BackfillAll(c, u.functions.Keys).functions == BackfillAll(u, u.functions.Keys).functions;
  }

  // A pass cut anywhere has done the work for some names, and that for the next one in part.
  lemma {:induction false} BackfillCut(u: World, names: seq<Name>, k: nat) returns (i: nat)
    requires k <= |BackfillWrites(u, names)|
    ensures i <= |names| && BackfillWrites(u, names)[..k] == BackfillWrites(u, names[..i])
    decreases names
  {
    var xs := BackfillWrites(u, names);
    if k == |xs| {
      i := |names|;
      assert names[..i] == names && xs[..k] == xs;
    } else {
      var init := names[..|names| - 1];
      i := BackfillCut(u, init, k);
      assert init[..i] == names[..i] && xs[..k] == BackfillWrites(u, init)[..k];
    }
  }

  lemma BackfillCutWorld(u: World, names: seq<Name>, k: nat)
    requires KeysMatch(u) && k <= |BackfillWrites(u, names)|
    ensures BackfilledPartly(u, DoAll(u, BackfillWrites(u, names)[..k]))
  {
    var i := BackfillCut(u, names, k);
    BackfillResult(u, names[..i]);
  }

  lemma CutInBackfill(w: World, names: seq<Name>, stuck: set<RevisionKey>, k: nat)
    requires KeysMatch(w) && k <= |BackfillWrites(Crash(w), names)|
    ensures Restarted(DoAll(Crash(w), BackfillWrites(Crash(w), names)[..k]), stuck) == Restarted(w, stuck)
  {
    var c := DoAll(Crash(w), BackfillWrites(Crash(w), names)[..k]);
    BackfillCutWorld(Crash(w), names, k);
    BackfilledOver(Crash(w), c);
    assert Crash(c) == c;
  }

  // ---------- Cut in the second pass ----------

  lemma InterruptOver(u: World, ids: set<BuildId>, all: set<BuildId>)
    requires KeysMatch(u) && ids <= all
    ensures InterruptAll(InterruptAll(u, ids), all) == InterruptAll(u, all)
  {
    var c, v := InterruptAll(u, ids), InterruptAll(u, all);
    assert InterruptAll(c, all).builds == v.builds;
    forall n | n in u.functions ensures InterruptAll(c, all).functions[n] == v.functions[n] {
      if InterruptedBy(u, n, all) {
        assert InterruptedBy(u, n, ids) || InterruptedBy(c, n, all);
      }
    }
    assert InterruptAll(c, all).functions == v.functions;
  }

  // The only running build of a function whose record does not say so yet.
  predicate OnlySign(u: World, id: BuildId) {
    && id in u.builds && u.builds[id].status == Running
    && u.builds[id].functionName in u.functions
    && (forall other <- u.builds ::
          u.builds[other].status == Running && u.builds[other].functionName == u.builds[id].functionName ==>
            other == id)
    && Marked(u.functions[u.builds[id].functionName]) != u.functions[u.builds[id].functionName]
  }

  function WithFailed(u: World, id: BuildId): World
    requires id in u.builds
  {
    u.(builds := u.builds[id := u.builds[id].(status := BuildFailed)])
  }

  // `done` were reconciled; then `id` was failed and nothing more.
  lemma TornInterrupt(u: World, done: set<BuildId>, id: BuildId)
    requires KeysMatch(u) && id !in done && done <= u.builds.Keys && id in u.builds && u.builds[id].status == Running
    ensures var c := WithFailed(InterruptAll(u, done), id);
            && (OnlySign(u, id) ==>
                  var m := u.builds[id].functionName;
                  && InterruptAll(c, u.builds.Keys).functions[m] == u.functions[m]
                  && InterruptAll(u, u.builds.Keys).functions[m] == Marked(u.functions[m]))
            && (!OnlySign(u, id) ==> InterruptAll(c, u.builds.Keys) == InterruptAll(u, u.builds.Keys))
  {
    if OnlySign(u, id) {
      TornSign(u, done, id);
    } else {
      TornElsewhere(u, done, id);
    }
  }

  lemma TornSign(u: World, done: set<BuildId>, id: BuildId)
    requires OnlySign(u, id) && id !in done
    ensures var c, m := WithFailed(InterruptAll(u, done), id), u.builds[id].functionName;
            && InterruptAll(c, u.builds.Keys).functions[m] == u.functions[m]
            && InterruptAll(u, u.builds.Keys).functions[m] == Marked(u.functions[m])
  {
    var c, m := WithFailed(InterruptAll(u, done), id), u.builds[id].functionName;
    assert InterruptedBy(u, m, u.builds.Keys);
    assert !InterruptedBy(u, m, done) && !InterruptedBy(c, m, u.builds.Keys);
  }

  lemma TornElsewhere(u: World, done: set<BuildId>, id: BuildId)
    requires KeysMatch(u) && id !in done && done <= u.builds.Keys && id in u.builds && u.builds[id].status == Running
    requires !OnlySign(u, id)
    ensures InterruptAll(WithFailed(InterruptAll(u, done), id), u.builds.Keys) == InterruptAll(u, u.builds.Keys)
  {
    var c, all := WithFailed(InterruptAll(u, done), id), u.builds.Keys;
    assert InterruptAll(c, all).builds == InterruptAll(u, all).builds;
    forall n <- u.functions ensures InterruptAll(c, all).functions[n] == InterruptAll(u, all).functions[n] {
      TornInterruptAt(u, done, id, n);
    }
    assert InterruptAll(c, all).functions == InterruptAll(u, all).functions;
  }

  lemma TornInterruptAt(u: World, done: set<BuildId>, id: BuildId, n: Name)
    requires KeysMatch(u) && id !in done && done <= u.builds.Keys && id in u.builds && u.builds[id].status == Running
    requires n in u.functions && !OnlySign(u, id)
    ensures InterruptAll(WithFailed(InterruptAll(u, done), id), u.builds.Keys).functions[n]
         == InterruptAll(u, u.builds.Keys).functions[n]
  {
    var c, all := WithFailed(InterruptAll(u, done), id), u.builds.Keys;
    if other :|
      && other in u.builds && other != id
      && u.builds[other].status == Running && u.builds[other].functionName == n {
      StillSigned(u, done, id, other);
    } else {
      assert !InterruptedBy(u, n, done) && !InterruptedBy(c, n, all);
      assert InterruptedBy(u, n, all) ==> n == u.builds[id].functionName;
    }
  }

  // Another running build of its function marked it before, or will.
  lemma StillSigned(u: World, done: set<BuildId>, id: BuildId, other: BuildId)
    requires done <= u.builds.Keys && id in u.builds && other in u.builds && other != id
    requires u.builds[other].status == Running && u.builds[other].functionName in u.functions
    ensures var n, c := u.builds[other].functionName, WithFailed(InterruptAll(u, done), id);
            InterruptAll(c, u.builds.Keys).functions[n] == InterruptAll(u, u.builds.Keys).functions[n]
              == Marked(u.functions[n])
  {
    var n, c := u.builds[other].functionName, WithFailed(InterruptAll(u, done), id);
    assert InterruptedBy(u, n, u.builds.Keys);
    if other in done {
      assert InterruptedBy(u, n, done);
    } else {
      assert c.builds[other] == u.builds[other] && InterruptedBy(c, n, u.builds.Keys);
    }
  }

  lemma DoneInPasses(w: World, done: set<BuildId>)
    requires KeysMatch(w)
    ensures InPasses(w, InterruptAll(Backfilling(w), done))
  {
  }

  lemma FailedInPasses(w: World, c: World, id: BuildId)
    requires InPasses(w, c) && id in c.builds
    ensures InPasses(w, WithFailed(c, id))
  {
  }

  lemma CutBetweenBuilds(w: World, done: set<BuildId>, stuck: set<RevisionKey>)
    requires KeysMatch(w) && done <= w.builds.Keys
    ensures Restarted(InterruptAll(Backfilling(w), done), stuck) == Restarted(w, stuck)
  {
    BackfillKeys(w);
    DoneInPasses(w, done);
    InterruptOver(Backfilling(w), done, w.builds.Keys);
    SameAfterPasses(w, InterruptAll(Backfilling(w), done), stuck);
  }

  lemma CutAfterBuild(w: World, done: set<BuildId>, id: BuildId, stuck: set<RevisionKey>)
    requires KeysMatch(w) && id in w.builds && w.builds[id].status == Running && id !in done && done <= w.builds.Keys
    ensures var c := WithFailed(InterruptAll(Backfilling(w), done), id);
            Recovers(Restarted(c, stuck), Restarted(w, stuck), OnlySign(Backfilling(w), id), true)
  {
    var u := Backfilling(w);
    var c := WithFailed(InterruptAll(u, done), id);
    BackfillKeys(w);
    DoneInPasses(w, done);
    FailedInPasses(w, InterruptAll(u, done), id);
    TornInterrupt(u, done, id);
    if OnlySign(u, id) {
      DifferentAfterPasses(w, c, u.builds[id].functionName, stuck);
    } else {
      SameAfterPasses(w, c, stuck);
    }
  }

  // With the only sign of its interruption gone, a function keeps the record it had.
  lemma MarkGone(w: World, done: set<BuildId>, id: BuildId, stuck: set<RevisionKey>)
    requires KeysMatch(w) && id in w.builds && w.builds[id].status == Running && id !in done && done <= w.builds.Keys
    requires OnlySign(Backfilling(w), id)
    ensures var c, m := WithFailed(InterruptAll(Backfilling(w), done), id), w.builds[id].functionName;
            Restarted(c, stuck).functions.Keys == w.functions.Keys
            && m in w.functions && Restarted(c, stuck).functions[m] == Backfilled(w.functions[m])
  {
    var u := Backfilling(w);
    var c := WithFailed(InterruptAll(u, done), id);
    BackfillKeys(w);
    DoneInPasses(w, done);
    FailedInPasses(w, InterruptAll(u, done), id);
    TornInterrupt(u, done, id);
    BackfilledAlready(w, c);
    assert Restarted(c, stuck).functions == InterruptAll(c, w.builds.Keys).functions;
  }

  lemma InterruptOneCut(before: World, id: BuildId, j: nat)
    requires KeysMatch(before) && j < |InterruptOne(before, id)|
    ensures j <= 1 && id in before.builds && before.builds[id].status == Running
    ensures DoAll(before, InterruptOne(before, id)[..j]) == if j == 0 then before else WithFailed(before, id)
  {
    var one := InterruptOne(before, id);
    assert one[..0] == [];
    if j == 1 {
      assert one[..1] == [one[0]];
      DoAllShort(before, one[0], one[0]);
    }
  }

  // What the second pass cut behind `i` whole items and `j` writes of the next has made of a world.
  lemma InterruptCutWorld(w: World, ids: seq<BuildId>, i: nat, j: nat)
    requires KeysMatch(w) && NoDuplicates(ids) && ToSet(ids) == w.builds.Keys && i < |ids|
    requires var u := Backfilling(w);
             j < |InterruptOne(DoAll(u, InterruptWrites(u, ids[..i])), ids[i])|
    ensures var u, done := Backfilling(w), ToSet(ids[..i]);
            var before := DoAll(u, InterruptWrites(u, ids[..i]));
            && j <= 1 && done <= w.builds.Keys && ids[i] in w.builds && ids[i] !in done
            && w.builds[ids[i]].status == Running
            && DoAll(before, InterruptOne(before, ids[i])[..j])
                 == if j == 0 then InterruptAll(u, done) else WithFailed(InterruptAll(u, done), ids[i])
  {
    var done, id := ToSet(ids[..i]), ids[i];
    PassKeys(w);
    InterruptResult(Backfilling(w), ids[..i]);
    InterruptOneCut(InterruptAll(Backfilling(w), done), id, j);
    assert id in ToSet(ids) && done <= ToSet(ids) && id !in done;
  }

  lemma CutInInterrupt(w: World, ids: seq<BuildId>, stuck: set<RevisionKey>, i: nat, j: nat)
    requires KeysMatch(w) && NoDuplicates(ids) && ToSet(ids) == w.builds.Keys && i < |ids|
    requires var u := Backfilling(w);
             j < |InterruptOne(DoAll(u, InterruptWrites(u, ids[..i])), ids[i])|
    ensures var before := DoAll(Backfilling(w), InterruptWrites(Backfilling(w), ids[..i]));
            Recovers(Restarted(DoAll(before, InterruptOne(before, ids[i])[..j]), stuck), Restarted(w, stuck),
                     j >= 1 && OnlySign(Backfilling(w), ids[i]), true)
  {
    InterruptCutWorld(w, ids, i, j);
    if j == 0 {
      CutBetweenBuilds(w, ToSet(ids[..i]), stuck);
    } else {
      CutAfterBuild(w, ToSet(ids[..i]), ids[i], stuck);
    }
  }

  // A world in which only what the first two passes do has changed.
  ghost predicate InPasses(w: World, c: World) {
    && KeysMatch(c) && c == w.(functions := c.functions, builds := c.builds, pools := map[])
    && c.functions.Keys == w.functions.Keys && c.builds.Keys == w.builds.Keys
    && forall n <- c.functions :: Backfilled(c.functions[n]) == c.functions[n]
  }

  lemma BackfilledAlready(w: World, c: World)
    requires InPasses(w, c)
    ensures Backfilling(c) == c
  {
    assert Backfilling(c).functions == c.functions;
  }

  lemma SameAfterPasses(w: World, c: World, stuck: set<RevisionKey>)
    requires InPasses(w, c) && InterruptAll(c, w.builds.Keys) == Interrupting(w)
    ensures Restarted(c, stuck) == Restarted(w, stuck)
  {
    BackfilledAlready(w, c);
  }

  lemma DifferentAfterPasses(w: World, c: World, n: Name, stuck: set<RevisionKey>)
    requires InPasses(w, c) && n in w.functions
    requires InterruptAll(c, w.builds.Keys).functions[n] != Interrupting(w).functions[n]
    ensures n in Restarted(c, stuck).functions && n in Restarted(w, stuck).functions
    ensures Restarted(c, stuck).functions[n] != Restarted(w, stuck).functions[n]
  {
    BackfilledAlready(w, c);
    assert Restarted(c, stuck).functions == InterruptAll(c, w.builds.Keys).functions;
    assert Restarted(w, stuck).functions == Interrupting(w).functions;
  }

  // ---------- Cut in the third pass ----------

  // Function records apart, `c` differs from `u` in pools, and in part of the pruning still to be done.
  ghost predicate PrunedInPart(u: World, c: World, targets: set<RevisionKey>) {
    && c == u.(functions := c.functions, revisions := c.revisions, dirs := c.dirs, pools := c.pools)
    && c.revisions.Keys == u.revisions.Keys && c.dirs <= u.dirs
    && (forall key <- u.dirs :: key !in c.dirs ==> key in targets)
    && (forall key <- u.revisions ::
          || c.revisions[key] == u.revisions[key]
          || (key in targets && c.revisions[key] == PrunedRecord(u.revisions[key]) && key !in c.dirs))
  }

  // The same functions are served, from the same revisions.
  ghost predicate ServesAlike(u: World, c: World) {
    && c.functions.Keys == u.functions.Keys
    && forall n <- u.functions ::
         && c.functions[n].name == u.functions[n].name
         && c.functions[n].state == u.functions[n].state
         && c.functions[n].currentRevision == u.functions[n].currentRevision
         && Backfilled(c.functions[n]) == c.functions[n]
  }

  lemma ServedAlike(u: World, c: World, names: set<Name>, stuck: set<RevisionKey>, n: Name)
    requires KeysMatch(u) && PrunedInPart(u, c, RepoolTargets(u, names, stuck)) && ServesAlike(u, c)
    ensures Serving(c, n) == Serving(u, n)
  {
    if Serving(u, n).Some? {
      var key := (n, u.functions[n].currentRevision.value);
      assert key !in RepoolTargets(u, names, stuck);
    }
  }

  // What can be removed later, `later` being stuck then, finishes what was begun with `stuck`.
  lemma FinishesPruning(u: World, c: World, names: set<Name>, stuck: set<RevisionKey>, later: set<RevisionKey>)
    requires KeysMatch(u) && PrunedInPart(u, c, RepoolTargets(u, names, stuck)) && ServesAlike(u, c) && later <= stuck
    ensures RepoolTargets(c, names, later)
         == set key | key in RepoolTargets(u, names, later) && c.revisions[key] == u.revisions[key]
  {
    forall key | key in u.revisions
      ensures key in RepoolTargets(c, names, later)
         <==> key in RepoolTargets(u, names, later) && c.revisions[key] == u.revisions[key]
    {
      ServedAlike(u, c, names, stuck, key.0);
    }
  }

  lemma PrunesAlike(u: World, c: World, names: set<Name>, stuck: set<RevisionKey>, later: set<RevisionKey>)
    requires KeysMatch(u) && PrunedInPart(u, c, RepoolTargets(u, names, stuck)) && ServesAlike(u, c) && later <= stuck
    ensures PrunedTheSame(PrunedAll(c, RepoolTargets(c, names, later)), PrunedAll(u, RepoolTargets(u, names, later)))
  {
    FinishesPruning(u, c, names, stuck, later);
    assert RepoolTargets(u, names, stuck) <= RepoolTargets(u, names, later);
  }

  lemma PoolsAlike(u: World, c: World, names: set<Name>, stuck: set<RevisionKey>)
    requires KeysMatch(u) && PrunedInPart(u, c, RepoolTargets(u, names, stuck)) && ServesAlike(u, c) && u.pools == map[]
    ensures Repooled(Crash(c), names) == Repooled(u, names)
  {
    var a, b := Repooled(Crash(c), names), Repooled(u, names);
    forall n ensures (n in a <==> n in b) && (n in a ==> a[n] == b[n]) {
      ServedAlike(u, c, names, stuck, n);
      RepooledAt(Crash(c), names, n);
      RepooledAt(u, names, n);
    }
    SamePools(a, b);
  }

  // Such a world is repooled to the same, but for the function records.
  lemma RepooledAlike(u: World, c: World, names: set<Name>, stuck: set<RevisionKey>, later: set<RevisionKey>)
    requires KeysMatch(u) && PrunedInPart(u, c, RepoolTargets(u, names, stuck)) && ServesAlike(u, c) && u.pools == map[]
    ensures ServesTheSame(RepoolAll(Crash(c), names, later), RepoolAll(u, names, later).(functions := c.functions))
  {
    PoolsAlike(u, c, names, stuck);
  }

  lemma RepooledPrunesAlike(u: World, c: World, names: set<Name>, stuck: set<RevisionKey>, later: set<RevisionKey>)
    requires KeysMatch(u) && PrunedInPart(u, c, RepoolTargets(u, names, stuck)) && ServesAlike(u, c) && later <= stuck
    ensures PrunedTheSame(RepoolAll(Crash(c), names, later), RepoolAll(u, names, later))
  {
    PrunesAlike(u, c, names, stuck, later);
    assert RepoolTargets(Crash(c), names, later) == RepoolTargets(c, names, later);
  }

  // A world with nothing to backfill or interrupt goes straight to the third pass.
  lemma PassesIdle(c: World, stuck: set<RevisionKey>)
    requires forall n <- c.functions :: Backfilled(c.functions[n]) == c.functions[n]
    requires forall id <- c.builds :: c.builds[id].status != Running
    ensures Restarted(c, stuck) == RepoolAll(Crash(c), c.functions.Keys, stuck)
  {
    assert Backfilling(c).functions == c.functions;
    assert InterruptAll(Crash(c), c.builds.Keys).functions == c.functions;
    assert InterruptAll(Crash(c), c.builds.Keys).builds == c.builds;
  }

  lemma ThirdPassLast(w: World, stuck: set<RevisionKey>)
    ensures Restarted(w, stuck) == RepoolAll(Interrupting(w), w.functions.Keys, stuck)
    ensures Restarted(w, stuck).functions == Interrupting(w).functions && Interrupting(w).pools == map[]
  {
  }

  // `c` is what some of the third pass made of the world after the second.
  lemma SameAfterRepool(w: World, c: World, stuck: set<RevisionKey>, later: set<RevisionKey>)
    requires KeysMatch(w) && c.functions.Keys == w.functions.Keys
    requires PrunedInPart(Interrupting(w), c, RepoolTargets(Interrupting(w), w.functions.Keys, stuck))
    requires ServesAlike(Interrupting(w), c)
    ensures ServesTheSame(Restarted(c, later), Restarted(w, later).(functions := c.functions))
    ensures later <= stuck ==> PrunedTheSame(Restarted(c, later), Restarted(w, later))
  {
    PassKeys(w);
    PassesIdle(c, later);
    ThirdPassLast(w, later);
    RepooledAlike(Interrupting(w), c, w.functions.Keys, stuck, later);
    if later <= stuck {
      RepooledPrunesAlike(Interrupting(w), c, w.functions.Keys, stuck, later);
    }
  }

  // What one item of the third pass has made of a world before it is done.
  ghost predicate InRepool(before: World, name: Name, c: World, stuck: set<RevisionKey>, j: nat) {
    && Serving(before, name).Some?
    && var f := before.functions[name];
       && PrunedInPart(before, c, RepoolTargets(before, {name}, stuck))
       && c.functions == if j < 2 then before.functions else before.functions[name := f.(lastError := None)]
  }

  // A cut inside an item is a cut of its activation: the last error is written back by its last write.
  lemma RepoolOnePrefix(before: World, name: Name, stuck: set<RevisionKey>, j: nat)
    requires j < |RepoolOne(before, name, stuck)|
    ensures Serving(before, name).Some?
    ensures var activate := ActivateWrites(before, name, Serving(before, name).value, stuck);
            j <= |activate| && RepoolOne(before, name, stuck)[..j] == activate[..j]
  {
  }

  lemma ActivateCut(before: World, name: Name, r: Revision, stuck: set<RevisionKey>, j: nat)
    requires KeysMatch(before) && Serving(before, name) == Some(r) && j <= |ActivateWrites(before, name, r, stuck)|
    ensures InRepool(before, name, DoAll(before, ActivateWrites(before, name, r, stuck)[..j]), stuck, j)
  {
    assert RepoolTargets(before, {name}, stuck) == Targets(before, name, 1, PruneEnd(r.number), stuck);
    if j < 2 {
      SwitchPrefix(before, name, r, stuck, j);
    } else {
      ActivatePrefix(before, name, r, stuck, j);
      assert Activate(before.functions[name], r.number) == before.functions[name].(lastError := None);
    }
  }

  lemma RepoolOneCut(before: World, name: Name, stuck: set<RevisionKey>, j: nat)
    requires KeysMatch(before) && j < |RepoolOne(before, name, stuck)|
    ensures InRepool(before, name, DoAll(before, RepoolOne(before, name, stuck)[..j]), stuck, j)
  {
    RepoolOnePrefix(before, name, stuck, j);
    ActivateCut(before, name, Serving(before, name).value, stuck, j);
  }

  // After some whole items and part of another, all is as at the start of the pass but for part of the
  // pruning, the pools, and the last error of that other function.
  lemma InPartAfterItems(
    u: World, done: set<Name>, all: set<Name>, name: Name, c: World, stuck: set<RevisionKey>, j: nat)
    requires KeysMatch(u) && done <= all && name in all && name !in done
    requires InRepool(RepoolAll(u, done, stuck), name, c, stuck, j)
    ensures PrunedInPart(u, c, RepoolTargets(u, all, stuck))
    ensures name in u.functions ==> c.functions == WithoutErrorFrom(u, name, j)
  {
    var before := RepoolAll(u, done, stuck);
    RepoolTargetsTwice(u, done, name, stuck);
    assert RepoolTargets(u, done, stuck) <= RepoolTargets(u, all, stuck);
    assert RepoolTargets(u, {name}, stuck) <= RepoolTargets(u, all, stuck);
  }

  lemma ErrorVerdict(v: World, v': World, name: Name, dropped: bool, samePruning: bool)
    requires name in v'.functions
    requires ServesTheSame(v, if dropped then WithoutError(v', name) else v')
    requires samePruning ==> PrunedTheSame(v, v')
    ensures Recovers(v, v', dropped && v'.functions[name].lastError.Some?, samePruning)
    ensures dropped ==> LosesErrorOnly(v, v', name, samePruning)
  {
    if dropped {
      assert v.functions[name].lastError.None?;
      assert v'.functions[name].lastError.None? ==> v'.functions[name].(lastError := None) == v'.functions[name];
    }
  }

  lemma CutAfterItems(w: World, name: Name, c: World, stuck: set<RevisionKey>, later: set<RevisionKey>, j: nat)
    requires KeysMatch(w) && name in w.functions
    requires PrunedInPart(Interrupting(w), c, RepoolTargets(Interrupting(w), w.functions.Keys, stuck))
    requires ServesAlike(Interrupting(w), c)
    requires c.functions == WithoutErrorFrom(Interrupting(w), name, j)
    ensures Recovers(Restarted(c, later), Restarted(w, later), j >= 2 && Erring(Interrupting(w), name), later <= stuck)
    ensures j >= 2 ==> LosesErrorOnly(Restarted(c, later), Restarted(w, later), name, later <= stuck)
  {
    SameAfterRepool(w, c, stuck, later);
    ThirdPassLast(w, later);
    ErrorVerdict(Restarted(c, later), Restarted(w, later), name, j >= 2, later <= stuck);
  }

  // What the third pass cut behind `i` whole items and `j` writes of the next has made of a world.
  lemma RepoolCutWorld(w: World, names: seq<Name>, stuck: set<RevisionKey>, i: nat, j: nat)
    requires KeysMatch(w) && NoDuplicates(names) && ToSet(names) == w.functions.Keys && i < |names|
    requires var u := Interrupting(w);
             j < |RepoolOne(DoAll(u, RepoolWrites(u, names[..i], stuck)), names[i], stuck)|
    ensures var u, done := Interrupting(w), ToSet(names[..i]);
            var before := DoAll(u, RepoolWrites(u, names[..i], stuck));
            var c := DoAll(before, RepoolOne(before, names[i], stuck)[..j]);
            && done <= w.functions.Keys && names[i] in w.functions && names[i] !in done
            && InRepool(RepoolAll(u, done, stuck), names[i], c, stuck, j)
            && PrunedInPart(u, c, RepoolTargets(u, w.functions.Keys, stuck)) && ServesAlike(u, c)
            && c.functions == WithoutErrorFrom(u, names[i], j)
  {
    var u, done, name := Interrupting(w), ToSet(names[..i]), names[i];
    PassKeys(w);
    RepoolResult(u, names[..i], stuck);
    var before := RepoolAll(u, done, stuck);
    RepoolOneCut(before, name, stuck, j);
    assert name in ToSet(names) && name !in done && done <= ToSet(names);
    var c := DoAll(before, RepoolOne(before, name, stuck)[..j]);
    InPartAfterItems(u, done, w.functions.Keys, name, c, stuck, j);
    CutServesAlike(u, c, name);
  }

  lemma CutInRepool(w: World, names: seq<Name>, stuck: set<RevisionKey>, later: set<RevisionKey>, i: nat, j: nat)
    requires KeysMatch(w) && NoDuplicates(names) && ToSet(names) == w.functions.Keys && i < |names|
    requires var u := Interrupting(w);
             j < |RepoolOne(DoAll(u, RepoolWrites(u, names[..i], stuck)), names[i], stuck)|
    ensures var before := DoAll(Interrupting(w), RepoolWrites(Interrupting(w), names[..i], stuck));
            var v := Restarted(DoAll(before, RepoolOne(before, names[i], stuck)[..j]), later);
            && Recovers(v, Restarted(w, later), j >= 2 && Erring(Interrupting(w), names[i]), later <= stuck)
            && (j >= 2 ==> LosesErrorOnly(v, Restarted(w, later), names[i], later <= stuck))
  {
    RepoolCutWorld(w, names, stuck, i, j);
    var before := DoAll(Interrupting(w), RepoolWrites(Interrupting(w), names[..i], stuck));
    CutAfterItems(w, names[i], DoAll(before, RepoolOne(before, names[i], stuck)[..j]), stuck, later, j);
  }

  lemma CutServesAlike(u: World, c: World, name: Name)
    requires name in u.functions
    requires c.functions == u.functions || c.functions == u.functions[name := u.functions[name].(lastError := None)]
    requires forall n <- u.functions :: Backfilled(u.functions[n]) == u.functions[n]
    ensures ServesAlike(u, c)
  {
  }

  // ---------- The whole restore ----------

  // A restore begun after a crash and cut behind `k` writes.  `names` and `ids` are what the store lists,
  // `stuck` the directories that cannot be removed.
  datatype Try = Try(names: seq<Name>, ids: seq<BuildId>, stuck: set<RevisionKey>, k: nat)

  ghost predicate CanTry(w: World, t: Try) {
    && NoDuplicates(t.names) && ToSet(t.names) == w.functions.Keys
    && NoDuplicates(t.ids) && ToSet(t.ids) == w.builds.Keys
    && t.k <= |RestoreWrites(Crash(w), t.names, t.ids, t.stuck)|
  }

  function Tried(w: World, t: Try): World
    requires t.k <= |RestoreWrites(Crash(w), t.names, t.ids, t.stuck)|
  {
    DoAll(Crash(w), RestoreWrites(Crash(w), t.names, t.ids, t.stuck)[..t.k])
  }

  // Where the cut lies in the second pass, and in the third.
  function InSecond(w: World, t: Try): int {
    t.k - |BackfillWrites(Crash(w), t.names)|
  }

  function InThird(w: World, t: Try): int {
    InSecond(w, t) - |InterruptWrites(Backfilling(w), t.ids)|
  }

  predicate Erring(v: World, n: Name) {
    n in v.functions && v.functions[n].lastError.Some?
  }

  // Where a cut loses the sign of a failure.  In the second pass: right after the only running build of a
  // function is failed.  In the third: from a function's re-activation until its last error is written back.
  ghost predicate LosesInInterrupt(w: World, ids: seq<BuildId>, k: int) {
    exists i :: Inside(Backfilling(w), ids, InterruptStep(), 1, k, i) && OnlySign(Backfilling(w), ids[i])
  }

  ghost predicate LosesInRepool(w: World, names: seq<Name>, stuck: set<RevisionKey>, k: int) {
    exists i :: Inside(Interrupting(w), names, RepoolStep(stuck), 2, k, i) && Erring(Interrupting(w), names[i])
  }

  ghost predicate LosesSign(w: World, t: Try) {
    LosesInInterrupt(w, t.ids, InSecond(w, t)) || LosesInRepool(w, t.names, t.stuck, InThird(w, t))
  }

  lemma InterruptLoss(w: World, ids: seq<BuildId>, k: nat, i: nat, j: nat)
    requires CutAt(Backfilling(w), ids, InterruptStep(), k, i, j)
    ensures LosesInInterrupt(w, ids, k) <==> j >= 1 && OnlySign(Backfilling(w), ids[i])
  {
    forall m ensures Inside(Backfilling(w), ids, InterruptStep(), 1, k, m) <==> m == i && 1 <= j {
      InsideNext(Backfilling(w), ids, InterruptStep(), 1, k, i, j, m);
    }
  }

  lemma RepoolLoss(w: World, names: seq<Name>, stuck: set<RevisionKey>, k: nat, i: nat, j: nat)
    requires CutAt(Interrupting(w), names, RepoolStep(stuck), k, i, j)
    ensures LosesInRepool(w, names, stuck, k) <==> j >= 2 && Erring(Interrupting(w), names[i])
  {
    forall m ensures Inside(Interrupting(w), names, RepoolStep(stuck), 2, k, m) <==> m == i && 2 <= j {
      InsideNext(Interrupting(w), names, RepoolStep(stuck), 2, k, i, j, m);
    }
  }

  lemma NoInterruptLoss(w: World, ids: seq<BuildId>, k: int)
    requires k <= 0 || k >= |InterruptWrites(Backfilling(w), ids)|
    ensures !LosesInInterrupt(w, ids, k)
  {
    if i :| Inside(Backfilling(w), ids, InterruptStep(), 1, k, i) && OnlySign(Backfilling(w), ids[i]) {
      InsideBounds(Backfilling(w), ids, InterruptStep(), 1, k, i);
      InterruptIsPass(Backfilling(w), ids);
    }
  }

  lemma NoRepoolLoss(w: World, names: seq<Name>, stuck: set<RevisionKey>, k: int)
    requires k <= 0 || k >= |RepoolWrites(Interrupting(w), names, stuck)|
    ensures !LosesInRepool(w, names, stuck, k)
  {
    if i :| Inside(Interrupting(w), names, RepoolStep(stuck), 2, k, i) && Erring(Interrupting(w), names[i]) {
      InsideBounds(Interrupting(w), names, RepoolStep(stuck), 2, k, i);
      RepoolIsPass(Interrupting(w), names, stuck);
    }
  }

  lemma SecondPassCut(w: World, ids: seq<BuildId>, stuck: set<RevisionKey>, k: nat)
    requires KeysMatch(w) && NoDuplicates(ids) && ToSet(ids) == w.builds.Keys
    requires k < |InterruptWrites(Backfilling(w), ids)|
    ensures Recovers(Restarted(DoAll(Backfilling(w), InterruptWrites(Backfilling(w), ids)[..k]), stuck),
                     Restarted(w, stuck), LosesInInterrupt(w, ids, k), true)
  {
    var u := Backfilling(w);
    InterruptIsPass(u, ids);
    var i, j := PassCut(u, ids, InterruptStep(), k);
    InterruptIsPass(u, ids[..i]);
    CutInInterrupt(w, ids, stuck, i, j);
    InterruptLoss(w, ids, k, i, j);
  }

  lemma ThirdPassCut(w: World, names: seq<Name>, stuck: set<RevisionKey>, later: set<RevisionKey>, k: nat)
    requires KeysMatch(w) && NoDuplicates(names) && ToSet(names) == w.functions.Keys
    requires k < |RepoolWrites(Interrupting(w), names, stuck)|
    ensures Recovers(Restarted(DoAll(Interrupting(w), RepoolWrites(Interrupting(w), names, stuck)[..k]), later),
                     Restarted(w, later), LosesInRepool(w, names, stuck, k), later <= stuck)
  {
    var u := Interrupting(w);
    RepoolIsPass(u, names, stuck);
    var i, j := PassCut(u, names, RepoolStep(stuck), k);
    RepoolIsPass(u, names[..i], stuck);
    CutInRepool(w, names, stuck, later, i, j);
    RepoolLoss(w, names, stuck, k, i, j);
  }

  lemma RepooledInPart(u: World, names: set<Name>, stuck: set<RevisionKey>)
    requires KeysMatch(u) && forall n <- u.functions :: Backfilled(u.functions[n]) == u.functions[n]
    ensures PrunedInPart(u, RepoolAll(u, names, stuck), RepoolTargets(u, names, stuck))
    ensures ServesAlike(u, RepoolAll(u, names, stuck))
  {
  }

  // A restart after a restart that came to its end.
  lemma RestartTwice(w: World, names: seq<Name>, stuck: set<RevisionKey>, later: set<RevisionKey>)
    requires KeysMatch(w) && NoDuplicates(names) && ToSet(names) == w.functions.Keys
    ensures Recovers(Restarted(DoAll(Interrupting(w), RepoolWrites(Interrupting(w), names, stuck)), later),
                     Restarted(w, later), false, later <= stuck)
  {
    var u := Interrupting(w);
    PassKeys(w);
    RepoolResult(u, names, stuck);
    RepooledInPart(u, w.functions.Keys, stuck);
    SameAfterRepool(w, RepoolAll(u, w.functions.Keys, stuck), stuck, later);
    ThirdPassLast(w, later);
  }

  lemma RestoreInThree(u: World, names: seq<Name>, ids: seq<BuildId>, stuck: set<RevisionKey>)
    ensures var first := BackfillWrites(u, names);
            var v := DoAll(u, first);
            var second := InterruptWrites(v, ids);
            RestoreWrites(u, names, ids, stuck) == first + (second + RepoolWrites(DoAll(v, second), names, stuck))
  {
    var first := BackfillWrites(u, names);
    var second := InterruptWrites(DoAll(u, first), ids);
    Associative(first, second, RepoolWrites(DoAll(DoAll(u, first), second), names, stuck));
  }

  lemma Associative<T>(xs: seq<T>, ys: seq<T>, zs: seq<T>)
    ensures xs + ys + zs == xs + (ys + zs)
  {
  }

  lemma RestorePasses(w: World, names: seq<Name>, ids: seq<BuildId>)
    requires KeysMatch(w) && ToSet(names) == w.functions.Keys && ToSet(ids) == w.builds.Keys
    ensures DoAll(Crash(w), BackfillWrites(Crash(w), names)) == Backfilling(w)
    ensures DoAll(Backfilling(w), InterruptWrites(Backfilling(w), ids)) == Interrupting(w)
  {
    BackfillResult(Crash(w), names);
    BackfillKeys(w);
    InterruptResult(Backfilling(w), ids);
  }

  // A restart after each of the three kinds of cut.
  lemma RestartAfterFirst(w: World, t: Try, later: set<RevisionKey>, cut: World)
    requires KeysMatch(w) && t.k <= |BackfillWrites(Crash(w), t.names)|
    requires cut == DoAll(Crash(w), BackfillWrites(Crash(w), t.names)[..t.k])
    ensures Recovers(Restarted(cut, later), Restarted(w, later), LosesSign(w, t), later <= t.stuck)
  {
    NoInterruptLoss(w, t.ids, InSecond(w, t));
    NoRepoolLoss(w, t.names, t.stuck, InThird(w, t));
    CutInBackfill(w, t.names, later, t.k);
  }

  lemma RestartAfterSecond(w: World, t: Try, later: set<RevisionKey>, cut: World)
    requires KeysMatch(w) && NoDuplicates(t.ids) && ToSet(t.ids) == w.builds.Keys
    requires 0 <= InSecond(w, t) < |InterruptWrites(Backfilling(w), t.ids)|
    requires cut == DoAll(Backfilling(w), InterruptWrites(Backfilling(w), t.ids)[..InSecond(w, t)])
    ensures Recovers(Restarted(cut, later), Restarted(w, later), LosesSign(w, t), later <= t.stuck)
  {
    NoRepoolLoss(w, t.names, t.stuck, InThird(w, t));
    SecondPassCut(w, t.ids, later, InSecond(w, t));
  }

  lemma RestartAfterThird(w: World, t: Try, later: set<RevisionKey>, cut: World)
    requires KeysMatch(w) && NoDuplicates(t.names) && ToSet(t.names) == w.functions.Keys
    requires 0 <= InThird(w, t) <= |RepoolWrites(Interrupting(w), t.names, t.stuck)|
    requires cut == DoAll(Interrupting(w), RepoolWrites(Interrupting(w), t.names, t.stuck)[..InThird(w, t)])
    ensures Recovers(Restarted(cut, later), Restarted(w, later), LosesSign(w, t), later <= t.stuck)
  {
    var k, third := InThird(w, t), RepoolWrites(Interrupting(w), t.names, t.stuck);
    NoInterruptLoss(w, t.ids, InSecond(w, t));
    if k < |third| {
      ThirdPassCut(w, t.names, t.stuck, later, k);
    } else {
      assert third[..k] == third;
      NoRepoolLoss(w, t.names, t.stuck, k);
      RestartTwice(w, t.names, t.stuck, later);
    }
  }

  // Where the cut of three lists falls.
  lemma CutOfThree(
    u: World, v: World, v': World, first: seq<Write>, second: seq<Write>, third: seq<Write>, k: nat, k1: int, k2: int)
    requires DoAll(u, first) == v && DoAll(v, second) == v'
    requires k <= |first + (second + third)| && k1 == k - |first| && k2 == k1 - |second|
    ensures k2 <= |third|
    ensures k1 < 0 ==> DoAll(u, (first + (second + third))[..k]) == DoAll(u, first[..k])
    ensures 0 <= k1 && k2 < 0 ==> DoAll(u, (first + (second + third))[..k]) == DoAll(v, second[..k1])
    ensures 0 <= k2 ==> DoAll(u, (first + (second + third))[..k]) == DoAll(v', third[..k2])
  {
    PrefixOfConcat(u, first, second + third, k);
    if 0 <= k1 {
      PrefixOfConcat(v, second, third, k1);
    }
  }

  lemma RestoreCut(w: World, t: Try)
    requires KeysMatch(w) && CanTry(w, t)
    ensures InThird(w, t) <= |RepoolWrites(Interrupting(w), t.names, t.stuck)|
    ensures InSecond(w, t) < 0 ==> Tried(w, t) == DoAll(Crash(w), BackfillWrites(Crash(w), t.names)[..t.k])
    ensures 0 <= InSecond(w, t) && InThird(w, t) < 0 ==>
              Tried(w, t) == DoAll(Backfilling(w), InterruptWrites(Backfilling(w), t.ids)[..InSecond(w, t)])
    ensures 0 <= InThird(w, t) ==>
              Tried(w, t)
                == DoAll(Interrupting(w), RepoolWrites(Interrupting(w), t.names, t.stuck)[..InThird(w, t)])
  {
    RestorePasses(w, t.names, t.ids);
    RestoreInThree(Crash(w), t.names, t.ids, t.stuck);
    CutOfThree(Crash(w), Backfilling(w), Interrupting(w), BackfillWrites(Crash(w), t.names),
               InterruptWrites(Backfilling(w), t.ids), RepoolWrites(Interrupting(w), t.names, t.stuck),
               t.k, InSecond(w, t), InThird(w, t));
  }

  /**
   A restore cut anywhere and begun again.  It ends with the functions, builds and pools it would have ended
   with had it never been cut, exactly unless the cut lost the sign of a failure: right after the only running
   build of a function was failed and before the function was marked, or after a function was re-activated
   and before its last error was written back.  Revisions and directories are then the same too, unless a
   directory that was removed before the cut could not be removed any more.
   */
  lemma RestoreCrashRecovery(w: World, t: Try, later: set<RevisionKey>)
    requires KeysMatch(w) && CanTry(w, t)
    ensures Recovers(Restarted(Tried(w, t), later), Restarted(w, later), LosesSign(w, t), later <= t.stuck)
  {
    RestoreCut(w, t);
    if InSecond(w, t) < 0 {
      RestartAfterFirst(w, t, later, Tried(w, t));
    } else if InThird(w, t) < 0 {
      RestartAfterSecond(w, t, later, Tried(w, t));
    } else {
      RestartAfterThird(w, t, later, Tried(w, t));
    }
  }

  // ---------- The world a cut leaves ----------

  // The cut failed the only running build of `n` and did not mark it.
  ghost predicate LosesMark(w: World, t: Try, n: Name) {
    exists i ::
      && Inside(Backfilling(w), t.ids, InterruptStep(), 1, InSecond(w, t), i)
      && OnlySign(Backfilling(w), t.ids[i]) && w.builds[t.ids[i]].functionName == n
  }

  lemma NoMarkLost(w: World, t: Try, n: Name)
    requires InSecond(w, t) <= 0 || InThird(w, t) >= 0
    ensures !LosesMark(w, t, n)
  {
    NoInterruptLoss(w, t.ids, InSecond(w, t));
  }

  lemma FirstShape(w: World, t: Try)
    requires KeysMatch(w) && CanTry(w, t) && InSecond(w, t) < 0
    ensures BackfilledPartly(Crash(w), Tried(w, t))
  {
    RestoreCut(w, t);
    BackfillCutWorld(Crash(w), t.names, t.k);
  }

  ghost predicate SecondShaped(w: World, t: Try, i: nat, j: nat) {
    && i < |t.ids| && j <= 1
    && var u, done, id := Backfilling(w), ToSet(t.ids[..i]), t.ids[i];
       && done <= w.builds.Keys && id in w.builds && id !in done && w.builds[id].status == Running
       && t.k <= |RestoreWrites(Crash(w), t.names, t.ids, t.stuck)|
       && Tried(w, t) == if j == 0 then InterruptAll(u, done) else WithFailed(InterruptAll(u, done), id)
  }

  lemma SecondShape(w: World, t: Try) returns (i: nat, j: nat)
    requires KeysMatch(w) && CanTry(w, t) && InSecond(w, t) >= 0 && InThird(w, t) < 0
    ensures SecondShaped(w, t, i, j)
    ensures forall n ::
              LosesMark(w, t, n) <==>
                j == 1 && OnlySign(Backfilling(w), t.ids[i]) && w.builds[t.ids[i]].functionName == n
  {
    var u, k1 := Backfilling(w), InSecond(w, t);
    RestoreCut(w, t);
    InterruptIsPass(u, t.ids);
    i, j := PassCut(u, t.ids, InterruptStep(), k1);
    InterruptIsPass(u, t.ids[..i]);
    InterruptCutWorld(w, t.ids, i, j);
    forall m ensures Inside(u, t.ids, InterruptStep(), 1, k1, m) <==> m == i && 1 <= j {
      InsideNext(u, t.ids, InterruptStep(), 1, k1, i, j, m);
    }
  }

  lemma ThirdShape(w: World, t: Try)
    requires KeysMatch(w) && CanTry(w, t) && InThird(w, t) >= 0
    ensures PrunedInPart(Interrupting(w), Tried(w, t), RepoolTargets(Interrupting(w), w.functions.Keys, t.stuck))
    ensures ServesAlike(Interrupting(w), Tried(w, t))
  {
    var u, k := Interrupting(w), InThird(w, t);
    var third := RepoolWrites(u, t.names, t.stuck);
    RestoreCut(w, t);
    PassKeys(w);
    if k < |third| {
      RepoolIsPass(u, t.names, t.stuck);
      var i, j := PassCut(u, t.names, RepoolStep(t.stuck), k);
      RepoolIsPass(u, t.names[..i], t.stuck);
      RepoolCutWorld(w, t.names, t.stuck, i, j);
    } else {
      assert third[..k] == third;
      RepoolResult(u, t.names, t.stuck);
      RepooledInPart(u, w.functions.Keys, t.stuck);
    }
  }

  /**
   What the first loss comes to: the function keeps the record it had, so that one left `Building` stays so
   for good, no running build being left to tell.
   */
  lemma LostMark(w: World, t: Try, n: Name, later: set<RevisionKey>)
    requires KeysMatch(w) && CanTry(w, t) && LosesMark(w, t, n)
    ensures n in w.functions && n in Restarted(Tried(w, t), later).functions
    ensures Restarted(Tried(w, t), later).functions[n] == Backfilled(w.functions[n])
  {
    if InSecond(w, t) <= 0 || InThird(w, t) >= 0 {
      NoMarkLost(w, t, n);
    } else {
      var i, j := SecondShape(w, t);
      MarkGone(w, ToSet(t.ids[..i]), t.ids[i], later);
    }
  }

  // A first build was running when the process died; the restart dies right after it failed that build.
  const FIRST_BUILD := World(
    map["f" := Function("f", Dir("src"), Some(Rust), 0, Building, None, None)], map[],
    map["b" := Build("b", "f", 1, Running)], {}, map[])

  const ONE_WRITE := Try(["f"], ["b"], {}, 1)

  lemma FirstBuildPasses()
    ensures BackfillWrites(Crash(FIRST_BUILD), ["f"]) == [] && Backfilling(FIRST_BUILD) == FIRST_BUILD
    ensures Pass(FIRST_BUILD, ["b"][..0], InterruptStep()) == []
    ensures |Pass(FIRST_BUILD, ["b"][..1], InterruptStep())| == 2
  {
    assert Backfilling(FIRST_BUILD).functions == FIRST_BUILD.functions;
    assert ["b"][..1] == ["b"] && ["b"][..0] == [];
    PassStep(FIRST_BUILD, ["b"], InterruptStep(), 0);
  }

  lemma FirstBuildLost()
    ensures KeysMatch(FIRST_BUILD) && CanTry(FIRST_BUILD, ONE_WRITE) && LosesMark(FIRST_BUILD, ONE_WRITE, "f")
  {
    var w, t := FIRST_BUILD, ONE_WRITE;
    FirstBuildPasses();
    InterruptIsPass(w, ["b"]);
    assert ["b"][..1] == ["b"];
    RestoreInThree(Crash(w), ["f"], ["b"], {});
    assert ToSet(["f"]) == {"f"} && ToSet(["b"]) == {"b"};
    assert Inside(w, ["b"], InterruptStep(), 1, 1, 0) && OnlySign(w, "b");
  }

  lemma FirstBuildStuck(later: set<RevisionKey>)
    ensures KeysMatch(FIRST_BUILD) && CanTry(FIRST_BUILD, ONE_WRITE)
    ensures var v := Restarted(Tried(FIRST_BUILD, ONE_WRITE), later);
            "f" in v.functions && v.functions["f"].state == Building
  {
    FirstBuildLost();
    LostMark(FIRST_BUILD, ONE_WRITE, "f", later);
  }

  /** What the second comes to: the function's last error is gone, and nothing else. */
  lemma LostError(w: World, t: Try, i: nat, later: set<RevisionKey>)
    requires KeysMatch(w) && CanTry(w, t)
    requires Inside(Interrupting(w), t.names, RepoolStep(t.stuck), 2, InThird(w, t), i)
    ensures LosesErrorOnly(Restarted(Tried(w, t), later), Restarted(w, later), t.names[i], later <= t.stuck)
  {
    var u := Interrupting(w);
    InsideBounds(u, t.names, RepoolStep(t.stuck), 2, InThird(w, t), i);
    RepoolIsPass(u, t.names, t.stuck);
    RestoreCut(w, t);
    var i', j := PassCut(u, t.names, RepoolStep(t.stuck), InThird(w, t));
    InsideNext(u, t.names, RepoolStep(t.stuck), 2, InThird(w, t), i', j, i);
    RepoolIsPass(u, t.names[..i], t.stuck);
    CutInRepool(w, t.names, t.stuck, later, i, j);
  }
}
