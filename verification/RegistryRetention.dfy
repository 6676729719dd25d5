/**
 Which artifacts survive, what a redeploy does not change about a pool, and operations on different
 names running at the same time.
 */
module RegistryRetention {
  import opened Wrappers
  import opened RegistryModel
  import opened RegistryRestore
  import opened RegistryCrash
  import opened RegistrySlices
  import opened RegistryOperations
  import opened RegistryHistory

  // ---------- Artifact retention ----------

  // A built revision below the one before `number`.
  predicate Old(w: World, n: Name, key: RevisionKey, number: nat) {
    key in w.revisions && key.0 == n && 1 <= key.1 && key.1 + 1 < number && w.revisions[key].buildMode.Some?
  }

  // Only directories and records of old built revisions are gone or changed, and a record says pruned
  // only after its directory went.
  ghost predicate OnlyOldPruned(w: World, v: World, n: Name, number: nat, stuck: set<RevisionKey>) {
    && (forall key <- w.dirs :: key !in v.dirs ==> Old(w, n, key, number) && key !in stuck)
    && (forall key <- w.revisions | key != (n, number) ::
          && key in v.revisions
          && (v.revisions[key] != w.revisions[key] ==>
                && Old(w, n, key, number) && key !in stuck && key !in v.dirs
                && v.revisions[key] == w.revisions[key].(artifactPruned := true, artifactPath := None)))
  }

  lemma PartlyIsOnlyOld(w: World, u: World, v: World, n: Name, number: nat, stuck: set<RevisionKey>)
    requires u.revisions.Keys == w.revisions.Keys + {(n, number)} && w.dirs <= u.dirs
    requires forall key <- w.revisions | key != (n, number) :: u.revisions[key] == w.revisions[key]
    requires PrunedPartly(u, v, n, 1, PruneEnd(number), stuck)
    ensures OnlyOldPruned(w, v, n, number, stuck)
  {
    forall key <- Targets(u, n, 1, PruneEnd(number), stuck)
      ensures key != (n, number) && Old(w, n, key, number) && key !in stuck
    {
    }
  }

  // A registration that has not come to pruning yet.
  lemma UnprunedIsOnlyOld(w: World, v: World, n: Name, number: nat, stuck: set<RevisionKey>)
    requires w.dirs <= v.dirs
    requires forall key <- w.revisions | key != (n, number) ::
               key in v.revisions && v.revisions[key] == w.revisions[key]
    ensures OnlyOldPruned(w, v, n, number, stuck)
  {
  }

  lemma BuildingIsOnlyOld(w: World, req: Request, id: BuildId, stuck: set<RevisionKey>, k: nat)
    requires k <= 4
    ensures |BuildWrites(w, req, id, Built)| == 4
    ensures OnlyOldPruned(w, DoAll(w, BuildWrites(w, req, id, Built)[..k]), req.name, NextNumber(w, req.name), stuck)
  {
    BuildPrefix(w, req, id, Built, k);
    UnprunedIsOnlyOld(w, DoAll(w, BuildWrites(w, req, id, Built)[..k]), req.name, NextNumber(w, req.name), stuck);
  }

  lemma StoredIsOnlyOld(w: World, req: Request, id: BuildId, mode: BuildMode, stuck: set<RevisionKey>, v: World)
    requires var stored, r := Stored(w, req, id, mode), SourceRevision(w, req, mode);
             || v == stored.(pools := v.pools)
             || PrunedPartly(Switched(stored, req.name, r), v, req.name, 1, PruneEnd(r.number), stuck)
    ensures OnlyOldPruned(w, v, req.name, NextNumber(w, req.name), stuck)
  {
    var stored, r := Stored(w, req, id, mode), SourceRevision(w, req, mode);
    if v == stored.(pools := v.pools) {
      UnprunedIsOnlyOld(w, v, req.name, r.number, stuck);
    } else {
      PartlyIsOnlyOld(w, Switched(stored, req.name, r), v, req.name, r.number, stuck);
    }
  }

  lemma ImageStoredIsOnlyOld(w: World, req: Request, stuck: set<RevisionKey>, v: World)
    requires var stored, r := ImageStored(w, req), ImageRevision(w, req);
             PrunedPartly(Switched(stored, req.name, r), v, req.name, 1, PruneEnd(r.number), stuck)
    ensures OnlyOldPruned(w, v, req.name, NextNumber(w, req.name), stuck)
  {
    PartlyIsOnlyOld(w, Switched(ImageStored(w, req), req.name, ImageRevision(w, req)), v,
                    req.name, NextNumber(w, req.name), stuck);
  }

  // This is so at every cut of a source registration whose build works.
  lemma PruningAtEveryCut(w: World, req: Request, id: BuildId, mode: BuildMode, stuck: set<RevisionKey>, k: nat)
    requires KeysMatch(w) && k <= |SourceWrites(w, req, id, mode, Built, stuck)|
    ensures OnlyOldPruned(w, DoAll(w, SourceWrites(w, req, id, mode, Built, stuck)[..k]),
                          req.name, NextNumber(w, req.name), stuck)
  {
    BuiltPrefix(w, req, id, mode, stuck, k);
    if k <= 4 {
      BuildingIsOnlyOld(w, req, id, stuck, k);
    } else {
      StoredIsOnlyOld(w, req, id, mode, stuck, DoAll(w, SourceWrites(w, req, id, mode, Built, stuck)[..k]));
    }
  }

  // And at every cut of an image registration.
  lemma ImagePruningAtEveryCut(w: World, req: Request, stuck: set<RevisionKey>, k: nat)
    requires KeysMatch(w) && k <= |ImageWrites(w, req, stuck)|
    ensures OnlyOldPruned(w, DoAll(w, ImageWrites(w, req, stuck)[..k]), req.name, NextNumber(w, req.name), stuck)
  {
    var v := DoAll(w, ImageWrites(w, req, stuck)[..k]);
    ImagePrefix(w, req, stuck, k);
    if k < 4 {
      UnprunedIsOnlyOld(w, v, req.name, NextNumber(w, req.name), stuck);
    } else {
      ImageStoredIsOnlyOld(w, req, stuck, v);
    }
  }

  // Every old built revision is pruned if its directory can be removed, and left as it was if not.
  ghost predicate RestPruned(w: World, v: World, n: Name, number: nat, stuck: set<RevisionKey>) {
    forall key <- w.revisions | Old(w, n, key, number) ::
      && key in v.revisions
      && (key !in stuck ==> v.revisions[key].artifactPruned)
      && (key !in stuck && !w.revisions[key].artifactPruned ==> key !in v.dirs)
      && (key in stuck ==> v.revisions[key] == w.revisions[key] && (key in w.dirs ==> key in v.dirs))
  }

  lemma DeployedPrunesRest(w: World, u: World, n: Name, r: Revision, stuck: set<RevisionKey>)
    requires u.revisions == w.revisions[(n, r.number) := r] && w.dirs <= u.dirs
    ensures RestPruned(w, Deployed(u, n, r, stuck), n, r.number, stuck)
  {
    forall key <- w.revisions | Old(w, n, key, r.number)
      ensures Prunable(w, key, stuck) <==> key in Targets(u, n, 1, PruneEnd(r.number), stuck)
    {
    }
  }

  // A completed activation prunes the rest: of a source registration, of an image registration, and of a
  // restart for every function it serves.
  lemma ActivationPrunesTheRest(w: World, req: Request, id: BuildId, mode: BuildMode, stuck: set<RevisionKey>)
    requires KeysMatch(w)
    ensures RestPruned(w, DoAll(w, SourceWrites(w, req, id, mode, Built, stuck)),
                       req.name, NextNumber(w, req.name), stuck)
    ensures RestPruned(w, DoAll(w, ImageWrites(w, req, stuck)), req.name, NextNumber(w, req.name), stuck)
  {
    BuiltWorld(w, req, id, mode, stuck);
    DeployedPrunesRest(w, Stored(w, req, id, mode), req.name, SourceRevision(w, req, mode), stuck);
    ImageWorld(w, req, stuck);
    DeployedPrunesRest(w, ImageStored(w, req), req.name, ImageRevision(w, req), stuck);
  }

  // A restart prunes exactly the old built revisions of the functions it serves whose directories it can
  // remove, and touches no other record or directory.
  lemma RestartPrunesExactly(w: World, key: RevisionKey, stuck: set<RevisionKey>)
    requires KeysMatch(w) && key in w.revisions
    ensures var v := Restarted(w, stuck);
            var r := w.revisions[key];
            var pruned := key.0 in v.pools && Old(w, key.0, key, CurrentNumber(w, key.0))
                          && !r.artifactPruned && key !in stuck;
            && key in v.revisions
            && v.revisions[key] == (if pruned then r.(artifactPruned := true, artifactPath := None) else r)
            && (key in v.dirs <==> key in w.dirs && !pruned)
  {
    var u := InterruptAll(BackfillAll(Crash(w), w.functions.Keys), w.builds.Keys);
    RestartedAt(w, key.0, stuck);
    RestartedPool(w, key.0, stuck);
    ServingAfter(u, w.functions.Keys, stuck, key.0);
  }

  // ---------- Pools across redeploys ----------

  // The pool serves the current revision with the settings that revision was registered with, in containers
  // exactly for an image or Python built in a container.
  predicate PoolMatches(w: World, n: Name) {
    && n in w.pools && n in w.functions && w.functions[n].state == Ready && w.functions[n].currentRevision.Some?
    && var key := (n, w.functions[n].currentRevision.value);
       && key in w.revisions
       && var r := w.revisions[key];
          && w.pools[n].template == key.1 && w.pools[n].settings == r.snapshot.settings
          && (w.pools[n].driver == ContainerDriver <==>
                || r.snapshot.source.Image?
                || (r.snapshot.runtime == Some(Python314) && r.buildMode == Some(Container)))
  }

  // A redeploy swaps the template only: the pool matches the new revision exactly if there was no pool,
  // or it already had that revision's settings and driver.
  lemma RedeployKeepsSettingsAndDriver(
    w: World, req: Request, id: BuildId, mode: BuildMode, stuck: set<RevisionKey>)
    requires KeysMatch(w)
    ensures var v := DoAll(w, SourceWrites(w, req, id, mode, Built, stuck));
            PoolMatches(v, req.name) <==>
              req.name in w.pools ==>
                && w.pools[req.name].settings == req.settings
                && (w.pools[req.name].driver == ContainerDriver <==>
                      req.source.Image? || (req.runtime == Some(Python314) && mode == Container))
  {
    BuiltWorld(w, req, id, mode, stuck);
    RedeployedPool(w, DoAll(w, SourceWrites(w, req, id, mode, Built, stuck)), req, id, mode, stuck);
  }

  lemma RedeployedPool(w: World, v: World, req: Request, id: BuildId, mode: BuildMode, stuck: set<RevisionKey>)
    requires v == Deployed(Stored(w, req, id, mode), req.name, SourceRevision(w, req, mode), stuck)
    ensures PoolMatches(v, req.name) <==>
              req.name in w.pools ==>
                && w.pools[req.name].settings == req.settings
                && (w.pools[req.name].driver == ContainerDriver <==>
                      req.source.Image? || (req.runtime == Some(Python314) && mode == Container))
  {
    var n, r, stored := req.name, SourceRevision(w, req, mode), Stored(w, req, id, mode);
    assert (n, r.number) !in Targets(stored, n, 1, PruneEnd(r.number), stuck);
    assert Serving(v, n) == Some(r);
  }

  // A restart makes every pool anew.
  lemma RestartMatchesPools(w: World, n: Name, stuck: set<RevisionKey>)
    requires KeysMatch(w)
    ensures n in Restarted(w, stuck).pools ==> PoolMatches(Restarted(w, stuck), n)
  {
    RestartedPool(w, n, stuck);
    if n in Restarted(w, stuck).pools {
      ServingMatches(Restarted(w, stuck), n);
    }
  }

  lemma ServingMatches(v: World, n: Name)
    requires n in v.pools && Serving(v, n).Some?
    requires v.pools[n] == PoolEntry(v.functions[n].currentRevision.value, Serving(v, n).value.snapshot.settings,
                                     DriverFor(Serving(v, n).value))
    ensures PoolMatches(v, n)
  {
  }

  // After a cut that left a function `Building`, a build that works settles it (`BuiltComplete`); one
  // that fails does exactly if the function was ready with a revision, or had none and was not ready.
  lemma FailedRedeployDecides(
    w: World, req: Request, id: BuildId, mode: BuildMode, outcome: BuildOutcome, stuck: set<RevisionKey>)
    requires KeysMatch(w) && id !in w.builds && outcome.NotBuilt?
    requires Whole(w, req.name) && !HasRunningBuild(w, req.name)
    ensures var v := DoAll(w, SourceWrites(w, req, id, mode, outcome, stuck));
            && req.name in v.functions
            && (Decided(v.functions[req.name]) <==>
                  ((req.name in w.functions && w.functions[req.name].state == Ready)
                     <==> CurrentNumber(w, req.name) > 0))
  {
    var xs := SourceWrites(w, req, id, mode, outcome, stuck);
    BuildPrefix(w, req, id, outcome, BuildLength(outcome));
    assert xs[..|xs|] == xs;
    FailedCutState(w, req, id, mode, outcome, stuck, |xs|);
  }

  // ---------- Operations on different names at the same time ----------

  lemma {:induction false} SliceAfter(w: World, v: World, xs: seq<Write>, n: Name)
    requires SameSlice(w, v, n) && OwnedBy(xs, n) && OwnBuilds(w, xs) && OwnBuilds(v, xs)
    ensures SameSlice(DoAll(w, xs), DoAll(v, xs), n)
    decreases xs
  {
    if xs != [] {
      OwnBuildsStep(w, xs);
      OwnBuildsStep(v, xs);
      WriteHere(w, v, xs[0], n);
      assert OwnedBy(xs[1..], n);
      SliceAfter(Do(w, xs[0]), Do(v, xs[0]), xs[1..], n);
    }
  }

  lemma {:induction false} PruneLocal(w: World, v: World, n: Name, from: nat, end: nat, stuck: set<RevisionKey>)
    requires KeysMatch(w) && KeysMatch(v) && SameSlice(w, v, n)
    ensures PruneWrites(w, n, from, end, stuck) == PruneWrites(v, n, from, end, stuck)
    decreases end
  {
    if from < end {
      PruneLocal(w, v, n, from, end - 1, stuck);
      PruneLocalStep(w, v, n, from, end, stuck);
    }
  }

  lemma PruneLocalStep(w: World, v: World, n: Name, from: nat, end: nat, stuck: set<RevisionKey>)
    requires KeysMatch(w) && SameSlice(w, v, n) && from < end
    requires PruneWrites(w, n, from, end - 1, stuck) == PruneWrites(v, n, from, end - 1, stuck)
    ensures PruneWrites(w, n, from, end, stuck) == PruneWrites(v, n, from, end, stuck)
  {
    var before := PruneWrites(w, n, from, end - 1, stuck);
    assert PruneOne(DoAll(w, before), (n, end - 1), stuck) == PruneOne(DoAll(v, before), (n, end - 1), stuck) by {
      PruneOwned(w, n, from, end - 1, stuck, None);
      PruneOneLocal(w, v, before, (n, end - 1), stuck);
    }
  }

  lemma PruneOneLocal(w: World, v: World, before: seq<Write>, key: RevisionKey, stuck: set<RevisionKey>)
    requires SameSlice(w, v, key.0) && Own(before, key.0, None)
    ensures PruneOne(DoAll(w, before), key, stuck) == PruneOne(DoAll(v, before), key, stuck)
  {
    OwnIsOwned(w, before, key.0, None);
    OwnIsOwned(v, before, key.0, None);
    SliceAfter(w, v, before, key.0);
  }

  lemma SwitchWritesLocal(w: World, v: World, n: Name, r: Revision)
    requires KeysMatch(w) && SameSlice(w, v, n)
    ensures SwitchWrites(w, n, r) == SwitchWrites(v, n, r)
    ensures OwnedBy(SwitchWrites(w, n, r), n) && forall x <- SwitchWrites(w, n, r) :: !x.PutBuild?
  {
  }

  lemma SwitchedLocal(w: World, v: World, n: Name, r: Revision)
    requires KeysMatch(w) && KeysMatch(v) && SameSlice(w, v, n)
    ensures SwitchWrites(w, n, r) == SwitchWrites(v, n, r)
    ensures KeysMatch(Switched(w, n, r)) && KeysMatch(Switched(v, n, r))
    ensures SameSlice(Switched(w, n, r), Switched(v, n, r), n)
  {
    var xs := SwitchWrites(w, n, r);
    SwitchWritesLocal(w, v, n, r);
    SwitchResult(w, n, r);
    SwitchResult(v, n, r);
    KeysAfter(w, xs);
    KeysAfter(v, xs);
    SliceAfter(w, v, xs, n);
  }

  lemma ActivateLocal(w: World, v: World, n: Name, r: Revision, stuck: set<RevisionKey>)
    requires KeysMatch(w) && KeysMatch(v) && SameSlice(w, v, n)
    ensures ActivateWrites(w, n, r, stuck) == ActivateWrites(v, n, r, stuck)
  {
    ActivateSplit(w, n, r, stuck);
    ActivateSplit(v, n, r, stuck);
    SwitchedLocal(w, v, n, r);
    PruneLocal(Switched(w, n, r), Switched(v, n, r), n, 1, PruneEnd(r.number), stuck);
  }

  lemma RevisionLocal(w: World, v: World, req: Request, mode: BuildMode)
    requires SameSlice(w, v, req.name)
    ensures SourceRevision(w, req, mode) == SourceRevision(v, req, mode)
    ensures ImageFunction(w, req) == ImageFunction(v, req) && ImageRevision(w, req) == ImageRevision(v, req)
  {
  }

  function StoreWrites(w: World, req: Request, id: BuildId, mode: BuildMode): seq<Write> {
    BuildWrites(w, req, id, Built) + [PutRevision(SourceRevision(w, req, mode))]
  }

  lemma StoreOwned(w: World, req: Request, id: BuildId, mode: BuildMode)
    ensures Own(StoreWrites(w, req, id, mode), req.name, Some(id))
  {
    OwnConcat(BuildWrites(w, req, id, Built), [PutRevision(SourceRevision(w, req, mode))], req.name, Some(id));
  }

  lemma StoredLocal(w: World, v: World, req: Request, id: BuildId, mode: BuildMode)
    requires SameSlice(w, v, req.name) && id !in w.builds && id !in v.builds
    ensures SourceRevision(w, req, mode) == SourceRevision(v, req, mode)
    ensures SameSlice(Stored(w, req, id, mode), Stored(v, req, id, mode), req.name)
  {
    var xs := StoreWrites(w, req, id, mode);
    RevisionLocal(w, v, req, mode);
    BuildLocal(w, v, req, id, Built);
    StoreOwned(w, req, id, mode);
    StoredResult(w, req, id, mode);
    StoredResult(v, req, id, mode);
    OwnIsOwned(w, xs, req.name, Some(id));
    OwnIsOwned(v, xs, req.name, Some(id));
    SliceAfter(w, v, xs, req.name);
  }

  lemma StoredKeysMatch(w: World, req: Request, id: BuildId, mode: BuildMode)
    requires KeysMatch(w)
    ensures KeysMatch(Stored(w, req, id, mode))
  {
  }

  lemma BuildLocal(w: World, v: World, req: Request, id: BuildId, outcome: BuildOutcome)
    requires SameSlice(w, v, req.name)
    ensures BuildWrites(w, req, id, outcome) == BuildWrites(v, req, id, outcome)
  {
  }

  lemma DeployLocal(
    w: World, v: World, req: Request, id: BuildId, mode: BuildMode, outcome: BuildOutcome, stuck: set<RevisionKey>)
    requires KeysMatch(w) && KeysMatch(v) && SameSlice(w, v, req.name) && id !in w.builds && id !in v.builds
    ensures SourceWrites(w, req, id, mode, outcome, stuck) == SourceWrites(v, req, id, mode, outcome, stuck)
  {
    BuildLocal(w, v, req, id, outcome);
    if outcome.Built? {
      StoredLocal(w, v, req, id, mode);
      StoredKeysMatch(w, req, id, mode);
      StoredKeysMatch(v, req, id, mode);
      StoredResult(w, req, id, mode);
      StoredResult(v, req, id, mode);
      ActivateLocal(Stored(w, req, id, mode), Stored(v, req, id, mode), req.name, SourceRevision(w, req, mode), stuck);
    }
  }

  lemma ImageLocal(w: World, v: World, req: Request, stuck: set<RevisionKey>)
    requires KeysMatch(w) && KeysMatch(v) && SameSlice(w, v, req.name)
    ensures ImageWrites(w, req, stuck) == ImageWrites(v, req, stuck)
  {
    ImageStoredLocal(w, v, req);
    ImageStoredResult(w, req);
    ImageStoredResult(v, req);
    ActivateLocal(ImageStored(w, req), ImageStored(v, req), req.name, ImageRevision(w, req), stuck);
  }

  lemma ImageStoredLocal(w: World, v: World, req: Request)
    requires KeysMatch(w) && KeysMatch(v) && SameSlice(w, v, req.name)
    ensures ImageFunction(w, req) == ImageFunction(v, req) && ImageRevision(w, req) == ImageRevision(v, req)
    ensures KeysMatch(ImageStored(w, req)) && KeysMatch(ImageStored(v, req))
    ensures SameSlice(ImageStored(w, req), ImageStored(v, req), req.name)
  {
    var xs := [PutFunction(ImageFunction(w, req)), PutRevision(ImageRevision(w, req))];
    RevisionLocal(w, v, req, Host);
    ImageStoredResult(w, req);
    ImageStoredResult(v, req);
    KeysAfter(w, xs);
    KeysAfter(v, xs);
    SliceAfter(w, v, xs, req.name);
  }

  // What an operation does depends on its own name's part of the registry only.
  lemma WritesAreLocal(w: World, v: World, op: Op)
    requires KeysMatch(w) && KeysMatch(v) && CanDo(w, op) && CanDo(v, op)
    requires (op.Deploy? || op.DeployImage? || op.Remove?) && SameSlice(w, v, OpName(op))
    ensures WritesOf(w, op) == WritesOf(v, op)
  {
    match op {
      case Deploy(req, id, mode, outcome, stuck) => DeployLocal(w, v, req, id, mode, outcome, stuck);
      case DeployImage(req, stuck) => ImageLocal(w, v, req, stuck);
      case Remove(_, _) =>
    }
  }

  lemma {:induction false} OnlyOwn(xs: seq<Write>, n: Name)
    ensures OwnedBy(xs, n) ==> Only(xs, n) == xs
    ensures (forall x <- xs :: Owner(x) != n) ==> Only(xs, n) == []
  {
    if xs != [] {
      OnlyOwn(xs[1..], n);
    }
  }

  lemma SameSliceReflexive(w: World, n: Name)
    ensures SameSlice(w, w, n)
  {
  }

  lemma SameWritesAfter(w: World, a: Op, b: Op)
    requires KeysMatch(w) && CanDo(w, a) && CanDo(w, b) && CanDo(Perform(w, a), b)
    requires (a.Deploy? || a.DeployImage? || a.Remove?) && (b.Deploy? || b.DeployImage? || b.Remove?)
    requires OpName(a) != OpName(b)
    ensures WritesOf(Perform(w, a), b) == WritesOf(w, b)
  {
    CompletedKeys(w, a);
    OthersUntouched(w, WritesOf(w, a), OpName(a), OpName(b));
    WritesAreLocal(w, Perform(w, a), b);
  }

  // What the two lists of writes are like, one after the other or together.
  lemma OpsApart(w: World, a: Op, b: Op)
    requires KeysMatch(w) && CanDo(w, a) && CanDo(w, b) && CanDo(Perform(w, a), b)
    requires (a.Deploy? || a.DeployImage? || a.Remove?) && (b.Deploy? || b.DeployImage? || b.Remove?)
    requires OpName(a) != OpName(b)
    ensures OwnedBy(WritesOf(w, a), OpName(a)) && OwnedBy(WritesOf(w, b), OpName(b))
    ensures OwnBuilds(w, WritesOf(w, a)) && OwnBuilds(w, WritesOf(w, b)) && OwnBuilds(Perform(w, a), WritesOf(w, b))
    ensures Perform(Perform(w, a), b) == DoAll(Perform(w, a), WritesOf(w, b))
  {
    CompletedKeys(w, a);
    CompletedKeys(w, b);
    SameWritesAfter(w, a, b);
    OwnBuildsAfter(Perform(w, a), w, b);
  }

  /**
   Two operations on different names, their writes interleaved in any way: every name ends up as if the
   operations had run one after the other.
   */
  lemma ConcurrentOperations(w: World, a: Op, b: Op, xs: seq<Write>, n: Name)
    requires KeysMatch(w) && CanDo(w, a) && CanDo(w, b)
    requires (a.Deploy? || a.DeployImage? || a.Remove?) && (b.Deploy? || b.DeployImage? || b.Remove?)
    requires OpName(a) != OpName(b)
    requires forall x <- xs :: Owner(x) == OpName(a) || Owner(x) == OpName(b)
    requires Only(xs, OpName(a)) == WritesOf(w, a) && Only(xs, OpName(b)) == WritesOf(w, b)
    requires OwnBuilds(w, xs) && CanDo(Perform(w, a), b)
    ensures SameSlice(DoAll(w, xs), Perform(Perform(w, a), b), n)
  {
    OpsApart(w, a, b);
    Interleaved(w, Perform(w, a), xs, WritesOf(w, a), WritesOf(w, b), OpName(a), OpName(b), n);
  }

  lemma Interleaved(
    w: World, v: World, xs: seq<Write>, first: seq<Write>, second: seq<Write>, p: Name, q: Name, n: Name)
    requires p != q && OwnedBy(first, p) && OwnedBy(second, q) && v == DoAll(w, first)
    requires OwnBuilds(w, xs) && OwnBuilds(w, first) && OwnBuilds(w, second) && OwnBuilds(v, second)
    requires forall x <- xs :: Owner(x) == p || Owner(x) == q
    requires Only(xs, p) == first && Only(xs, q) == second
    ensures SameSlice(DoAll(w, xs), DoAll(v, second), n)
  {
    assert SameSlice(DoAll(w, xs), DoAll(w, Only(xs, n)), n) by {
      SameSliceReflexive(w, n);
      OwnBuildsOnly(w, xs, n);
      NamesAreIndependent(w, w, xs, n);
    }
    OnlyOwn(xs, n);
    OneAfterTheOther(w, v, first, second, p, q, Only(xs, n), n);
    SameSliceTransitive(DoAll(w, xs), DoAll(w, Only(xs, n)), DoAll(v, second), n);
  }

  // `own` are the writes that concern `n` among those for `p` and those for `q`.
  lemma OneAfterTheOther(
    w: World, v: World, xs: seq<Write>, ys: seq<Write>, p: Name, q: Name, own: seq<Write>, n: Name)
    requires p != q && OwnedBy(xs, p) && OwnedBy(ys, q) && v == DoAll(w, xs)
    requires OwnBuilds(w, xs) && OwnBuilds(w, ys) && OwnBuilds(v, ys)
    requires own == if n == p then xs else if n == q then ys else []
    ensures SameSlice(DoAll(w, own), DoAll(v, ys), n)
  {
    if n == q {
      OthersUntouched(w, xs, p, n);
      SliceAfter(w, v, ys, n);
    } else {
      OthersUntouched(v, ys, q, n);
      if n != p {
        OthersUntouched(w, xs, p, n);
        SameSliceTransitive(w, v, DoAll(v, ys), n);
      }
    }
  }

  lemma OwnBuildsOnly(w: World, xs: seq<Write>, n: Name)
    requires OwnBuilds(w, xs)
    ensures OwnBuilds(w, Only(xs, n))
  {
    OnlyMembers(xs, n);
  }

  lemma OwnBuildsAfter(v: World, w: World, b: Op)
    requires (b.Deploy? || b.DeployImage? || b.Remove?) && CanDo(v, b) && KeysMatch(v)
    requires WritesOf(v, b) == WritesOf(w, b)
    ensures OwnedBy(WritesOf(v, b), OpName(b)) && OwnBuilds(v, WritesOf(v, b))
  {
    OpOwn(v, b);
    OwnIsOwned(v, WritesOf(v, b), OpName(b), OpBuild(b));
  }
}
