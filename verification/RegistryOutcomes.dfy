/**
 What a registration and a restart leave of the function they are about, field by field: its record, its
 revision, its builds and its pool with the driver its instances run under.
 */
module RegistryOutcomes {
  import opened Wrappers
  import opened RegistryModel
  import opened RegistryRestore
  import opened RegistryCrash
  import opened RegistryOperations
  import opened RegistryHistory

  // An existing pool keeps its settings and driver and gets the new template; a missing one is made.
  predicate PoolAfter(w: World, v: World, n: Name, number: nat, settings: nat, driver: Driver) {
    && n in v.pools && v.pools[n].template == number
    && v.pools[n].settings == (if n in w.pools then w.pools[n].settings else settings)
    && v.pools[n].driver == (if n in w.pools then w.pools[n].driver else driver)
    && v.pools - {n} == w.pools - {n}
  }

  // The revision deployed is never among those pruned.
  lemma DeployedAt(w: World, n: Name, r: Revision, stuck: set<RevisionKey>)
    requires KeysMatch(w) && n in w.functions && KeyOf(r) == (n, r.number)
    requires (n, r.number) in w.revisions && w.revisions[(n, r.number)] == r
    ensures var v := Deployed(w, n, r, stuck);
            && v.functions == w.functions[n := w.functions[n].(currentRevision := Some(r.number), state := Ready,
                                                               lastError := None)]
            && (n, r.number) in v.revisions && v.revisions[(n, r.number)] == r
            && ((n, r.number) in v.dirs <==> (n, r.number) in w.dirs)
            && v.builds == w.builds
  {
    assert (n, r.number) !in Targets(Switched(w, n, r), n, 1, PruneEnd(r.number), stuck);
  }

  lemma DeployedPool(w: World, n: Name, r: Revision, stuck: set<RevisionKey>, driver: Driver)
    requires driver == if r.snapshot.source.Image? then ContainerDriver
                       else if r.snapshot.runtime == Some(Python314) && r.buildMode == Some(Container)
                       then ContainerDriver else ProcessDriver
    ensures PoolAfter(w, Deployed(w, n, r, stuck), n, r.number, r.snapshot.settings, driver)
  {
  }

  ghost predicate SourceOutcome(w: World, v: World, req: Request, id: BuildId, mode: BuildMode) {
    var n, number := req.name, NextNumber(w, req.name);
    var f := Function(n, req.source, req.runtime, req.settings, Ready, Some(number), None);
    && v.functions == w.functions[n := f]
    && (n, number) in v.revisions
    && v.revisions[(n, number)] == Revision(n, number, Some((n, number)), Some(mode), f, false)
    && (n, number) in v.dirs
    && v.builds == w.builds[id := Build(id, n, number, Succeeded)]
    && PoolAfter(w, v, n, number, req.settings,
                 if req.runtime == Some(Python314) && mode == Container then ContainerDriver else ProcessDriver)
  }

  /**
   A directory registration whose build works: what was asked for is recorded, ready at the next number,
   with a revision that has the artifact and a build that succeeded.  A new pool runs containers exactly
   for Python built in a container.
   */
  lemma SourceDeployed(w: World, req: Request, id: BuildId, mode: BuildMode, stuck: set<RevisionKey>)
    requires KeysMatch(w) && req.source.Dir?
    ensures SourceOutcome(w, DoAll(w, SourceWrites(w, req, id, mode, Built, stuck)), req, id, mode)
  {
    BuiltWorld(w, req, id, mode, stuck);
    SourceFields(w, DoAll(w, SourceWrites(w, req, id, mode, Built, stuck)), req, id, mode, stuck);
  }

  lemma SourceFields(w: World, v: World, req: Request, id: BuildId, mode: BuildMode, stuck: set<RevisionKey>)
    requires req.source.Dir? && KeysMatch(Stored(w, req, id, mode))
    requires v == Deployed(Stored(w, req, id, mode), req.name, SourceRevision(w, req, mode), stuck)
    ensures SourceOutcome(w, v, req, id, mode)
  {
    var n, r, stored := req.name, SourceRevision(w, req, mode), Stored(w, req, id, mode);
    DeployedAt(stored, n, r, stuck);
    DeployedPool(stored, n, r, stuck,
                 if req.runtime == Some(Python314) && mode == Container then ContainerDriver else ProcessDriver);
    assert w.builds[id := Build(id, n, r.number, Running)][id := Build(id, n, r.number, Succeeded)]
        == w.builds[id := Build(id, n, r.number, Succeeded)];
  }

  ghost predicate ImageOutcome(w: World, v: World, req: Request) {
    var n, number := req.name, NextNumber(w, req.name);
    var f := Function(n, req.source, req.runtime, req.settings, Ready, Some(number), None);
    && v.functions == w.functions[n := f]
    && (n, number) in v.revisions && v.revisions[(n, number)] == Revision(n, number, None, None, f, false)
    && v.builds == w.builds
    && PoolAfter(w, v, n, number, req.settings, ContainerDriver)
  }

  // An image registration: no artifact, no build, and a new pool runs containers.
  lemma ImageDeployed(w: World, req: Request, stuck: set<RevisionKey>)
    requires KeysMatch(w) && req.source.Image?
    ensures ImageOutcome(w, DoAll(w, ImageWrites(w, req, stuck)), req)
  {
    ImageWorld(w, req, stuck);
    ImageFields(w, DoAll(w, ImageWrites(w, req, stuck)), req, stuck);
  }

  lemma ImageFields(w: World, v: World, req: Request, stuck: set<RevisionKey>)
    requires req.source.Image? && KeysMatch(ImageStored(w, req))
    requires v == Deployed(ImageStored(w, req), req.name, ImageRevision(w, req), stuck)
    ensures ImageOutcome(w, v, req)
  {
    DeployedAt(ImageStored(w, req), req.name, ImageRevision(w, req), stuck);
    DeployedPool(ImageStored(w, req), req.name, ImageRevision(w, req), stuck, ContainerDriver);
  }

  ghost predicate FailedOutcome(w: World, v: World, req: Request, id: BuildId, message: string, dirMade: bool) {
    var n, number := req.name, NextNumber(w, req.name);
    var wasReady := n in w.functions && w.functions[n].state == Ready;
    var revision := if n in w.functions then w.functions[n].currentRevision else None;
    && v.functions == w.functions[n := Function(n, req.source, req.runtime, req.settings,
                                                if wasReady then Ready else Failed, revision,
                                                Some(BuildError(message)))]
    && v.builds == w.builds[id := Build(id, n, number, BuildFailed)]
    && v.revisions == w.revisions && v.pools == w.pools
    && v.dirs == w.dirs + (if dirMade then {(n, number)} else {})
  }

  // A build that fails: what was asked for is recorded with the error; a function that was ready stays so,
  // any other one is failed; its revision stays, its pool is not touched.
  lemma SourceFailed(
    w: World, req: Request, id: BuildId, mode: BuildMode, outcome: BuildOutcome, stuck: set<RevisionKey>)
    requires outcome.NotBuilt?
    ensures FailedOutcome(w, DoAll(w, SourceWrites(w, req, id, mode, outcome, stuck)), req, id,
                          outcome.message, outcome.dirMade)
  {
    var xs := SourceWrites(w, req, id, mode, outcome, stuck);
    FailedLength(w, req, id, mode, outcome, stuck);
    FailedPrefix(w, req, id, mode, outcome, stuck, |xs|);
    assert xs[..|xs|] == xs;
    FailedFields(w, DoAll(w, xs), req, id, outcome);
  }

  lemma FailedLength(
    w: World, req: Request, id: BuildId, mode: BuildMode, outcome: BuildOutcome, stuck: set<RevisionKey>)
    requires outcome.NotBuilt?
    ensures |SourceWrites(w, req, id, mode, outcome, stuck)| == BuildLength(outcome) + 1
  {
    BuildPrefix(w, req, id, outcome, BuildLength(outcome));
  }

  lemma FailedFields(w: World, v: World, req: Request, id: BuildId, outcome: BuildOutcome)
    requires outcome.NotBuilt? && v == FailedBuild(w, req, id, outcome)
    ensures FailedOutcome(w, v, req, id, outcome.message, outcome.dirMade)
  {
    var n, number := req.name, NextNumber(w, req.name);
    assert w.builds[id := Build(id, n, number, Running)][id := Build(id, n, number, BuildFailed)]
        == w.builds[id := Build(id, n, number, BuildFailed)];
  }

  // A restart keeps a function's record, but for a runtime it never had and for a build that was running: the
  // function whose build is gone is ready if it has a revision and failed if not, and the record says why.
  lemma RestartedRecord(w: World, n: Name, stuck: set<RevisionKey>)
    requires KeysMatch(w) && n in w.functions
    ensures var f, v := w.functions[n], Restarted(w, stuck);
            var cut := exists id <- w.builds :: w.builds[id].functionName == n && w.builds[id].status == Running;
            && n in v.functions
            && v.functions[n] == Function(n, f.source,
                                          if f.source.Dir? && f.runtime.None? then Some(Rust) else f.runtime,
                                          f.settings,
                                          if !cut then f.state else if f.currentRevision.Some? then Ready else Failed,
                                          f.currentRevision,
                                          if cut then Some(InterruptedByRestart) else f.lastError)
  {
    RestartedAt(w, n, stuck);
  }

  // No build runs on: one that was running has failed, and no other changes.
  lemma RestartedBuilds(w: World, stuck: set<RevisionKey>)
    requires KeysMatch(w)
    ensures Restarted(w, stuck).builds == map id <- w.builds ::
              var b := w.builds[id];
              Build(id, b.functionName, b.revision, if b.status == Running then BuildFailed else b.status)
  {
    RestoredFields(Crash(w), stuck);
  }
}
