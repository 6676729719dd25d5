/**
 The registry's operations one by one: the state each leaves when it completes and at every point a
 crash may cut it, and what a restart then makes of it.
 */
module RegistryOperations {
  import opened Wrappers
  import opened RegistryModel
  import opened RegistryRestore
  import opened RegistryCrash
  import opened RegistrySlices

  // ---------- Source registration ----------

  // How far a source registration has come.
  datatype Phase = Untouched | Announced | BuildRunning | BuildFinished | Complete

  function BuildLength(outcome: BuildOutcome): nat {
    if outcome.Built? || outcome.dirMade then 4 else 3
  }

  // The writes up to and including the one that decides the function's state.
  function DecidedAfter(outcome: BuildOutcome): nat {
    BuildLength(outcome) + if outcome.Built? then 3 else 1
  }

  function PhaseAt(outcome: BuildOutcome, k: nat): Phase {
    if k == 0 then Untouched
    else if k == 1 then Announced
    else if k < BuildLength(outcome) then BuildRunning
    else if k < DecidedAfter(outcome) then BuildFinished
    else Complete
  }

  function Announce(w: World, req: Request): World {
    w.(functions := w.functions[req.name := FunctionRecord(w, req)])
  }

  function BuildRecord(w: World, req: Request, id: BuildId, status: BuildStatus): Build {
    Build(id, req.name, NextNumber(w, req.name), status)
  }

  function FinalStatus(outcome: BuildOutcome): BuildStatus {
    if outcome.Built? then Succeeded else BuildFailed
  }

  function DirsAfter(w: World, req: Request, outcome: BuildOutcome): set<RevisionKey> {
    w.dirs + if outcome.Built? || outcome.dirMade then {(req.name, NextNumber(w, req.name))} else {}
  }

  function BuildOver(w: World, req: Request, id: BuildId, outcome: BuildOutcome): World {
    Announce(w, req).(
      builds := w.builds[id := BuildRecord(w, req, id, FinalStatus(outcome))],
      dirs := DirsAfter(w, req, outcome))
  }

  lemma BuildPrefix(w: World, req: Request, id: BuildId, outcome: BuildOutcome, k: nat)
    requires k <= BuildLength(outcome)
    ensures |BuildWrites(w, req, id, outcome)| == BuildLength(outcome)
    ensures var v := DoAll(w, BuildWrites(w, req, id, outcome)[..k]);
            match PhaseAt(outcome, k)
            case Untouched => v == w
            case Announced => v == Announce(w, req)
            case BuildRunning =>
              && v == Announce(w, req).(builds := w.builds[id := BuildRecord(w, req, id, Running)], dirs := v.dirs)
              && w.dirs <= v.dirs <= DirsAfter(w, req, outcome)
            case _ => v == BuildOver(w, req, id, outcome)
  {
    var xs := BuildWrites(w, req, id, outcome);
    assert xs[..0] == [] && xs[..1] == [xs[0]] && xs[..2] == [xs[0], xs[1]];
    DoAllShort(w, xs[0], xs[1]);
    if k >= 3 {
      BuildRest(w, req, id, outcome);
    }
  }

  lemma BuildRest(w: World, req: Request, id: BuildId, outcome: BuildOutcome)
    ensures var xs := BuildWrites(w, req, id, outcome);
            && |xs| == BuildLength(outcome)
            && DoAll(w, xs[..|xs|]) == BuildOver(w, req, id, outcome)
            && (|xs| == 4 ==>
                  DoAll(w, xs[..3]) ==
                    Announce(w, req).(builds := w.builds[id := BuildRecord(w, req, id, Running)],
                                      dirs := DirsAfter(w, req, outcome)))
  {
    var announce, run := PutFunction(FunctionRecord(w, req)), PutBuild(BuildRecord(w, req, id, Running));
    var dir := MakeDir((req.name, NextNumber(w, req.name)));
    var finish := PutBuild(BuildRecord(w, req, id, FinalStatus(outcome)));
    BuildList(w, req, id, outcome, announce, run, dir, finish);
    BuildSteps(w, req, id, outcome, announce, run, dir, finish);
    DoAllFour(w, announce, run, dir, finish);
    DoAllFour(w, announce, run, finish, finish);
  }

  lemma BuildList(
    w: World, req: Request, id: BuildId, outcome: BuildOutcome, announce: Write, run: Write, dir: Write, finish: Write)
    requires announce == PutFunction(FunctionRecord(w, req)) && run == PutBuild(BuildRecord(w, req, id, Running))
    requires dir == MakeDir((req.name, NextNumber(w, req.name)))
    requires finish == PutBuild(BuildRecord(w, req, id, FinalStatus(outcome)))
    ensures var xs := BuildWrites(w, req, id, outcome);
            && |xs| == BuildLength(outcome)
            && xs[..|xs|] == (if |xs| == 4 then [announce, run, dir, finish] else [announce, run, finish])
            && (|xs| == 4 ==> xs[..3] == [announce, run, dir])
  {
  }

  lemma BuildSteps(
    w: World, req: Request, id: BuildId, outcome: BuildOutcome, announce: Write, run: Write, dir: Write, finish: Write)
    requires announce == PutFunction(FunctionRecord(w, req)) && run == PutBuild(BuildRecord(w, req, id, Running))
    requires dir == MakeDir((req.name, NextNumber(w, req.name)))
    requires finish == PutBuild(BuildRecord(w, req, id, FinalStatus(outcome)))
    ensures var started := Do(Do(w, announce), run);
            if BuildLength(outcome) == 4 then
              && Do(started, dir) == Announce(w, req).(builds := w.builds[id := BuildRecord(w, req, id, Running)],
                                                       dirs := DirsAfter(w, req, outcome))
              && Do(Do(started, dir), finish) == BuildOver(w, req, id, outcome)
            else Do(started, finish) == BuildOver(w, req, id, outcome)
  {
  }

  lemma DoAllFour(w: World, x: Write, y: Write, z: Write, t: Write)
    ensures DoAll(w, [x, y, z]) == Do(Do(Do(w, x), y), z)
    ensures DoAll(w, [x, y, z, t]) == Do(Do(Do(Do(w, x), y), z), t)
  {
    DoAllShort(w, x, y);
    assert [x, y, z] == [x, y] + [z] && [x, y, z, t] == [x, y] + [z, t];
    DoAllConcat(w, [x, y], [z]);
    DoAllConcat(w, [x, y], [z, t]);
    DoAllShort(Do(Do(w, x), y), z, t);
  }

  // A built revision is stored before the function names it.
  function Stored(w: World, req: Request, id: BuildId, mode: BuildMode): World {
    var v := BuildOver(w, req, id, Built);
    v.(revisions := v.revisions[(req.name, NextNumber(w, req.name)) := SourceRevision(w, req, mode)])
  }

  function FailedBuild(w: World, req: Request, id: BuildId, outcome: BuildOutcome): World
    requires outcome.NotBuilt?
  {
    var v := BuildOver(w, req, id, outcome);
    v.(functions := v.functions[req.name := AfterFailedBuild(w, req, outcome.message)])
  }

  lemma FailedPrefix(
    w: World, req: Request, id: BuildId, mode: BuildMode, outcome: BuildOutcome, stuck: set<RevisionKey>, k: nat)
    requires outcome.NotBuilt? && k <= |SourceWrites(w, req, id, mode, outcome, stuck)|
    ensures var v := DoAll(w, SourceWrites(w, req, id, mode, outcome, stuck)[..k]);
            && (k <= BuildLength(outcome) ==> v == DoAll(w, BuildWrites(w, req, id, outcome)[..k]))
            && (k > BuildLength(outcome) ==> v == FailedBuild(w, req, id, outcome))
  {
    var build := BuildWrites(w, req, id, outcome);
    var put := PutFunction(AfterFailedBuild(w, req, outcome.message));
    BuildPrefix(w, req, id, outcome, BuildLength(outcome));
    assert build[..|build|] == build;
    PrefixOfConcat(w, build, [put], k);
    if k > |build| {
      assert [put][..k - |build|] == [put];
      DoAllShort(DoAll(w, build), put, put);
    }
  }

  lemma StoredResult(w: World, req: Request, id: BuildId, mode: BuildMode)
    ensures DoAll(w, BuildWrites(w, req, id, Built) + [PutRevision(SourceRevision(w, req, mode))])
         == Stored(w, req, id, mode)
  {
    var build := BuildWrites(w, req, id, Built);
    var put := PutRevision(SourceRevision(w, req, mode));
    BuildPrefix(w, req, id, Built, 4);
    assert build[..4] == build;
    DoAllConcat(w, build, [put]);
    DoAllShort(DoAll(w, build), put, put);
  }

  lemma SwitchPrefix(w: World, n: Name, r: Revision, stuck: set<RevisionKey>, k: nat)
    requires KeysMatch(w) && n in w.functions && k <= 1 && k <= |ActivateWrites(w, n, r, stuck)|
    ensures var v := DoAll(w, ActivateWrites(w, n, r, stuck)[..k]); v == w.(pools := v.pools)
    ensures k == 0 ==> DoAll(w, ActivateWrites(w, n, r, stuck)[..k]) == w
  {
    var xs := ActivateWrites(w, n, r, stuck);
    assert xs[..0] == [];
    if k == 1 {
      assert xs[..1] == [xs[0]];
      DoAllShort(w, xs[0], xs[0]);
    }
  }

  lemma ActivatePrefix(w: World, n: Name, r: Revision, stuck: set<RevisionKey>, k: nat)
    requires KeysMatch(w) && n in w.functions && 2 <= k <= |ActivateWrites(w, n, r, stuck)|
    ensures PrunedPartly(Switched(w, n, r), DoAll(w, ActivateWrites(w, n, r, stuck)[..k]),
                         n, 1, PruneEnd(r.number), stuck)
  {
    ActivateSplit(w, n, r, stuck);
    SwitchPrunePrefix(w, n, r, stuck, ActivateWrites(w, n, r, stuck), k);
  }

  lemma SwitchPrunePrefix(w: World, n: Name, r: Revision, stuck: set<RevisionKey>, xs: seq<Write>, k: nat)
    requires KeysMatch(w) && n in w.functions && 2 <= k <= |xs|
    requires xs == SwitchWrites(w, n, r) + PruneWrites(Switched(w, n, r), n, 1, PruneEnd(r.number), stuck)
    ensures PrunedPartly(Switched(w, n, r), DoAll(w, xs[..k]), n, 1, PruneEnd(r.number), stuck)
  {
    SwitchResult(w, n, r);
    PrefixOfConcat(w, SwitchWrites(w, n, r), PruneWrites(Switched(w, n, r), n, 1, PruneEnd(r.number), stuck), k);
    PrunePrefix(Switched(w, n, r), n, 1, PruneEnd(r.number), stuck, k - 2);
  }

  lemma BuiltSplit(w: World, req: Request, id: BuildId, mode: BuildMode, stuck: set<RevisionKey>)
    requires KeysMatch(w)
    ensures var build := BuildWrites(w, req, id, Built) + [PutRevision(SourceRevision(w, req, mode))];
            var stored := Stored(w, req, id, mode);
            && |build| == 5 && DoAll(w, build) == stored && KeysMatch(stored)
            && SourceWrites(w, req, id, mode, Built, stuck)
               == build + ActivateWrites(stored, req.name, SourceRevision(w, req, mode), stuck)
  {
    StoredResult(w, req, id, mode);
    BuildPrefix(w, req, id, Built, 4);
  }

  lemma BuiltPrefix(w: World, req: Request, id: BuildId, mode: BuildMode, stuck: set<RevisionKey>, k: nat)
    requires KeysMatch(w) && k <= |SourceWrites(w, req, id, mode, Built, stuck)|
    ensures var v := DoAll(w, SourceWrites(w, req, id, mode, Built, stuck)[..k]);
            var stored := Stored(w, req, id, mode);
            var r := SourceRevision(w, req, mode);
            && KeysMatch(stored)
            && (k <= 4 ==> v == DoAll(w, BuildWrites(w, req, id, Built)[..k]))
            && (5 <= k <= 6 ==> v == stored.(pools := v.pools))
            && (k >= 7 ==> PrunedPartly(Switched(stored, req.name, r), v, req.name, 1, PruneEnd(r.number), stuck))
  {
    var build, r := BuildWrites(w, req, id, Built), SourceRevision(w, req, mode);
    var stored := Stored(w, req, id, mode);
    var activate := ActivateWrites(stored, req.name, r, stuck);
    BuiltSplit(w, req, id, mode, stuck);
    PrefixOfConcat(w, build + [PutRevision(r)], activate, k);
    if k <= 4 {
      assert (build + [PutRevision(r)])[..k] == build[..k];
    } else if k <= 6 {
      SwitchPrefix(stored, req.name, r, stuck, k - 5);
    } else {
      ActivatePrefix(stored, req.name, r, stuck, k - 5);
    }
  }

  // The state a registration whose build works ends in.
  lemma BuiltWorld(w: World, req: Request, id: BuildId, mode: BuildMode, stuck: set<RevisionKey>)
    requires KeysMatch(w)
    ensures DoAll(w, SourceWrites(w, req, id, mode, Built, stuck))
         == Deployed(Stored(w, req, id, mode), req.name, SourceRevision(w, req, mode), stuck)
    ensures KeysMatch(Stored(w, req, id, mode))
  {
    var r, stored := SourceRevision(w, req, mode), Stored(w, req, id, mode);
    StoredResult(w, req, id, mode);
    ActivateResult(stored, req.name, r, stuck);
    DoAllConcat(w, BuildWrites(w, req, id, Built) + [PutRevision(r)], ActivateWrites(stored, req.name, r, stuck));
  }

  lemma SourceOwned(
    w: World, req: Request, id: BuildId, mode: BuildMode, outcome: BuildOutcome, stuck: set<RevisionKey>)
    requires KeysMatch(w) && id !in w.builds
    ensures var xs := SourceWrites(w, req, id, mode, outcome, stuck);
            Own(xs, req.name, Some(id)) && OwnedBy(xs, req.name) && OwnBuilds(w, xs)
  {
    var build := BuildWrites(w, req, id, outcome);
    assert Own(build, req.name, Some(id));
    if outcome.Built? {
      var r, stored := SourceRevision(w, req, mode), Stored(w, req, id, mode);
      StoredResult(w, req, id, mode);
      ActivateOwned(stored, req.name, r, stuck, Some(id));
      OwnConcat(build + [PutRevision(r)], ActivateWrites(stored, req.name, r, stuck), req.name, Some(id));
    }
    OwnIsOwned(w, SourceWrites(w, req, id, mode, outcome, stuck), req.name, Some(id));
  }

  // ---------- Cutting a source registration ----------

  // A build on record under a new id is the only one that can be running.
  lemma NewBuild(w: World, v: World, b: Build)
    requires v.builds == w.builds[b.id := b] && b.id !in w.builds
    ensures !HasRunningBuild(w, b.functionName) ==> (HasRunningBuild(v, b.functionName) <==> b.status == Running)
  {
    if b.status == Running {
      assert v.builds[b.id] == b;
    }
  }

  // The states before the function names a new revision.
  lemma WholeBefore(w: World, v: World, n: Name)
    requires Whole(w, n) && CurrentNumber(v, n) == CurrentNumber(w, n)
    requires n in v.functions && v.functions[n].currentRevision.Some? ==> CurrentNumber(w, n) > 0
    requires forall key <- w.revisions :: key.1 <= CurrentNumber(w, n) ==>
               key in v.revisions && v.revisions[key] == w.revisions[key] && (key in v.dirs ==> key in w.dirs)
    ensures Whole(v, n)
  {
    forall k: nat | 1 <= k <= CurrentNumber(v, n) ensures (n, k) in v.revisions && Retained(v, n, k) {
      assert (n, k) in w.revisions && Retained(w, n, k);
    }
  }

  // The states after it does: the newly stored revision makes one more, and pruning keeps what it must.
  lemma WholeAfter(w: World, switched: World, v: World, n: Name, r: Revision, stuck: set<RevisionKey>)
    requires Whole(w, n)
    requires r.number == NextNumber(w, n) == CurrentNumber(switched, n) && !r.artifactPruned
    requires (n, r.number) in switched.revisions && switched.revisions[(n, r.number)] == r
    requires forall key <- w.revisions :: key.1 <= CurrentNumber(w, n) ==>
               && key in switched.revisions && switched.revisions[key] == w.revisions[key]
               && (key in switched.dirs ==> key in w.dirs)
    requires PrunedPartly(switched, v, n, 1, PruneEnd(r.number), stuck)
    ensures Whole(v, n)
  {
    forall k: nat | 1 <= k <= CurrentNumber(v, n) ensures (n, k) in v.revisions && Retained(v, n, k) {
      assert k < r.number ==> (n, k) in w.revisions && Retained(w, n, k);
    }
  }

  lemma PartlyKeepsKeys(switched: World, v: World, n: Name, from: nat, end: nat, stuck: set<RevisionKey>)
    requires KeysMatch(switched) && PrunedPartly(switched, v, n, from, end, stuck)
    ensures KeysMatch(v)
  {
  }

  lemma StoredWhole(w: World, req: Request, id: BuildId, mode: BuildMode)
    requires Whole(w, req.name)
    ensures Whole(Stored(w, req, id, mode), req.name)
    ensures NextNumber(Stored(w, req, id, mode), req.name) == NextNumber(w, req.name)
  {
    WholeBefore(w, Stored(w, req, id, mode), req.name);
  }

  // Any record that keeps the current revision leaves what is stored whole.
  lemma RecordWhole(w: World, v: World, req: Request, f: Function)
    requires KeysMatch(w)
    requires f.name == req.name && f.currentRevision == FunctionRecord(w, req).currentRevision
    requires v.functions == w.functions[req.name := f] && v.revisions == w.revisions
    requires v.dirs <= w.dirs + {(req.name, NextNumber(w, req.name))}
    requires forall id <- v.builds :: v.builds[id].id == id
    ensures KeysMatch(v) && (Whole(w, req.name) ==> Whole(v, req.name))
  {
    if Whole(w, req.name) {
      WholeBefore(w, v, req.name);
    }
  }

  // What is stored stays whole at every cut, and a build is on record as running only in between.
  lemma FailedCutState(
    w: World, req: Request, id: BuildId, mode: BuildMode, outcome: BuildOutcome, stuck: set<RevisionKey>, k: nat)
    requires KeysMatch(w) && id !in w.builds
    requires outcome.NotBuilt? && k <= |SourceWrites(w, req, id, mode, outcome, stuck)|
    ensures CutState(w, req, outcome, k, DoAll(w, SourceWrites(w, req, id, mode, outcome, stuck)[..k]))
  {
    var v := DoAll(w, SourceWrites(w, req, id, mode, outcome, stuck)[..k]);
    FailedPrefix(w, req, id, mode, outcome, stuck, k);
    if k <= BuildLength(outcome) {
      BuildCutState(w, req, id, outcome, k);
    } else {
      FailedBuildCut(w, req, id, outcome, k, v);
    }
  }

  lemma FailedBuildCut(w: World, req: Request, id: BuildId, outcome: BuildOutcome, k: nat, v: World)
    requires KeysMatch(w) && id !in w.builds
    requires outcome.NotBuilt? && v == FailedBuild(w, req, id, outcome) && k > BuildLength(outcome)
    ensures CutState(w, req, outcome, k, v)
  {
    RecordWhole(w, v, req, AfterFailedBuild(w, req, outcome.message));
    NewBuild(w, v, BuildRecord(w, req, id, BuildFailed));
  }

  lemma BuildCutState(w: World, req: Request, id: BuildId, outcome: BuildOutcome, k: nat)
    requires KeysMatch(w) && id !in w.builds
    requires k <= BuildLength(outcome)
    ensures k <= |BuildWrites(w, req, id, outcome)|
    ensures CutState(w, req, outcome, k, DoAll(w, BuildWrites(w, req, id, outcome)[..k]))
  {
    BuildPrefix(w, req, id, outcome, k);
    var v := DoAll(w, BuildWrites(w, req, id, outcome)[..k]);
    if k == 1 {
      RecordWhole(w, v, req, FunctionRecord(w, req));
    } else if k > 1 {
      RecordedBuildCut(w, req, id, outcome, k, v, if k < BuildLength(outcome) then Running else FinalStatus(outcome));
    }
  }

  lemma RecordedBuildCut(
    w: World, req: Request, id: BuildId, outcome: BuildOutcome, k: nat, v: World, status: BuildStatus)
    requires KeysMatch(w) && id !in w.builds
    requires 1 < k <= BuildLength(outcome) && (status == Running <==> k < BuildLength(outcome))
    requires v == Announce(w, req).(builds := w.builds[id := BuildRecord(w, req, id, status)], dirs := v.dirs)
    requires v.dirs <= DirsAfter(w, req, outcome)
    ensures CutState(w, req, outcome, k, v)
  {
    RecordWhole(w, v, req, FunctionRecord(w, req));
    NewBuild(w, v, BuildRecord(w, req, id, status));
  }

  lemma BuiltCutState(w: World, req: Request, id: BuildId, mode: BuildMode, stuck: set<RevisionKey>, k: nat)
    requires KeysMatch(w) && id !in w.builds
    requires k <= |SourceWrites(w, req, id, mode, Built, stuck)|
    ensures CutState(w, req, Built, k, DoAll(w, SourceWrites(w, req, id, mode, Built, stuck)[..k]))
  {
    var v := DoAll(w, SourceWrites(w, req, id, mode, Built, stuck)[..k]);
    BuiltPrefix(w, req, id, mode, stuck, k);
    if k <= 4 {
      BuildCutState(w, req, id, Built, k);
    } else if k <= 6 {
      StoredCutState(w, req, id, mode, k, v);
    } else {
      SwitchedCutState(w, req, id, mode, stuck, k, v);
    }
  }

  lemma StoredCutState(w: World, req: Request, id: BuildId, mode: BuildMode, k: nat, v: World)
    requires KeysMatch(w) && id !in w.builds && 5 <= k <= 6
    requires v == Stored(w, req, id, mode).(pools := v.pools)
    ensures CutState(w, req, Built, k, v)
  {
    NewBuild(w, v, BuildRecord(w, req, id, Succeeded));
    if Whole(w, req.name) {
      StoredWhole(w, req, id, mode);
      WholeBefore(Stored(w, req, id, mode), v, req.name);
    }
  }

  lemma SwitchedCutState(
    w: World, req: Request, id: BuildId, mode: BuildMode, stuck: set<RevisionKey>, k: nat, v: World)
    requires KeysMatch(w) && id !in w.builds && k >= 7
    requires PrunedPartly(Switched(Stored(w, req, id, mode), req.name, SourceRevision(w, req, mode)), v,
                          req.name, 1, PruneEnd(NextNumber(w, req.name)), stuck)
    ensures CutState(w, req, Built, k, v)
  {
    var stored, r := Stored(w, req, id, mode), SourceRevision(w, req, mode);
    var switched := Switched(stored, req.name, r);
    NewBuild(w, v, BuildRecord(w, req, id, Succeeded));
    PartlyKeepsKeys(switched, v, req.name, 1, PruneEnd(r.number), stuck);
    if Whole(w, req.name) {
      SwitchedWhole(w, req, id, mode, stuck, v);
    }
  }

  lemma SwitchedWhole(w: World, req: Request, id: BuildId, mode: BuildMode, stuck: set<RevisionKey>, v: World)
    requires Whole(w, req.name)
    requires PrunedPartly(Switched(Stored(w, req, id, mode), req.name, SourceRevision(w, req, mode)), v,
                          req.name, 1, PruneEnd(NextNumber(w, req.name)), stuck)
    ensures Whole(v, req.name)
  {
    var stored, r := Stored(w, req, id, mode), SourceRevision(w, req, mode);
    WholeAfter(w, Switched(stored, req.name, r), v, req.name, r, stuck);
  }

  ghost predicate CutState(w: World, req: Request, outcome: BuildOutcome, k: nat, v: World) {
    var n := req.name;
    && KeysMatch(v) && (Whole(w, n) ==> Whole(v, n))
    && (!HasRunningBuild(w, n) ==> (HasRunningBuild(v, n) <==> PhaseAt(outcome, k) == BuildRunning))
    && match PhaseAt(outcome, k)
       case Untouched => v == w
       case Complete =>
         && n in v.functions
         && v.functions[n] ==
              if outcome.Built? then Activate(FunctionRecord(w, req), NextNumber(w, n))
              else AfterFailedBuild(w, req, outcome.message)
       case _ => n in v.functions && v.functions[n] == FunctionRecord(w, req)
  }

  // ---------- Restarting after a cut ----------

  lemma SliceOfWhole(w: World, v: World, n: Name)
    requires SameSlice(w, v, n)
    ensures Whole(w, n) <==> Whole(v, n)
    ensures HasRunningBuild(v, n) <==> HasRunningBuild(w, n)
    ensures CurrentNumber(w, n) == CurrentNumber(v, n)
  {
    RunningInSlice(w, v, n);
    RunningInSlice(v, w, n);
    forall k: nat
      ensures (n, k) in v.revisions && Retained(v, n, k) <==> (n, k) in w.revisions && Retained(w, n, k)
    {
      assert (n, k) in w.revisions <==> (n, k) in v.revisions;
    }
  }

  lemma RunningInSlice(w: World, v: World, n: Name)
    requires SameSlice(w, v, n)
    ensures HasRunningBuild(v, n) ==> HasRunningBuild(w, n)
  {
    if HasRunningBuild(v, n) {
      var id :| id in v.builds && v.builds[id].status == Running && v.builds[id].functionName == n;
      assert OwnsBuild(v, id, n) && OwnsBuild(w, id, n);
    }
  }

  // Every record is under its own key, and every name settled.
  ghost predicate AllSettled(w: World) {
    KeysMatch(w) && forall n :: Settled(w, n)
  }

  // What a cut and a restart make of a name the operation does not own: exactly what a restart alone would.
  ghost predicate OtherVerdict(w: World, v: World, m: Name) {
    && (Settled(v, m) <==> Settles(w, m))
    && (Whole(v, m) <==> Whole(w, m))
    && CurrentNumber(v, m) == CurrentNumber(w, m)
  }

  lemma OtherAfterCut(w: World, xs: seq<Write>, n: Name, k: nat, stuck: set<RevisionKey>, m: Name)
    requires KeysMatch(w) && k <= |xs| && KeysMatch(DoAll(w, xs[..k]))
    requires OwnedBy(xs, n) && OwnBuilds(w, xs) && m != n
    ensures OtherVerdict(w, Restarted(DoAll(w, xs[..k]), stuck), m)
  {
    var cut := DoAll(w, xs[..k]);
    assert OwnBuilds(w, xs[..k]) by {
      assert forall x <- xs[..k] :: x in xs;
    }
    OthersUntouched(w, xs[..k], n, m);
    SliceOfWhole(w, cut, m);
    RestartSettles(cut, m, stuck);
    RestartKeepsWhole(cut, m, stuck);
    RestartKeepsNumber(cut, m, stuck);
  }

  lemma OthersAfterCut(w: World, xs: seq<Write>, n: Name, k: nat, stuck: set<RevisionKey>)
    requires KeysMatch(w) && k <= |xs| && KeysMatch(DoAll(w, xs[..k]))
    requires OwnedBy(xs, n) && OwnBuilds(w, xs)
    ensures var v := Restarted(DoAll(w, xs[..k]), stuck);
            forall m :: !HasRunningBuild(v, m) && (m != n ==> OtherVerdict(w, v, m))
  {
    var v := Restarted(DoAll(w, xs[..k]), stuck);
    forall m ensures !HasRunningBuild(v, m) && (m != n ==> OtherVerdict(w, v, m)) {
      RestartedAt(DoAll(w, xs[..k]), m, stuck);
      if m != n {
        OtherAfterCut(w, xs, n, k, stuck, m);
      }
    }
  }

  // A settled name would be settled again by a restart, so it stays settled whatever is cut elsewhere.
  lemma SettledIsWhole(w: World, n: Name)
    requires Settled(w, n)
    ensures Whole(w, n) && !HasRunningBuild(w, n) && Settles(w, n)
    ensures n in w.functions ==> (CurrentNumber(w, n) > 0 <==> w.functions[n].state == Ready)
  {
  }

  predicate HasCurrent(w: World, n: Name) {
    n in w.functions && w.functions[n].currentRevision.Some?
  }

  predicate WasReady(w: World, n: Name) {
    n in w.functions && w.functions[n].state == Ready
  }

  // Whether a source registration that has come to `phase` leaves the function's state decided after a restart.
  predicate SourceDecides(w: World, n: Name, outcome: BuildOutcome, phase: Phase) {
    match phase
    case Untouched => n in w.functions ==> Decided(w.functions[n])
    case Announced => false
    case BuildRunning => true
    case BuildFinished => false
    case Complete => outcome.Built? || (WasReady(w, n) <==> HasCurrent(w, n))
  }

  lemma CutFacts(w: World, req: Request, outcome: BuildOutcome, k: nat, cut: World)
    requires CutState(w, req, outcome, k, cut) && !HasRunningBuild(w, req.name)
    ensures var n := req.name;
            var phase := PhaseAt(outcome, k);
            && CurrentNumber(cut, n) == CurrentNumber(w, n) + (if phase == Complete && outcome.Built? then 1 else 0)
            && ((n in cut.functions ==> HasRunningBuild(cut, n) || Decided(cut.functions[n]))
                  <==> SourceDecides(w, n, outcome, phase))
            && (n !in cut.functions ==> phase == Untouched)
            && (phase.Announced? || phase.BuildRunning? || phase.BuildFinished? ==>
                  cut.functions[n] == FunctionRecord(w, req))
  {
  }

  lemma RestartKeepsNumber(w: World, n: Name, stuck: set<RevisionKey>)
    requires KeysMatch(w)
    ensures CurrentNumber(Restarted(w, stuck), n) == CurrentNumber(w, n)
  {
    RestartedAt(w, n, stuck);
  }

  lemma SourceAfterCut(w: World, req: Request, outcome: BuildOutcome, k: nat, cut: World, stuck: set<RevisionKey>)
    requires CutState(w, req, outcome, k, cut) && !HasRunningBuild(w, req.name)
    ensures SourceVerdict(w, req, outcome, k, Restarted(cut, stuck))
  {
    var n := req.name;
    CutFacts(w, req, outcome, k, cut);
    RestartKeepsWhole(cut, n, stuck);
    RestartKeepsNumber(cut, n, stuck);
    RestartSettles(cut, n, stuck);
    RestartedAt(cut, n, stuck);
    RestartedPool(cut, n, stuck);
  }

  ghost predicate SourceVerdict(w: World, req: Request, outcome: BuildOutcome, k: nat, v: World) {
    var n := req.name;
    var phase := PhaseAt(outcome, k);
    && (Whole(w, n) ==> Whole(v, n))
    && (Settled(v, n) <==> Whole(v, n) && SourceDecides(w, n, outcome, phase))
    && CurrentNumber(v, n) == CurrentNumber(w, n) + (if phase == Complete && outcome.Built? then 1 else 0)
    && (phase == Announced || phase == BuildFinished ==>
          n in v.functions && v.functions[n].state == Building && n !in v.pools)
    && (phase == BuildRunning ==>
          && n in v.functions
          && v.functions[n].lastError == Some(InterruptedByRestart)
          && v.functions[n].state == if HasCurrent(w, n) then Ready else Failed)
  }

  /**
   A source registration cut anywhere, then a restart, whatever earlier crashes left of this or any other
   function.  No build stays running; every other name is what a restart alone would have made of it; the
   stored revisions stay whole if they were.  The function itself is then settled exactly if the cut came
   before everything and it was decided already, or while the build was running, or after its new state was
   decided; a failed build decides it if it was ready with a revision or neither.  In the two windows
   between, it is left `Building`, with its old revision and no pool.  A cut while the build was running
   brings the old revision back, or marks the function failed if there was none, and says why.
   */
  lemma SourceCrashRecovery(
    w: World, req: Request, id: BuildId, mode: BuildMode, outcome: BuildOutcome, stuck: set<RevisionKey>,
    k: nat, stuckLater: set<RevisionKey>)
    requires KeysMatch(w) && id !in w.builds && !HasRunningBuild(w, req.name)
    requires k <= |SourceWrites(w, req, id, mode, outcome, stuck)|
    ensures var v := Restarted(DoAll(w, SourceWrites(w, req, id, mode, outcome, stuck)[..k]), stuckLater);
            && KeysMatch(v)
            && (forall m :: !HasRunningBuild(v, m) && (m != req.name ==> OtherVerdict(w, v, m)))
            && SourceVerdict(w, req, outcome, k, v)
  {
    var xs := SourceWrites(w, req, id, mode, outcome, stuck);
    var cut := DoAll(w, xs[..k]);
    SourceCutState(w, req, id, mode, outcome, stuck, k);
    SourceOwned(w, req, id, mode, outcome, stuck);
    OthersAfterCut(w, xs, req.name, k, stuckLater);
    SourceAfterCut(w, req, outcome, k, cut, stuckLater);
    RestartedAt(cut, req.name, stuckLater);
  }

  lemma SourceCutState(
    w: World, req: Request, id: BuildId, mode: BuildMode, outcome: BuildOutcome, stuck: set<RevisionKey>, k: nat)
    requires KeysMatch(w) && id !in w.builds
    requires k <= |SourceWrites(w, req, id, mode, outcome, stuck)|
    ensures CutState(w, req, outcome, k, DoAll(w, SourceWrites(w, req, id, mode, outcome, stuck)[..k]))
  {
    if outcome.Built? {
      BuiltCutState(w, req, id, mode, stuck, k);
    } else {
      FailedCutState(w, req, id, mode, outcome, stuck, k);
    }
  }
}
