/**
 Histories with crashes: operations that complete, and crashes that cut any number of operations on different
 names anywhere, their writes interleaved in any way.  After a crash come restarts, of which any number are
 cut anywhere themselves before one completes.  What each name then is can be told from its own part of the
 history.
 */
module RegistryCrashHistory {
  import opened Wrappers
  import opened Sequences
  import opened RegistryModel
  import opened RegistryRestore
  import opened RegistryCrash
  import opened RegistrySlices
  import opened RegistryOperations
  import opened RegistryHistory
  import opened RegistryRestoreCuts

  // An operation of whose writes `k` were made.
  datatype InFlight = InFlight(op: Op, k: nat)

  // A crash cuts the operations `cuts`; `writes` is what was written of all of them, in the order it was.
  // `tries` are the restarts that did not come to their end.
  datatype Event =
    | Done(op: Op)
    | Cut(cuts: map<Name, InFlight>, writes: seq<Write>, tries: seq<Try>, stuckLater: set<RevisionKey>)

  predicate Concerns(op: Op, n: Name) {
    (op.Deploy? || op.DeployImage? || op.Remove?) && OpName(op) == n
  }

  predicate CanBeCut(w: World, n: Name, f: InFlight) {
    CanDo(w, f.op) && Concerns(f.op, n) && f.k <= |WritesOf(w, f.op)|
  }

  // What was written for `n`.
  function WrittenFor(w: World, cuts: map<Name, InFlight>, n: Name): seq<Write>
    requires n in cuts ==> CanBeCut(w, n, cuts[n])
  {
    if n in cuts then WritesOf(w, cuts[n].op)[..cuts[n].k] else []
  }

  // No two operations have the same new build id; the writes for each name are a prefix of its operation's.
  ghost predicate CanCut(w: World, cuts: map<Name, InFlight>, writes: seq<Write>) {
    && (forall n <- cuts :: CanBeCut(w, n, cuts[n]))
    && (forall m <- cuts, n <- cuts ::
          m != n && OpBuild(cuts[m].op).Some? ==> OpBuild(cuts[m].op) != OpBuild(cuts[n].op))
    && (forall n :: Only(writes, n) == WrittenFor(w, cuts, n))
  }

  ghost predicate CanTryAll(w: World, tries: seq<Try>)
    decreases tries
  {
    tries == [] || (CanTry(w, tries[0]) && CanTryAll(Tried(w, tries[0]), tries[1..]))
  }

  function TriedAll(w: World, tries: seq<Try>): World
    requires CanTryAll(w, tries)
    decreases tries
  {
    if tries == [] then w else TriedAll(Tried(w, tries[0]), tries[1..])
  }

  ghost predicate CanHappen(w: World, e: Event) {
    match e
    case Done(op) => CanDo(w, op)
    case Cut(cuts, writes, tries, _) => CanCut(w, cuts, writes) && CanTryAll(DoAll(w, writes), tries)
  }

  function Next(w: World, e: Event): World
    requires CanHappen(w, e)
  {
    match e
    case Done(op) => Perform(w, op)
    case Cut(_, writes, tries, stuckLater) => Restarted(TriedAll(DoAll(w, writes), tries), stuckLater)
  }

  ghost predicate CanReach(events: seq<Event>)
    decreases events, 0
  {
    events == [] ||
    (CanReach(events[..|events| - 1]) && CanHappen(Reached(events[..|events| - 1]), events[|events| - 1]))
  }

  function Reached(events: seq<Event>): World
    requires CanReach(events)
    decreases events, 1
  {
    if events == [] then EMPTY_WORLD else Next(Reached(events[..|events| - 1]), events[|events| - 1])
  }

  // ---------- What becomes of one name ----------

  // `torn`: since its last deletion an image registration was cut after naming its revision and before
  // storing it, with none left over.
  datatype Standing = Absent | Present(state: FunctionState, number: nat, torn: bool)

  function NumberOf(s: Standing): nat {
    if s.Present? then s.number else 0
  }

  predicate TornBy(s: Standing) {
    s.Present? && s.torn
  }

  function AfterBuild(s: Standing, outcome: BuildOutcome): Standing {
    if outcome.Built? then Present(Ready, NumberOf(s) + 1, TornBy(s))
    else Present(if s.Present? && s.state == Ready then Ready else Failed, NumberOf(s), TornBy(s))
  }

  // A build that was running when the process died: the function is ready with its old revision, or failed.
  function Interrupted(s: Standing): Standing {
    Present(if NumberOf(s) > 0 then Ready else Failed, NumberOf(s), TornBy(s))
  }

  function LeftBuilding(s: Standing): Standing {
    Present(Building, NumberOf(s), TornBy(s))
  }

  // `lost`: whether a restart cut short took away the sign that the build was interrupted.
  function AfterCutBuild(s: Standing, outcome: BuildOutcome, phase: Phase, lost: bool): Standing {
    match phase
    case Untouched => s
    case Announced => LeftBuilding(s)
    case BuildRunning => if lost then LeftBuilding(s) else Interrupted(s)
    case BuildFinished => LeftBuilding(s)
    case Complete => AfterBuild(s, outcome)
  }

  function AfterCutImage(s: Standing, k: nat, leftover: bool): Standing {
    if k == 0 then s
    else Present(Ready, NumberOf(s) + 1, TornBy(s) || (k == 1 && !leftover))
  }

  function AfterCutRemove(s: Standing, k: nat): Standing {
    if s.Absent? || k == 0 then s
    else if k <= 2 then s.(state := Deleting)
    else Absent
  }

  // `leftover`: whether the revision the name would number next is stored, left from an earlier life.
  function AfterCut(s: Standing, f: InFlight, leftover: bool, lost: bool): Standing {
    match f.op
    case Deploy(_, _, _, outcome, _) => AfterCutBuild(s, outcome, PhaseAt(outcome, f.k), lost)
    case DeployImage(_, _) => AfterCutImage(s, f.k, leftover)
    case Remove(_, _) => AfterCutRemove(s, f.k)
    case _ => s
  }

  function AfterDone(s: Standing, op: Op): Standing {
    match op
    case Deploy(_, _, _, outcome, _) => AfterBuild(s, outcome)
    case DeployImage(_, _) => Present(Ready, NumberOf(s) + 1, TornBy(s))
    case Remove(_, _) => Absent
    case _ => s
  }

  function StandingAfter(s: Standing, e: Event, n: Name, leftover: bool, lost: bool): Standing {
    match e
    case Done(op) => if Concerns(op, n) then AfterDone(s, op) else s
    case Cut(cuts, _, _, _) => if n in cuts then AfterCut(s, cuts[n], leftover, lost) else s
  }

  // Whether one of the restarts was cut right after it failed the only running build of `n`.
  ghost predicate MarkLost(w: World, tries: seq<Try>, n: Name)
    requires CanTryAll(w, tries)
    decreases tries
  {
    tries != [] && (LosesMark(w, tries[0], n) || MarkLost(Tried(w, tries[0]), tries[1..], n))
  }

  ghost predicate LostIn(w: World, e: Event, n: Name)
    requires CanHappen(w, e)
  {
    e.Cut? && MarkLost(DoAll(w, e.writes), e.tries, n)
  }

  ghost function StandingOf(events: seq<Event>, n: Name): Standing
    requires CanReach(events)
    decreases events
  {
    if events == [] then Absent
    else
      var before, e := events[..|events| - 1], events[|events| - 1];
      StandingAfter(StandingOf(before, n), e, n, Leftover(Reached(before), n), LostIn(Reached(before), e, n))
  }

  // ---------- The invariant ----------

  // A pool exists exactly for what can be served, and runs the current revision.
  predicate Pooled(w: World, n: Name) {
    && (n in w.pools <==> Serving(w, n).Some?)
    && (n in w.pools ==> w.pools[n].template == CurrentNumber(w, n))
  }

  predicate Recorded(w: World, n: Name, s: Standing) {
    match s
    case Absent => n !in w.functions
    case Present(state, number, _) =>
      && n in w.functions && w.functions[n].state == state && CurrentNumber(w, n) == number
      && (w.functions[n].currentRevision.Some? <==> number > 0)
      && Backfilled(w.functions[n]) == w.functions[n]
  }

  // What holds of a name between a crash and the restart that completes: no build of it runs any more, ...
  ghost predicate Rests(w: World, n: Name, s: Standing) {
    !HasRunningBuild(w, n) && Recorded(w, n, s) && (!TornBy(s) ==> Whole(w, n))
  }

  // ... or one does, and its record says so.
  ghost predicate Waits(w: World, n: Name, id: BuildId, s: Standing) {
    && OnlyRunning(w, n, id) && Recorded(w, n, LeftBuilding(s)) && (!TornBy(s) ==> Whole(w, n))
  }

  predicate OnlyRunning(w: World, n: Name, id: BuildId) {
    && id in w.builds && w.builds[id].status == Running && w.builds[id].functionName == n
    && forall other <- w.builds ::
         w.builds[other].status == Running && w.builds[other].functionName == n ==> other == id
  }

  ghost predicate StandsAs(w: World, n: Name, s: Standing) {
    Rests(w, n, s) && Pooled(w, n)
  }

  // Unknown, ready with a revision, or failed without one.
  predicate DecidedStanding(s: Standing) {
    s.Present? ==> (s.state == Ready && s.number > 0) || (s.state == Failed && s.number == 0)
  }

  lemma StandingSettled(w: World, n: Name, s: Standing)
    requires StandsAs(w, n, s)
    ensures Settled(w, n) <==> DecidedStanding(s) && Whole(w, n)
  {
    if Whole(w, n) && s.Present? && s.state == Ready && s.number > 0 {
      assert (n, s.number) in w.revisions;
    }
  }

  lemma RestsInSlice(w: World, v: World, n: Name, s: Standing)
    requires SameSlice(w, v, n) && Rests(w, n, s)
    ensures Rests(v, n, s)
  {
    SliceOfWhole(w, v, n);
  }

  lemma WaitsInSlice(w: World, v: World, n: Name, id: BuildId, s: Standing)
    requires SameSlice(w, v, n) && Waits(w, n, id, s)
    ensures Waits(v, n, id, s)
  {
    SliceOfWhole(w, v, n);
    assert OwnsBuild(w, id, n) && OwnsBuild(v, id, n);
    forall other <- v.builds | v.builds[other].status == Running && v.builds[other].functionName == n
      ensures other == id
    {
      assert OwnsBuild(v, other, n) && OwnsBuild(w, other, n);
    }
  }

  lemma StandsInSlice(w: World, v: World, n: Name, s: Standing)
    requires SameSlice(w, v, n) && StandsAs(w, n, s)
    ensures StandsAs(v, n, s)
  {
    RestsInSlice(w, v, n, s);
    assert Serving(v, n) == Serving(w, n);
  }

  // A restart keeps the standing of a name with no running build, and gives it the pool it should have.
  lemma RestartStands(w: World, n: Name, s: Standing, stuck: set<RevisionKey>)
    requires KeysMatch(w) && Rests(w, n, s)
    ensures StandsAs(Restarted(w, stuck), n, s)
  {
    RestartedAt(w, n, stuck);
    RestartedPool(w, n, stuck);
    RestartKeepsWhole(w, n, stuck);
  }

  lemma RestartInterrupts(w: World, n: Name, id: BuildId, s: Standing, stuck: set<RevisionKey>)
    requires KeysMatch(w) && Waits(w, n, id, s)
    ensures StandsAs(Restarted(w, stuck), n, Interrupted(s))
  {
    RestartedAt(w, n, stuck);
    RestartedPool(w, n, stuck);
    RestartKeepsWhole(w, n, stuck);
  }

  // ---------- Restarts cut short ----------

  // What a cut of a restart keeps of a name: state and number, the backfill, and all its revisions.
  ghost predicate Keeps(w: World, c: World, n: Name) {
    && (n in c.functions <==> n in w.functions)
    && (n in w.functions && n in c.functions ==>
          && c.functions[n].state == w.functions[n].state
          && c.functions[n].currentRevision == w.functions[n].currentRevision
          && (Backfilled(w.functions[n]) == w.functions[n] ==> Backfilled(c.functions[n]) == c.functions[n]))
    && (Whole(w, n) ==> Whole(c, n))
  }

  lemma SameRevisionsWhole(w: World, c: World, n: Name)
    requires c.revisions == w.revisions && c.dirs == w.dirs && c.functions.Keys == w.functions.Keys
    requires n in w.functions ==> c.functions[n].currentRevision == w.functions[n].currentRevision
    ensures Whole(w, n) ==> Whole(c, n)
  {
    if Whole(w, n) {
      forall k: nat | 1 <= k <= CurrentNumber(c, n) ensures (n, k) in c.revisions && Retained(c, n, k) {
        assert (n, k) in w.revisions && Retained(w, n, k);
      }
    }
  }

  lemma KeptRecord(w: World, c: World, n: Name, s: Standing)
    requires Keeps(w, c, n) && Recorded(w, n, s) && (!TornBy(s) ==> Whole(w, n))
    ensures Recorded(c, n, s) && (!TornBy(s) ==> Whole(c, n))
  {
  }

  // Through the first pass ...
  lemma BackfillKeeps(w: World, c: World, n: Name, s: Standing)
    requires KeysMatch(w) && BackfilledPartly(Crash(w), c) && Recorded(w, n, s) && (!TornBy(s) ==> Whole(w, n))
    ensures KeysMatch(c) && c.builds == w.builds && Recorded(c, n, s) && (!TornBy(s) ==> Whole(c, n))
  {
    SameRevisionsWhole(w, c, n);
    KeptRecord(w, c, n, s);
  }

  // ... through the second, for the builds `done` ...
  lemma InterruptRests(w: World, done: set<BuildId>, n: Name, s: Standing)
    requires KeysMatch(w) && Rests(w, n, s)
    ensures KeysMatch(InterruptAll(Backfilling(w), done)) && Rests(InterruptAll(Backfilling(w), done), n, s)
  {
    var c := InterruptAll(Backfilling(w), done);
    assert !InterruptedBy(w, n, done) && !HasRunningBuild(c, n);
    SameRevisionsWhole(w, c, n);
    KeptRecord(w, c, n, s);
  }

  lemma InterruptWaits(w: World, done: set<BuildId>, n: Name, id: BuildId, s: Standing)
    requires KeysMatch(w) && Waits(w, n, id, s)
    ensures var c := InterruptAll(Backfilling(w), done);
            KeysMatch(c) && if id in done then Rests(c, n, Interrupted(s)) else Waits(c, n, id, s)
  {
    var c := InterruptAll(Backfilling(w), done);
    assert InterruptedBy(w, n, done) <==> id in done;
    SameRevisionsWhole(w, c, n);
    if id in done {
      assert !HasRunningBuild(c, n);
    } else {
      KeptRecord(w, c, n, LeftBuilding(s));
      assert OnlyRunning(c, n, id);
    }
  }

  // ... for one more build that is failed and nothing else ...
  lemma FailedRests(u: World, other: BuildId, n: Name, s: Standing)
    requires KeysMatch(u) && other in u.builds && Rests(u, n, s)
    ensures KeysMatch(WithFailed(u, other)) && Rests(WithFailed(u, other), n, s)
  {
    assert !HasRunningBuild(WithFailed(u, other), n);
    SameRevisionsWhole(u, WithFailed(u, other), n);
  }

  lemma FailedWaits(u: World, other: BuildId, n: Name, id: BuildId, s: Standing)
    requires KeysMatch(u) && other in u.builds && Waits(u, n, id, s)
    ensures var c := WithFailed(u, other);
            KeysMatch(c) && if other == id then Rests(c, n, LeftBuilding(s)) else Waits(c, n, id, s)
  {
    var c := WithFailed(u, other);
    SameRevisionsWhole(u, c, n);
    if other == id {
      assert !HasRunningBuild(c, n);
    } else {
      assert OnlyRunning(c, n, id);
    }
  }

  // ... and through the third.
  lemma RepoolRests(u: World, c: World, n: Name, names: set<Name>, stuck: set<RevisionKey>, s: Standing)
    requires KeysMatch(u) && PrunedInPart(u, c, RepoolTargets(u, names, stuck)) && ServesAlike(u, c) && Rests(u, n, s)
    ensures KeysMatch(c) && Rests(c, n, s)
  {
    if Whole(u, n) {
      forall k: nat | 1 <= k <= CurrentNumber(c, n) ensures (n, k) in c.revisions && Retained(c, n, k) {
        assert (n, k) in u.revisions && Retained(u, n, k);
      }
    }
    KeptRecord(u, c, n, s);
  }

  // A name without a running build rests through it all.
  lemma TryRests(w: World, t: Try, n: Name, s: Standing)
    requires KeysMatch(w) && CanTry(w, t) && Rests(w, n, s)
    ensures KeysMatch(Tried(w, t)) && Rests(Tried(w, t), n, s) && !LosesMark(w, t, n)
  {
    if InSecond(w, t) < 0 {
      NoMarkLost(w, t, n);
      FirstShape(w, t);
      BackfillKeeps(w, Tried(w, t), n, s);
    } else if InThird(w, t) < 0 {
      var i, j := SecondShape(w, t);
      InterruptRests(w, ToSet(t.ids[..i]), n, s);
      FailedRests(InterruptAll(Backfilling(w), ToSet(t.ids[..i])), t.ids[i], n, s);
    } else {
      NoMarkLost(w, t, n);
      ThirdShape(w, t);
      InterruptRests(w, w.builds.Keys, n, s);
      RepoolRests(Interrupting(w), Tried(w, t), n, w.functions.Keys, t.stuck, s);
    }
  }

  // One with a running build waits on, or is interrupted, or has lost its mark.
  lemma TryWaits(w: World, t: Try, n: Name, id: BuildId, s: Standing)
    requires KeysMatch(w) && CanTry(w, t) && Waits(w, n, id, s)
    ensures KeysMatch(Tried(w, t))
    ensures LosesMark(w, t, n) ==> Rests(Tried(w, t), n, LeftBuilding(s))
    ensures !LosesMark(w, t, n) ==> Waits(Tried(w, t), n, id, s) || Rests(Tried(w, t), n, Interrupted(s))
  {
    if InSecond(w, t) < 0 {
      NoMarkLost(w, t, n);
      FirstShape(w, t);
      BackfillKeeps(w, Tried(w, t), n, LeftBuilding(s));
    } else if InThird(w, t) < 0 {
      var i, j := SecondShape(w, t);
      SecondWaits(w, t, n, id, s, i, j);
    } else {
      NoMarkLost(w, t, n);
      ThirdShape(w, t);
      InterruptWaits(w, w.builds.Keys, n, id, s);
      RepoolRests(Interrupting(w), Tried(w, t), n, w.functions.Keys, t.stuck, Interrupted(s));
    }
  }

  lemma SecondWaits(w: World, t: Try, n: Name, id: BuildId, s: Standing, i: nat, j: nat)
    requires KeysMatch(w) && CanTry(w, t) && Waits(w, n, id, s) && SecondShaped(w, t, i, j)
    ensures KeysMatch(Tried(w, t))
    ensures if j == 1 && OnlySign(Backfilling(w), t.ids[i]) && w.builds[t.ids[i]].functionName == n
            then Rests(Tried(w, t), n, LeftBuilding(s))
            else Waits(Tried(w, t), n, id, s) || Rests(Tried(w, t), n, Interrupted(s))
  {
    var done, other := ToSet(t.ids[..i]), t.ids[i];
    InterruptWaits(w, done, n, id, s);
    assert w.builds[other].functionName == n ==> other == id;
    if id in done {
      FailedRests(InterruptAll(Backfilling(w), done), other, n, Interrupted(s));
    } else {
      WaitingSign(w, n, id, s);
      FailedWaits(InterruptAll(Backfilling(w), done), other, n, id, s);
    }
  }

  // The running build of a name that waits is the only sign there is.
  lemma WaitingSign(w: World, n: Name, id: BuildId, s: Standing)
    requires Waits(w, n, id, s)
    ensures OnlySign(Backfilling(w), id)
  {
  }

  lemma {:induction false} TriesRest(w: World, tries: seq<Try>, n: Name, s: Standing)
    requires KeysMatch(w) && CanTryAll(w, tries) && Rests(w, n, s)
    ensures KeysMatch(TriedAll(w, tries)) && Rests(TriedAll(w, tries), n, s) && !MarkLost(w, tries, n)
    decreases tries
  {
    if tries != [] {
      TryRests(w, tries[0], n, s);
      TriesRest(Tried(w, tries[0]), tries[1..], n, s);
    }
  }

  lemma {:induction false} TriesWait(w: World, tries: seq<Try>, n: Name, id: BuildId, s: Standing)
    requires KeysMatch(w) && CanTryAll(w, tries) && Waits(w, n, id, s)
    ensures KeysMatch(TriedAll(w, tries))
    ensures MarkLost(w, tries, n) ==> Rests(TriedAll(w, tries), n, LeftBuilding(s))
    ensures !MarkLost(w, tries, n) ==>
              Waits(TriedAll(w, tries), n, id, s) || Rests(TriedAll(w, tries), n, Interrupted(s))
    decreases tries
  {
    if tries != [] {
      var v := Tried(w, tries[0]);
      TryWaits(w, tries[0], n, id, s);
      if LosesMark(w, tries[0], n) {
        TriesRest(v, tries[1..], n, LeftBuilding(s));
      } else if Waits(v, n, id, s) {
        TriesWait(v, tries[1..], n, id, s);
      } else {
        TriesRest(v, tries[1..], n, Interrupted(s));
      }
    }
  }

  // However many restarts were cut, the one that completes finds the name as the crash left it ...
  lemma RestStands(w: World, tries: seq<Try>, n: Name, s: Standing, stuck: set<RevisionKey>)
    requires KeysMatch(w) && CanTryAll(w, tries) && Rests(w, n, s)
    ensures KeysMatch(Restarted(TriedAll(w, tries), stuck))
    ensures StandsAs(Restarted(TriedAll(w, tries), stuck), n, s)
  {
    TriesRest(w, tries, n, s);
    RestartedAt(TriedAll(w, tries), n, stuck);
    RestartStands(TriedAll(w, tries), n, s, stuck);
  }

  // ... and a running build interrupts it, unless one of them lost its mark.
  lemma WaitStands(w: World, tries: seq<Try>, n: Name, id: BuildId, s: Standing, stuck: set<RevisionKey>)
    requires KeysMatch(w) && CanTryAll(w, tries) && Waits(w, n, id, s)
    ensures KeysMatch(Restarted(TriedAll(w, tries), stuck))
    ensures StandsAs(Restarted(TriedAll(w, tries), stuck), n,
                     if MarkLost(w, tries, n) then LeftBuilding(s) else Interrupted(s))
  {
    var v := TriedAll(w, tries);
    TriesWait(w, tries, n, id, s);
    RestartedAt(v, n, stuck);
    if MarkLost(w, tries, n) {
      RestartStands(v, n, LeftBuilding(s), stuck);
    } else if Waits(v, n, id, s) {
      RestartInterrupts(v, n, id, s, stuck);
    } else {
      RestartStands(v, n, Interrupted(s), stuck);
    }
  }

  // ---------- Source registrations ----------

  lemma CutWaits(
    w: World, req: Request, id: BuildId, mode: BuildMode, outcome: BuildOutcome, stuck: set<RevisionKey>, k: nat,
    s: Standing)
    requires KeysMatch(w) && StandsAs(w, req.name, s) && id !in w.builds && req.runtime.Some?
    requires k <= |SourceWrites(w, req, id, mode, outcome, stuck)| && PhaseAt(outcome, k) == BuildRunning
    requires CutState(w, req, outcome, k, DoAll(w, SourceWrites(w, req, id, mode, outcome, stuck)[..k]))
    ensures Waits(DoAll(w, SourceWrites(w, req, id, mode, outcome, stuck)[..k]), req.name, id, s)
  {
    if outcome.Built? {
      BuiltPrefix(w, req, id, mode, stuck, k);
    } else {
      FailedPrefix(w, req, id, mode, outcome, stuck, k);
    }
    BuildPrefix(w, req, id, outcome, k);
  }

  lemma CutRests(w: World, req: Request, outcome: BuildOutcome, k: nat, cut: World, s: Standing)
    requires StandsAs(w, req.name, s) && req.runtime.Some? && CutState(w, req, outcome, k, cut)
    requires PhaseAt(outcome, k) != BuildRunning
    ensures Rests(cut, req.name, AfterCutBuild(s, outcome, PhaseAt(outcome, k), false))
  {
  }

  lemma CutSource(
    w: World, req: Request, id: BuildId, mode: BuildMode, outcome: BuildOutcome, stuck: set<RevisionKey>, k: nat,
    s: Standing)
    requires KeysMatch(w) && StandsAs(w, req.name, s) && id !in w.builds && req.runtime.Some?
    requires k <= |SourceWrites(w, req, id, mode, outcome, stuck)|
    ensures var cut := DoAll(w, SourceWrites(w, req, id, mode, outcome, stuck)[..k]);
            KeysMatch(cut)
            && if PhaseAt(outcome, k) == BuildRunning then Waits(cut, req.name, id, s)
               else Rests(cut, req.name, AfterCutBuild(s, outcome, PhaseAt(outcome, k), false))
  {
    SourceCutState(w, req, id, mode, outcome, stuck, k);
    if PhaseAt(outcome, k) == BuildRunning {
      CutWaits(w, req, id, mode, outcome, stuck, k, s);
    } else {
      CutRests(w, req, outcome, k, DoAll(w, SourceWrites(w, req, id, mode, outcome, stuck)[..k]), s);
    }
  }

  lemma BuiltStands(w: World, req: Request, id: BuildId, mode: BuildMode, stuck: set<RevisionKey>, s: Standing)
    requires KeysMatch(w) && StandsAs(w, req.name, s) && id !in w.builds && req.runtime.Some?
    ensures StandsAs(DoAll(w, SourceWrites(w, req, id, mode, Built, stuck)), req.name, AfterBuild(s, Built))
  {
    var n, stored, r := req.name, Stored(w, req, id, mode), SourceRevision(w, req, mode);
    var v := DoAll(w, SourceWrites(w, req, id, mode, Built, stuck));
    BuiltCut(w, req, id, mode, stuck);
    BuiltWorld(w, req, id, mode, stuck);
    assert (n, r.number) !in Targets(stored, n, 1, PruneEnd(r.number), stuck);
    assert Serving(v, n) == Some(r);
  }

  lemma FailedStands(
    w: World, req: Request, id: BuildId, mode: BuildMode, outcome: BuildOutcome, stuck: set<RevisionKey>, s: Standing)
    requires KeysMatch(w) && StandsAs(w, req.name, s) && id !in w.builds && req.runtime.Some? && outcome.NotBuilt?
    ensures StandsAs(DoAll(w, SourceWrites(w, req, id, mode, outcome, stuck)), req.name, AfterBuild(s, outcome))
  {
    var xs := SourceWrites(w, req, id, mode, outcome, stuck);
    assert xs[..|xs|] == xs;
    BuildPrefix(w, req, id, outcome, BuildLength(outcome));
    FailedPrefix(w, req, id, mode, outcome, stuck, |xs|);
    FailedCutState(w, req, id, mode, outcome, stuck, |xs|);
    var v := DoAll(w, xs);
    assert Serving(v, req.name) == Serving(w, req.name);
  }

  // ---------- Image registrations ----------

  lemma CutImageRests(w: World, req: Request, k: nat, cut: World, s: Standing)
    requires StandsAs(w, req.name, s) && req.source.Image? && ImageCut(w, req, k, cut)
    ensures Rests(cut, req.name, AfterCutImage(s, k, Leftover(w, req.name)))
  {
  }

  lemma ImageStands(w: World, req: Request, stuck: set<RevisionKey>, s: Standing)
    requires KeysMatch(w) && StandsAs(w, req.name, s) && req.source.Image?
    ensures StandsAs(DoAll(w, ImageWrites(w, req, stuck)), req.name, Present(Ready, NumberOf(s) + 1, TornBy(s)))
  {
    var n, stored, r := req.name, ImageStored(w, req), ImageRevision(w, req);
    var v := DoAll(w, ImageWrites(w, req, stuck));
    ImageWorld(w, req, stuck);
    assert (n, r.number) !in Targets(stored, n, 1, PruneEnd(r.number), stuck);
    assert Serving(v, n) == Some(r);
  }

  // ---------- Deletions ----------

  lemma CutRemoveRests(w: World, n: Name, k: nat, cut: World, s: Standing)
    requires StandsAs(w, n, s) && DeleteCut(w, n, k, cut)
    ensures Rests(cut, n, AfterCutRemove(s, k))
  {
    DeletedWhole(w, cut, n, k);
  }

  // ---------- Operations cut together ----------

  lemma WrittenByOwner(w: World, cuts: map<Name, InFlight>, writes: seq<Write>, x: Write)
    requires KeysMatch(w) && CanCut(w, cuts, writes) && x in writes
    ensures Owner(x) in cuts && (x.PutBuild? ==> OpBuild(cuts[Owner(x)].op) == Some(x.build.id))
  {
    InOnly(writes, x);
    assert x in WrittenFor(w, cuts, Owner(x));
    OpOwn(w, cuts[Owner(x)].op);
  }

  lemma CutOwnBuilds(w: World, cuts: map<Name, InFlight>, writes: seq<Write>)
    requires KeysMatch(w) && CanCut(w, cuts, writes)
    ensures OwnBuilds(w, writes)
  {
    forall x <- writes ensures OwnBuild(w, x) {
      WrittenByOwner(w, cuts, writes, x);
    }
    forall x <- writes, y <- writes | x.PutBuild? && y.PutBuild? && x.build.id == y.build.id
      ensures Owner(x) == Owner(y)
    {
      WrittenByOwner(w, cuts, writes, x);
      WrittenByOwner(w, cuts, writes, y);
    }
  }

  /**
   However the writes of the operations cut by a crash were interleaved, each name is left as if its own
   operation had been cut alone, and a name with none as it was.
   */
  lemma CutTogether(w: World, cuts: map<Name, InFlight>, writes: seq<Write>, n: Name)
    requires KeysMatch(w) && CanCut(w, cuts, writes)
    ensures SameSlice(DoAll(w, WrittenFor(w, cuts, n)), DoAll(w, writes), n)
  {
    CutOwnBuilds(w, cuts, writes);
    OnlyMembers(writes, n);
    NamesAreIndependent(w, w, writes, n);
  }

  // ---------- One event ----------

  lemma OwnDoneStands(w: World, op: Op, n: Name, s: Standing)
    requires KeysMatch(w) && CanDo(w, op) && Concerns(op, n) && StandsAs(w, n, s)
    ensures StandsAs(Perform(w, op), n, AfterDone(s, op))
  {
    match op {
      case Deploy(req, id, mode, outcome, stuck) =>
        if outcome.Built? {
          BuiltStands(w, req, id, mode, stuck, s);
        } else {
          FailedStands(w, req, id, mode, outcome, stuck, s);
        }
      case DeployImage(req, stuck) => ImageStands(w, req, stuck, s);
      case Remove(m, gone) => RemoveComplete(w, m, gone);
    }
  }

  predicate WhileBuilding(f: InFlight) {
    f.op.Deploy? && PhaseAt(f.op.outcome, f.k) == BuildRunning
  }

  lemma AfterCutCases(s: Standing, f: InFlight, leftover: bool, lost: bool)
    ensures AfterCut(s, f, leftover, lost)
         == if !WhileBuilding(f) then AfterCut(s, f, leftover, false)
            else if lost then LeftBuilding(s) else Interrupted(s)
  {
  }

  // What a cut operation leaves of its own name.
  ghost predicate LeftAs(cut: World, n: Name, f: InFlight, leftover: bool, s: Standing) {
    if WhileBuilding(f) then Waits(cut, n, f.op.id, s)
    else Rests(cut, n, AfterCut(s, f, leftover, false))
  }

  lemma LeavesImage(w: World, req: Request, stuck: set<RevisionKey>, k: nat, s: Standing)
    requires KeysMatch(w) && req.source.Image? && k <= |ImageWrites(w, req, stuck)| && StandsAs(w, req.name, s)
    ensures Rests(DoAll(w, ImageWrites(w, req, stuck)[..k]), req.name, AfterCutImage(s, k, Leftover(w, req.name)))
  {
    ImageCutState(w, req, stuck, k);
    CutImageRests(w, req, k, DoAll(w, ImageWrites(w, req, stuck)[..k]), s);
  }

  lemma LeavesRemove(w: World, n: Name, gone: seq<RevisionKey>, k: nat, s: Standing)
    requires KeysMatch(w) && k <= |DeleteWrites(w, n, gone)| && StandsAs(w, n, s)
    ensures Rests(DoAll(w, DeleteWrites(w, n, gone)[..k]), n, AfterCutRemove(s, k))
  {
    if n in w.functions {
      DeletePrefixCut(w, n, gone, k);
      CutRemoveRests(w, n, k, DoAll(w, DeleteWrites(w, n, gone)[..k]), s);
    }
  }

  lemma Leaves(w: World, n: Name, f: InFlight, s: Standing)
    requires KeysMatch(w) && CanBeCut(w, n, f) && StandsAs(w, n, s)
    ensures LeftAs(DoAll(w, WritesOf(w, f.op)[..f.k]), n, f, Leftover(w, n), s)
  {
    match f.op {
      case Deploy(req, id, mode, outcome, stuck) => CutSource(w, req, id, mode, outcome, stuck, f.k, s);
      case DeployImage(req, stuck) => LeavesImage(w, req, stuck, f.k, s);
      case Remove(m, gone) => LeavesRemove(w, m, gone, f.k, s);
    }
  }

  lemma LeftInSlice(w: World, v: World, n: Name, f: InFlight, leftover: bool, s: Standing)
    requires SameSlice(w, v, n) && LeftAs(w, n, f, leftover, s)
    ensures LeftAs(v, n, f, leftover, s)
  {
    if WhileBuilding(f) {
      WaitsInSlice(w, v, n, f.op.id, s);
    } else {
      RestsInSlice(w, v, n, AfterCut(s, f, leftover, false));
    }
  }

  lemma LeftStands(
    cut: World, n: Name, f: InFlight, leftover: bool, tries: seq<Try>, stuck: set<RevisionKey>, s: Standing)
    requires KeysMatch(cut) && CanTryAll(cut, tries) && LeftAs(cut, n, f, leftover, s)
    ensures var v := Restarted(TriedAll(cut, tries), stuck);
            KeysMatch(v) && StandsAs(v, n, AfterCut(s, f, leftover, MarkLost(cut, tries, n)))
  {
    AfterCutCases(s, f, leftover, MarkLost(cut, tries, n));
    if WhileBuilding(f) {
      WaitStands(cut, tries, n, f.op.id, s, stuck);
    } else {
      RestStands(cut, tries, n, AfterCut(s, f, leftover, false), stuck);
    }
  }

  lemma OwnCutStands(w: World, e: Event, n: Name, s: Standing)
    requires KeysMatch(w) && e.Cut? && CanHappen(w, e) && n in e.cuts && StandsAs(w, n, s)
    ensures KeysMatch(Next(w, e))
    ensures StandsAs(Next(w, e), n, AfterCut(s, e.cuts[n], Leftover(w, n), LostIn(w, e, n)))
  {
    var f, cut := e.cuts[n], DoAll(w, e.writes);
    KeysAfter(w, e.writes);
    CutTogether(w, e.cuts, e.writes, n);
    Leaves(w, n, f, s);
    LeftInSlice(DoAll(w, WrittenFor(w, e.cuts, n)), cut, n, f, Leftover(w, n), s);
    LeftStands(cut, n, f, Leftover(w, n), e.tries, e.stuckLater, s);
  }

  lemma OtherCutStands(w: World, e: Event, n: Name, s: Standing)
    requires KeysMatch(w) && e.Cut? && CanHappen(w, e) && n !in e.cuts && StandsAs(w, n, s)
    ensures KeysMatch(Next(w, e)) && StandsAs(Next(w, e), n, s)
  {
    KeysAfter(w, e.writes);
    CutTogether(w, e.cuts, e.writes, n);
    RestsInSlice(w, DoAll(w, e.writes), n, s);
    RestStands(DoAll(w, e.writes), e.tries, n, s, e.stuckLater);
  }

  lemma OtherDoneStands(w: World, op: Op, n: Name, s: Standing)
    requires KeysMatch(w) && CanDo(w, op) && !Concerns(op, n) && StandsAs(w, n, s)
    ensures StandsAs(Perform(w, op), n, s)
  {
    if op.Restart? {
      RestartStands(w, n, s, op.stuck);
    } else if !op.Reject? {
      CompletedKeys(w, op);
      OthersUntouched(w, WritesOf(w, op), OpName(op), n);
      StandsInSlice(w, Perform(w, op), n, s);
    }
  }

  lemma DoneKeys(w: World, op: Op, n: Name)
    requires KeysMatch(w) && CanDo(w, op)
    ensures KeysMatch(Perform(w, op))
  {
    KeysAfter(w, WritesOf(w, op));
    if op.Restart? {
      RestartedAt(w, n, op.stuck);
    }
  }

  lemma EventStands(w: World, e: Event, n: Name, s: Standing)
    requires KeysMatch(w) && CanHappen(w, e) && StandsAs(w, n, s)
    ensures KeysMatch(Next(w, e))
    ensures StandsAs(Next(w, e), n, StandingAfter(s, e, n, Leftover(w, n), LostIn(w, e, n)))
  {
    match e {
      case Done(op) =>
        DoneKeys(w, op, n);
        if Concerns(op, n) {
          OwnDoneStands(w, op, n, s);
        } else {
          OtherDoneStands(w, op, n, s);
        }
      case Cut(cuts, _, _, _) =>
        if n in cuts {
          OwnCutStands(w, e, n, s);
        } else {
          OtherCutStands(w, e, n, s);
        }
    }
  }

  // ---------- Whole histories ----------

  lemma {:induction false} HistoryStands(events: seq<Event>, n: Name)
    requires CanReach(events)
    ensures KeysMatch(Reached(events)) && StandsAs(Reached(events), n, StandingOf(events, n))
    decreases events
  {
    if events != [] {
      var before := events[..|events| - 1];
      HistoryStands(before, n);
      EventStands(Reached(before), events[|events| - 1], n, StandingOf(before, n));
    }
  }

  /**
   After any history of completed operations and of crashes, each cutting any operations on different names
   anywhere and followed by restarts, cut anywhere too but for the last: no build is running; each name's
   record is as its own history says; a pool exists exactly for what can be served and runs the current
   revision; every name that was not torn has all its revisions; and a name is settled exactly if it is
   unknown, ready with a revision or failed without one, and has all of them.
   */
  lemma CrashHistory(events: seq<Event>, n: Name)
    requires CanReach(events)
    ensures var w, s := Reached(events), StandingOf(events, n);
            && KeysMatch(w) && !HasRunningBuild(w, n) && Pooled(w, n) && Recorded(w, n, s)
            && (!TornBy(s) ==> Whole(w, n))
            && (Settled(w, n) <==> DecidedStanding(s) && Whole(w, n))
  {
    HistoryStands(events, n);
    StandingSettled(Reached(events), n, StandingOf(events, n));
  }
}
