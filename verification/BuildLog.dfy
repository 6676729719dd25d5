/**
 Following a build's log file while the build writes it: the follower reads what is new, and ends the
 stream when a read finds nothing and the last status it saw says the build is over.  Appends, the end
 of the build, reads and status checks interleave in any way.
 */
module BuildLog {
  import opened RegistryModel

  type Bytes = seq<bv8>

  // ---------- One read ----------

  datatype Chunk = Chunk(bytes: Bytes, offset: nat)

  // A read that fails (no file yet, or an I/O error) is as if there were nothing new.
  function ReadNewBytes(log: Bytes, ok: bool, offset: nat): Chunk {
    if ok && offset <= |log| then Chunk(log[offset..], |log|) else Chunk([], offset)
  }

  // ---------- The stream as a machine ----------

  datatype Control = Reading | Rechecking | Ended

  // `chunks` is what the stream has yielded; `seen` is the last status the follower knows.
  datatype Follow = Follow(
    log: Bytes,
    status: BuildStatus,
    offset: nat,
    seen: BuildStatus,
    control: Control,
    chunks: seq<Bytes>)

  datatype Event = Append(bytes: Bytes) | Finish(status: BuildStatus) | Read(ok: bool) | Recheck(ok: bool)

  // The build's status is read before the stream begins.
  function Start(log: Bytes, status: BuildStatus): Follow {
    Follow(log, status, 0, status, Reading, [])
  }

  // The builder writes no more once its build is over.
  predicate Enabled(s: Follow, e: Event) {
    match e
    case Append(_) => s.status == Running
    case Finish(status) => s.status == Running && status != Running
    case Read(_) => s.control == Reading
    case Recheck(_) => s.control == Rechecking
  }

  function Next(s: Follow, e: Event): Follow
    requires Enabled(s, e)
  {
    match e
    case Append(bytes) => s.(log := s.log + bytes)
    case Finish(status) => s.(status := status)
    case Read(ok) =>
      var read := ReadNewBytes(s.log, ok, s.offset);
      if read.bytes != [] then s.(offset := read.offset, chunks := s.chunks + [read.bytes])
      else s.(control := if s.seen == Running then Rechecking else Ended)
    case Recheck(ok) => s.(control := Reading, seen := if ok then s.status else s.seen)
  }

  predicate CanRun(s: Follow, events: seq<Event>)
    decreases events
  {
    events == [] || (Enabled(s, events[0]) && CanRun(Next(s, events[0]), events[1..]))
  }

  function Run(s: Follow, events: seq<Event>): Follow
    requires CanRun(s, events)
    decreases events
  {
    if events == [] then s else Run(Next(s, events[0]), events[1..])
  }

  function Joined(chunks: seq<Bytes>): Bytes {
    if chunks == [] then [] else Joined(chunks[..|chunks| - 1]) + chunks[|chunks| - 1]
  }

  predicate AllNonEmpty(chunks: seq<Bytes>) {
    forall c <- chunks :: c != []
  }

  // What was yielded is a prefix of the log; an ended build's status is never seen before it ended.
  ghost predicate Exact(s: Follow) {
    && s.offset <= |s.log| && Joined(s.chunks) == s.log[..s.offset] && AllNonEmpty(s.chunks)
    && (s.seen != Running ==> s.status != Running)
    && (s.control == Ended ==> s.seen != Running)
  }

  lemma ExactNext(s: Follow, e: Event)
    requires Exact(s) && Enabled(s, e)
    ensures Exact(Next(s, e))
  {
    var t := Next(s, e);
    match e {
      case Append(bytes) =>
        assert t.log[..s.offset] == s.log[..s.offset];
      case Read(ok) =>
        if t.chunks != s.chunks {
          assert t.chunks[..|t.chunks| - 1] == s.chunks;
          assert s.log[..s.offset] + s.log[s.offset..] == s.log[..|s.log|];
        }
      case _ =>
    }
  }

  lemma {:induction false} ExactRun(s: Follow, events: seq<Event>)
    requires Exact(s) && CanRun(s, events)
    ensures Exact(Run(s, events))
    decreases events
  {
    if events != [] {
      ExactNext(s, events[0]);
      ExactRun(Next(s, events[0]), events[1..]);
    }
  }

  // In every interleaving the chunks so far join to the log's first `offset` bytes: no gap, no repeat.
  lemma YieldedIsPrefix(log: Bytes, status: BuildStatus, events: seq<Event>)
    requires CanRun(Start(log, status), events)
    ensures var s := Run(Start(log, status), events);
            s.offset <= |s.log| && Joined(s.chunks) == s.log[..s.offset] && AllNonEmpty(s.chunks)
  {
    assert log[..0] == [];
    ExactRun(Start(log, status), events);
  }

  lemma {:induction false} RunLast(s: Follow, events: seq<Event>, e: Event)
    requires CanRun(s, events + [e])
    ensures CanRun(s, events) && Enabled(Run(s, events), e) && Run(s, events + [e]) == Next(Run(s, events), e)
    decreases events
  {
    if events == [] {
      assert events + [e] == [e] && [e][1..] == [];
    } else {
      assert (events + [e])[1..] == events[1..] + [e];
      RunLast(Next(s, events[0]), events[1..], e);
    }
  }

  // The stream ends only when the build is over, and then it has yielded the whole final log exactly if
  // the read that ended it succeeded, or nothing was left to read.
  lemma EndsWithWholeLog(log: Bytes, status: BuildStatus, events: seq<Event>, ok: bool)
    requires CanRun(Start(log, status), events + [Read(ok)])
    requires Run(Start(log, status), events + [Read(ok)]).control == Ended
    ensures CanRun(Start(log, status), events)
    ensures var before := Run(Start(log, status), events);
            var s := Run(Start(log, status), events + [Read(ok)]);
            && s.status != Running
            && (Joined(s.chunks) == s.log <==> ok || before.offset == |before.log|)
  {
    RunLast(Start(log, status), events, Read(ok));
    YieldedIsPrefix(log, status, events);
    YieldedIsPrefix(log, status, events + [Read(ok)]);
    assert log[..0] == [];
    ExactRun(Start(log, status), events + [Read(ok)]);
    var s := Run(Start(log, status), events + [Read(ok)]);
    assert s.log[..s.offset] == s.log ==> s.offset == |s.log| by {
      assert |s.log[..s.offset]| == s.offset;
    }
    assert s.offset == |s.log| ==> s.log[..s.offset] == s.log;
  }

  // What the follower still does when no call fails any more.
  function Remaining(s: Follow): seq<Event> {
    if s.control == Ended then []
    else
      (if s.control == Rechecking then [Recheck(true)] else [])
      + (if s.offset < |s.log| then [Read(true)] else [])
      + (if s.seen == Running && s.control == Reading then [Read(true), Recheck(true), Read(true)] else [Read(true)])
  }

  lemma {:induction false} CanRunConcat(s: Follow, xs: seq<Event>, ys: seq<Event>)
    requires CanRun(s, xs) && CanRun(Run(s, xs), ys)
    ensures CanRun(s, xs + ys) && Run(s, xs + ys) == Run(Run(s, xs), ys)
    decreases xs
  {
    if xs == [] {
      assert xs + ys == ys;
    } else {
      assert (xs + ys)[1..] == xs[1..] + ys;
      CanRunConcat(Next(s, xs[0]), xs[1..], ys);
    }
  }

  lemma OneEvent(s: Follow, e: Event)
    requires Enabled(s, e)
    ensures CanRun(s, [e]) && Run(s, [e]) == Next(s, e)
  {
    assert [e][1..] == [];
  }

  // Once the build is over and no call fails any more, five steps at most end the stream, whole.
  lemma FollowerFinishes(s: Follow)
    requires Exact(s) && s.status != Running && s.control != Ended
    ensures var events := Remaining(s);
            && |events| <= 5 && CanRun(s, events)
            && Run(s, events).control == Ended && Joined(Run(s, events).chunks) == s.log
  {
    var recheck := if s.control == Rechecking then [Recheck(true)] else [];
    var read := if s.offset < |s.log| then [Read(true)] else [];
    var close :=
      if s.seen == Running && s.control == Reading then [Read(true), Recheck(true), Read(true)] else [Read(true)];
    var s1 := if recheck == [] then s else Next(s, Recheck(true));
    assert CanRun(s, recheck) && Run(s, recheck) == s1 by {
      if recheck != [] {
        OneEvent(s, Recheck(true));
      }
    }
    assert Exact(s1) by {
      if recheck != [] {
        ExactNext(s, Recheck(true));
      }
    }
    var s2 := if read == [] then s1 else Next(s1, Read(true));
    assert CanRun(s1, read) && Run(s1, read) == s2 by {
      if read != [] {
        OneEvent(s1, Read(true));
      }
    }
    assert Exact(s2) by {
      if read != [] {
        ExactNext(s1, Read(true));
      }
    }
    Closes(s2, close);
    CanRunConcat(s, recheck, read);
    CanRunConcat(s, recheck + read, close);
  }

  lemma Closes(s: Follow, close: seq<Event>)
    requires Exact(s) && s.status != Running && s.control == Reading && s.offset == |s.log|
    requires close == if s.seen == Running then [Read(true), Recheck(true), Read(true)] else [Read(true)]
    ensures CanRun(s, close) && Run(s, close).control == Ended && Joined(Run(s, close).chunks) == s.log
  {
    assert s.log[..s.offset] == s.log;
    if s.seen == Running {
      var a := Next(s, Read(true));
      var b := Next(a, Recheck(true));
      OneEvent(b, Read(true));
      assert close[1..] == [Recheck(true), Read(true)] && close[1..][1..] == [Read(true)];
      assert CanRun(a, close[1..]) && Run(a, close[1..]) == Next(b, Read(true));
    } else {
      OneEvent(s, Read(true));
    }
  }

  // The log only grows, and neither it nor the status changes once the build is over.
  lemma {:induction false} BuilderStops(s: Follow, events: seq<Event>)
    requires CanRun(s, events)
    ensures s.log <= Run(s, events).log
    ensures s.status != Running ==> Run(s, events).log == s.log && Run(s, events).status == s.status
    decreases events
  {
    if events != [] {
      BuilderStops(Next(s, events[0]), events[1..]);
    }
  }

  // Until then it can still come to any longer log and either end.
  lemma BuilderGoesOn(s: Follow, log: Bytes, status: BuildStatus)
    requires s.status == Running && s.log <= log && status != Running
    ensures var events := [Append(log[|s.log|..]), Finish(status)];
            CanRun(s, events) && Run(s, events) == s.(log := log, status := status)
  {
    var grown := s.(log := log);
    assert s.log + log[|s.log|..] == log;
    OneEvent(s, Append(log[|s.log|..]));
    OneEvent(grown, Finish(status));
    CanRunConcat(s, [Append(log[|s.log|..])], [Finish(status)]);
    assert [Append(log[|s.log|..])] + [Finish(status)] == [Append(log[|s.log|..]), Finish(status)];
  }

  // ---------- One step of the stream ----------

  // What the file and the store hold at one turn of the loop, and whether reading them works.
  datatype Turn = Turn(log: Bytes, readOk: bool, status: BuildStatus, statusOk: bool)

  datatype StepResult = Yield(bytes: Bytes, offset: nat, seen: BuildStatus) | End | StillWaiting(seen: BuildStatus)

  // The loop, turn by turn: what it comes to, and after how many fruitless turns.
  function StepOf(turns: seq<Turn>, offset: nat, seen: BuildStatus): (StepResult, nat)
    decreases turns
  {
    if turns == [] then (StillWaiting(seen), 0)
    else
      var t, read := turns[0], ReadNewBytes(turns[0].log, turns[0].readOk, offset);
      if read.bytes != [] then (Yield(read.bytes, read.offset, seen), 0)
      else if seen != Running then (End, 0)
      else
        var rest := StepOf(turns[1..], offset, if t.statusOk then t.status else seen);
        (rest.0, rest.1 + 1)
  }

  // After `n` turns the last status read is `seen`; `status` is the one known before the first.
  predicate LastRead(turns: seq<Turn>, status: BuildStatus, n: nat, seen: BuildStatus)
    requires n <= |turns|
  {
    || (seen == status && forall i | 0 <= i < n :: !turns[i].statusOk)
    || exists k | 0 <= k < n :: ReadAt(turns, k, seen) && forall i | k < i < n :: !turns[i].statusOk
  }

  predicate ReadAt(turns: seq<Turn>, k: nat, seen: BuildStatus)
    requires k < |turns|
  {
    turns[k].statusOk && turns[k].status == seen
  }

  lemma NextRead(turns: seq<Turn>, status: BuildStatus, n: nat, seen: BuildStatus)
    requires n < |turns| && LastRead(turns, status, n, seen)
    ensures LastRead(turns, status, n + 1, if turns[n].statusOk then turns[n].status else seen)
  {
    if turns[n].statusOk {
      assert ReadAt(turns, n, turns[n].status);
    }
  }

  // From turn `n` on with `seen` the loop comes to what it comes to from the first.
  predicate LeadsTo(turns: seq<Turn>, offset: nat, status: BuildStatus, n: nat, seen: BuildStatus)
    requires n <= |turns|
  {
    var (r, k) := StepOf(turns[n..], offset, seen);
    StepOf(turns, offset, status) == (r, n + k)
  }

  lemma LeadsOn(turns: seq<Turn>, offset: nat, status: BuildStatus, n: nat, seen: BuildStatus)
    requires n < |turns| && LeadsTo(turns, offset, status, n, seen)
    ensures var t, read := turns[n], ReadNewBytes(turns[n].log, turns[n].readOk, offset);
            if read.bytes != [] then StepOf(turns, offset, status) == (Yield(read.bytes, read.offset, seen), n)
            else if seen != Running then StepOf(turns, offset, status) == (End, n)
            else LeadsTo(turns, offset, status, n + 1, if t.statusOk then t.status else seen)
  {
    assert turns[n..][1..] == turns[n + 1..];
  }

  // Yields at the first turn that has something new; ends at the first that has not once the last status
  // read says the build is over.  `turns` are the loop's turns as far as they are observed.
  method FollowStep(turns: seq<Turn>, offset: nat, status: BuildStatus) returns (r: StepResult, n: nat)
    ensures (r, n) == StepOf(turns, offset, status) && n <= |turns|
    ensures forall i | 0 <= i < n ::
              (!turns[i].readOk || |turns[i].log| <= offset) && LastRead(turns, status, i, Running)
    ensures r.Yield? ==>
              && n < |turns| && turns[n].readOk && offset < |turns[n].log|
              && turns[n].log == turns[n].log[..offset] + r.bytes && r.offset == |turns[n].log|
              && LastRead(turns, status, n, r.seen)
    ensures r.End? ==>
              && n < |turns| && (!turns[n].readOk || |turns[n].log| <= offset)
              && (LastRead(turns, status, n, Succeeded) || LastRead(turns, status, n, BuildFailed))
    ensures r.StillWaiting? ==> n == |turns| && LastRead(turns, status, n, r.seen)
  {
    var seen := status;
    var i := 0;
    assert turns[0..] == turns;
    while i < |turns|
      invariant 0 <= i <= |turns|
      invariant LastRead(turns, status, i, seen)
      invariant forall j | 0 <= j < i ::
                  (!turns[j].readOk || |turns[j].log| <= offset) && LastRead(turns, status, j, Running)
      invariant LeadsTo(turns, offset, status, i, seen)
    {
      var chunk := ReadNewBytes(turns[i].log, turns[i].readOk, offset);
      LeadsOn(turns, offset, status, i, seen);
      if chunk.bytes != [] {
        return Yield(chunk.bytes, chunk.offset, seen), i;
      }
      if seen != Running {
        return End, i;
      }
      NextRead(turns, status, i, seen);
      if turns[i].statusOk {
        seen := turns[i].status;
      }
      i := i + 1;
    }
    return StillWaiting(seen), i;
  }

  // ---------- The step in the machine ----------

  // What the builder does before a turn's read, and between it and the status check.
  datatype Gap = Gap(before: seq<Event>, readOk: bool, between: seq<Event>, statusOk: bool)

  predicate Builders(events: seq<Event>) {
    forall e <- events :: e.Append? || e.Finish?
  }

  predicate CanBuild(s: Follow, gaps: seq<Gap>)
    decreases gaps
  {
    gaps == [] ||
      (&& Builders(gaps[0].before + gaps[0].between) && CanRun(s, gaps[0].before + gaps[0].between)
       && CanBuild(Run(s, gaps[0].before + gaps[0].between), gaps[1..]))
  }

  // The turns a follower that starts at `s` observes.
  function TurnsOf(s: Follow, gaps: seq<Gap>): seq<Turn>
    requires CanBuild(s, gaps)
    decreases gaps
  {
    if gaps == [] then []
    else
      var g, built := gaps[0], Run(s, gaps[0].before + gaps[0].between);
      RunSplit(s, g.before, g.between);
      [Turn(Run(s, g.before).log, g.readOk, built.status, g.statusOk)] + TurnsOf(built, gaps[1..])
  }

  lemma {:induction false} RunSplit(s: Follow, xs: seq<Event>, ys: seq<Event>)
    requires CanRun(s, xs + ys)
    ensures CanRun(s, xs) && CanRun(Run(s, xs), ys) && Run(s, xs + ys) == Run(Run(s, xs), ys)
    decreases xs
  {
    if xs == [] {
      assert xs + ys == ys;
    } else {
      assert (xs + ys)[1..] == xs[1..] + ys;
      RunSplit(Next(s, xs[0]), xs[1..], ys);
    }
  }

  // One turn of the loop, up to the read that decides the step or, if it decides nothing, to the next turn;
  // so `n` fruitless turns and, unless those are all, the read after them.
  function StepEvents(gaps: seq<Gap>, n: nat): seq<Event>
    requires n <= |gaps|
    decreases gaps
  {
    if gaps == [] then []
    else if n == 0 then gaps[0].before + [Read(gaps[0].readOk)]
    else TurnEvents(gaps[0]) + StepEvents(gaps[1..], n - 1)
  }

  function TurnEvents(g: Gap): seq<Event> {
    g.before + [Read(g.readOk)] + (g.between + [Recheck(g.statusOk)])
  }

  // What the step's result says of the stream is so: a chunk more, the end, or neither.
  predicate Reached(s: Follow, v: Follow, r: StepResult) {
    match r
    case Yield(bytes, offset, seen) =>
      v.control == Reading && v.chunks == s.chunks + [bytes] && v.offset == offset && v.seen == seen
    case End => v.control == Ended && v.chunks == s.chunks && v.offset == s.offset
    case StillWaiting(seen) => v.control == Reading && v.chunks == s.chunks && v.offset == s.offset && v.seen == seen
  }

  predicate SameBuild(b: Follow, s: Follow) {
    b.log == s.log && b.status == s.status
  }

  // The builder does not depend on the follower.
  lemma {:induction false} BuildersApart(b: Follow, s: Follow, events: seq<Event>)
    requires SameBuild(b, s) && Builders(events) && CanRun(b, events)
    ensures CanRun(s, events)
    ensures Run(s, events) == s.(log := Run(b, events).log, status := Run(b, events).status)
    decreases events
  {
    if events != [] {
      assert events[0] in events && forall e <- events[1..] :: e in events;
      BuildersApart(Next(b, events[0]), Next(s, events[0]), events[1..]);
    }
  }

  lemma ThenOne(s: Follow, events: seq<Event>, e: Event)
    requires CanRun(s, events) && Enabled(Run(s, events), e)
    ensures CanRun(s, events + [e]) && Run(s, events + [e]) == Next(Run(s, events), e)
  {
    OneEvent(Run(s, events), e);
    CanRunConcat(s, events, [e]);
  }

  // A turn's read.
  lemma ReadInTurn(b: Follow, s: Follow, g: Gap)
    requires SameBuild(b, s) && Builders(g.before + g.between) && CanRun(b, g.before + g.between)
    requires s.control == Reading
    ensures CanRun(b, g.before) && CanRun(s, g.before + [Read(g.readOk)])
    ensures var u := Run(b, g.before);
            Run(s, g.before + [Read(g.readOk)]) == Next(s.(log := u.log, status := u.status), Read(g.readOk))
  {
    RunSplit(b, g.before, g.between);
    assert forall e <- g.before :: e in g.before + g.between;
    BuildersApart(b, s, g.before);
    ThenOne(s, g.before, Read(g.readOk));
  }

  // A turn that decides nothing.
  lemma FruitlessTurn(b: Follow, s: Follow, g: Gap)
    requires SameBuild(b, s) && Builders(g.before + g.between) && CanRun(b, g.before + g.between)
    requires CanRun(b, g.before) && ReadNewBytes(Run(b, g.before).log, g.readOk, s.offset).bytes == []
    requires s.control == Reading && s.seen == Running
    ensures CanRun(s, TurnEvents(g))
    ensures var built := Run(b, g.before + g.between);
            Run(s, TurnEvents(g)) == s.(log := built.log, status := built.status,
                                        seen := if g.statusOk then built.status else s.seen)
  {
    ReadInTurn(b, s, g);
    RunSplit(b, g.before, g.between);
    assert forall e <- g.between :: e in g.before + g.between;
    var v := Run(s, g.before + [Read(g.readOk)]);
    BuildersApart(Run(b, g.before), v, g.between);
    ThenOne(v, g.between, Recheck(g.statusOk));
    CanRunConcat(s, g.before + [Read(g.readOk)], g.between + [Recheck(g.statusOk)]);
  }

  /**
   A step of the loop is a stretch of the machine's run: whatever the builder does between the step's reads
   and status checks, the machine goes through the same turns and comes to what the step returns.
   */
  lemma StepIsRun(s: Follow, gaps: seq<Gap>)
    requires s.control == Reading && CanBuild(s, gaps)
    ensures var (r, n) := StepOf(TurnsOf(s, gaps), s.offset, s.seen);
            && n <= |gaps| && CanRun(s, StepEvents(gaps, n))
            && Reached(s, Run(s, StepEvents(gaps, n)), r)
  {
    StepRuns(s, s, gaps);
  }

  // So is the first step of a stream.
  lemma StreamBegins(log: Bytes, status: BuildStatus, gaps: seq<Gap>)
    requires CanBuild(Start(log, status), gaps)
    ensures var s := Start(log, status);
            var (r, n) := StepOf(TurnsOf(s, gaps), 0, status);
            && n <= |gaps| && CanRun(s, StepEvents(gaps, n))
            && Reached(s, Run(s, StepEvents(gaps, n)), r)
  {
    StepIsRun(Start(log, status), gaps);
  }

  ghost predicate Fits(s: Follow, gaps: seq<Gap>, turns: seq<Turn>) {
    var (r, n) := StepOf(turns, s.offset, s.seen);
    n <= |gaps| && CanRun(s, StepEvents(gaps, n)) && Reached(s, Run(s, StepEvents(gaps, n)), r)
  }

  predicate Fruitless(t: Turn, s: Follow) {
    s.seen == Running && ReadNewBytes(t.log, t.readOk, s.offset).bytes == []
  }

  // The first turn decides.
  lemma FitsAtOnce(s: Follow, gaps: seq<Gap>, turns: seq<Turn>, u: Follow)
    requires gaps != [] && turns != [] && s.control == Reading && !Fruitless(turns[0], s)
    requires u == s.(log := turns[0].log, status := u.status) && turns[0].readOk == gaps[0].readOk
    requires CanRun(s, gaps[0].before + [Read(gaps[0].readOk)])
    requires Run(s, gaps[0].before + [Read(gaps[0].readOk)]) == Next(u, Read(gaps[0].readOk))
    ensures Fits(s, gaps, turns)
  {
  }

  lemma FitsLater(s: Follow, gaps: seq<Gap>, turns: seq<Turn>, v: Follow)
    requires gaps != [] && turns != [] && s.control == Reading && Fruitless(turns[0], s)
    requires CanRun(s, TurnEvents(gaps[0])) && Run(s, TurnEvents(gaps[0])) == v
    requires v == s.(log := v.log, status := v.status,
                     seen := if turns[0].statusOk then turns[0].status else s.seen)
    requires Fits(v, gaps[1..], turns[1..])
    ensures Fits(s, gaps, turns)
  {
    var (r, n) := StepOf(turns[1..], v.offset, v.seen);
    ReachedLater(s, TurnEvents(gaps[0]), v, StepEvents(gaps[1..], n), r);
    assert StepOf(turns, s.offset, s.seen) == (r, n + 1);
    assert StepEvents(gaps, n + 1) == TurnEvents(gaps[0]) + StepEvents(gaps[1..], n);
  }

  lemma ReachedLater(s: Follow, head: seq<Event>, v: Follow, tail: seq<Event>, r: StepResult)
    requires CanRun(s, head) && Run(s, head) == v && v.chunks == s.chunks && v.offset == s.offset
    requires CanRun(v, tail) && Reached(v, Run(v, tail), r)
    ensures CanRun(s, head + tail) && Reached(s, Run(s, head + tail), r)
  {
    CanRunConcat(s, head, tail);
  }

  lemma {:induction false} StepRuns(b: Follow, s: Follow, gaps: seq<Gap>)
    requires SameBuild(b, s) && s.control == Reading && CanBuild(b, gaps)
    ensures Fits(s, gaps, TurnsOf(b, gaps))
    decreases gaps
  {
    if gaps != [] {
      var g, built := gaps[0], Run(b, gaps[0].before + gaps[0].between);
      ReadInTurn(b, s, g);
      var turns := TurnsOf(b, gaps);
      var turn := Turn(Run(b, g.before).log, g.readOk, built.status, g.statusOk);
      assert turns == [turn] + TurnsOf(built, gaps[1..]) && turns[1..] == TurnsOf(built, gaps[1..]);
      if Fruitless(turn, s) {
        FruitlessTurn(b, s, g);
        StepRuns(built, Run(s, TurnEvents(g)), gaps[1..]);
        FitsLater(s, gaps, turns, Run(s, TurnEvents(g)));
      } else {
        FitsAtOnce(s, gaps, turns, s.(log := turn.log, status := Run(b, g.before).status));
      }
    }
  }
}
