/**
 The retry loops of `acquire` and `warm_to`.  What the pool and the clock answer in each turn of the
 loop is an input, so the results hold against every behaviour of the other callers.
 */
module AcquireLoop {
  import opened Wrappers
  import opened Numbers
  import opened PoolSpec

  // 20 ms in nanoseconds: the longest single sleep while queueing.
  const MAX_SLEEP: nat := 20_000_000

  datatype AcquireError = SpawnFailed | QueueTimeout | Rejected | PoolDraining

  // One turn: the slot found on a running instance, else the single-flight gate's answer, whether the
  // spawn it led to worked, and the time since the call began.
  datatype Turn = Turn(existing: Option<Addr>, decision: StartDecision, spawned: bool, elapsed: nat)

  // What a turn makes the call return, if it ends the call.
  function TurnOutcome(c: PoolConfig, t: Turn): Option<Result<Addr, AcquireError>> {
    if t.existing.Some? then Some(Ok(t.existing.value))
    else
      match t.decision
      case Proceed(_) => if t.spawned then None else Some(Err(SpawnFailed))
      case WaitForOther => None
      case Draining => Some(Err(PoolDraining))
      case AtCapacity =>
        if c.queuePolicy == Reject then Some(Err(Rejected))
        else if t.elapsed >= c.queueMaxWait then Some(Err(QueueTimeout))
        else None
  }

  predicate Sleeps(c: PoolConfig, t: Turn) {
    TurnOutcome(c, t).None? && t.decision.AtCapacity?
  }

  function SleepTime(c: PoolConfig, t: Turn): nat {
    if Sleeps(c, t) then Min(c.queueMaxWait - t.elapsed, MAX_SLEEP) else 0
  }

  // The clock never goes back, and a sleep lasts at least as long as it was asked to.
  predicate TimeFlows(c: PoolConfig, turns: seq<Turn>) {
    forall i :: 0 < i < |turns| ==> turns[i].elapsed >= turns[i - 1].elapsed + SleepTime(c, turns[i - 1])
  }

  function CeilDiv(a: nat, b: nat): nat
    requires b > 0
  {
    (a + b - 1) / b
  }

  lemma CeilDivBound(k: nat, a: nat, b: nat)
    requires b > 0 && k * b < a
    ensures k + 1 <= CeilDiv(a, b)
  {
  }

  datatype Sleep = Sleep(start: nat, length: nat)

  // Of a turn at `elapsed` the call slept out 20 ms, or what was left of `queueMaxWait`.
  predicate Slept(c: PoolConfig, sleeps: seq<Sleep>, elapsed: nat) {
    exists s <- sleeps ::
      && s.start == elapsed && s.length <= 20_000_000 && s.start + s.length <= c.queueMaxWait
      && (s.length == 20_000_000 || s.start + s.length == c.queueMaxWait)
  }

  lemma SleptMore(c: PoolConfig, sleeps: seq<Sleep>, turns: seq<Turn>, n: nat, s: Sleep)
    requires n < |turns| && s.start == turns[n].elapsed
    requires s.length <= 20_000_000 && s.start + s.length <= c.queueMaxWait
    requires s.length == 20_000_000 || s.start + s.length == c.queueMaxWait
    requires forall j | 0 <= j < n && turns[j].decision.AtCapacity? :: Slept(c, sleeps, turns[j].elapsed)
    ensures forall j | 0 <= j < n + 1 && turns[j].decision.AtCapacity? :: Slept(c, sleeps + [s], turns[j].elapsed)
  {
    forall j | 0 <= j < n + 1 && turns[j].decision.AtCapacity? ensures Slept(c, sleeps + [s], turns[j].elapsed) {
      if j < n {
        var u :| u in sleeps
          && u.start == turns[j].elapsed && u.length <= 20_000_000 && u.start + u.length <= c.queueMaxWait
          && (u.length == 20_000_000 || u.start + u.length == c.queueMaxWait);
        assert u in sleeps + [s];
      } else {
        assert s in sleeps + [s];
      }
    }
  }

  // `None`: the turns ran out before the call was decided; else `n` turns went before the one that decided.
  // A pool that queues never rejects and only times out after `queueMaxWait`; one that rejects never sleeps.
  method Acquire(c: PoolConfig, turns: seq<Turn>)
    returns (result: Option<Result<Addr, AcquireError>>, sleeps: seq<Sleep>, ghost n: nat)
    requires TimeFlows(c, turns)
    ensures n <= |turns| && (result.None? <==> n == |turns|)
    ensures forall j | 0 <= j < n ::
              && turns[j].existing.None?
              && match turns[j].decision
                 case Proceed(_) => turns[j].spawned
                 case WaitForOther => true
                 case AtCapacity => c.queuePolicy == Wait && turns[j].elapsed < c.queueMaxWait
                 case Draining => false
    ensures result.Some? ==>
              match result.value
              case Ok(addr) => turns[n].existing == Some(addr)
              case Err(e) =>
                && turns[n].existing.None?
                && match e
                   case SpawnFailed => turns[n].decision.Proceed? && !turns[n].spawned
                   case PoolDraining => turns[n].decision.Draining?
                   case Rejected => turns[n].decision.AtCapacity? && c.queuePolicy == Reject
                   case QueueTimeout =>
                     turns[n].decision.AtCapacity? && c.queuePolicy == Wait && turns[n].elapsed >= c.queueMaxWait
    ensures c.queuePolicy == Reject ==> sleeps == []
    ensures forall j | 0 <= j < n && turns[j].decision.AtCapacity? :: Slept(c, sleeps, turns[j].elapsed)
    ensures result.None? ==> forall t <- turns :: TurnOutcome(c, t).None?
    ensures result.Some? ==>
              exists i :: 0 <= i < |turns| && result == TurnOutcome(c, turns[i])
                          && forall j :: 0 <= j < i ==> TurnOutcome(c, turns[j]).None?
    ensures result == Some(Err(QueueTimeout)) ==>
              exists t <- turns :: t.existing.None? && t.decision.AtCapacity? && t.elapsed >= c.queueMaxWait
    ensures forall s <- sleeps :: 0 < s.length <= MAX_SLEEP && s.start + s.length <= c.queueMaxWait
    ensures |sleeps| <= CeilDiv(c.queueMaxWait, MAX_SLEEP)
  {
    sleeps := [];
    ghost var clock := 0;  // a lower bound of the next reading
    var i := 0;
    while i < |turns|
      invariant 0 <= i <= |turns|
      invariant forall j :: 0 <= j < i ==> TurnOutcome(c, turns[j]).None?
      invariant c.queuePolicy == Reject ==> sleeps == []
      invariant forall j | 0 <= j < i && turns[j].decision.AtCapacity? :: Slept(c, sleeps, turns[j].elapsed)
      invariant forall s <- sleeps :: 0 < s.length <= MAX_SLEEP && s.start + s.length <= c.queueMaxWait
      invariant |sleeps| <= CeilDiv(c.queueMaxWait, MAX_SLEEP)
      invariant i < |turns| ==> clock <= turns[i].elapsed
      invariant clock >= |sleeps| * MAX_SLEEP || clock >= c.queueMaxWait
    {
      var t := turns[i];
      if t.existing.Some? {
        return Some(Ok(t.existing.value)), sleeps, i;
      }
      match t.decision {
        case Proceed(_) =>
          if !t.spawned {
            return Some(Err(SpawnFailed)), sleeps, i;
          }
          clock := t.elapsed;
        case WaitForOther =>
          clock := t.elapsed;
        case Draining =>
          return Some(Err(PoolDraining)), sleeps, i;
        case AtCapacity =>
          if c.queuePolicy == Reject {
            return Some(Err(Rejected)), sleeps, i;
          }
          if t.elapsed >= c.queueMaxWait {
            return Some(Err(QueueTimeout)), sleeps, i;
          }
          var length := Min(c.queueMaxWait - t.elapsed, MAX_SLEEP);
          CeilDivBound(|sleeps|, c.queueMaxWait, MAX_SLEEP);
          SleptMore(c, sleeps, turns, i, Sleep(t.elapsed, length));
          sleeps := sleeps + [Sleep(t.elapsed, length)];
          clock := t.elapsed + length;
      }
      i := i + 1;
    }
    result, n := None, i;
  }

  // ---------- Past the limit ----------

  // The turns that do not look at the clock: another caller is starting an instance, or this one just did.
  predicate WithStart(t: Turn) {
    t.existing.None? && (t.decision.WaitForOther? || (t.decision.Proceed? && t.spawned))
  }

  // A call that has not ended after these turns.
  ghost predicate Undecided(c: PoolConfig, turns: seq<Turn>) {
    TimeFlows(c, turns) && forall t <- turns :: TurnOutcome(c, t).None?
  }

  // `n` turns, each waiting for another caller's start as long as it may take.
  function WaitingTurns(startTimeout: nat, n: nat): (turns: seq<Turn>)
    ensures |turns| == n && forall i :: 0 <= i < n ==> turns[i] == Turn(None, WaitForOther, false, i * startTimeout)
    decreases n
  {
    if n == 0 then []
    else WaitingTurns(startTimeout, n - 1) + [Turn(None, WaitForOther, false, (n - 1) * startTimeout)]
  }

  /**
   A turn past `queueMaxWait` leaves the call undecided exactly if it has to do with a start.  There is no
   limit to that: whatever the configuration and however late it is, there is a call that has waited so long
   for other callers' starts, for none of them longer than a start may take, and has not timed out.
   */
  lemma TimeoutMissing(c: PoolConfig, startTimeout: nat, late: nat)
    requires startTimeout > 0
    ensures forall t: Turn | t.elapsed >= c.queueMaxWait :: TurnOutcome(c, t).None? <==> WithStart(t)
    ensures var turns := WaitingTurns(startTimeout, late + 1);
            && Undecided(c, turns) && turns[late].elapsed >= late
            && forall i :: 0 < i < |turns| ==> turns[i].elapsed - turns[i - 1].elapsed == startTimeout
  {
    var turns := WaitingTurns(startTimeout, late + 1);
    forall i | 0 < i < |turns|
      ensures turns[i].elapsed - turns[i - 1].elapsed == startTimeout
      ensures turns[i].elapsed >= turns[i - 1].elapsed + SleepTime(c, turns[i - 1])
    {
      OneMore(i, startTimeout);
    }
    Multiple(late, startTimeout);
  }

  lemma OneMore(i: nat, d: nat)
    requires i > 0
    ensures i * d - (i - 1) * d == d
  {
  }

  lemma Multiple(n: nat, d: nat)
    requires d > 0
    ensures n * d >= n
  {
  }

  // With no starts in between, a call that has not ended is still within `queueMaxWait`.
  lemma TimelyWithoutStarts(c: PoolConfig, turns: seq<Turn>, i: nat)
    requires Undecided(c, turns) && i < |turns| && forall t <- turns :: !WithStart(t)
    ensures turns[i].elapsed < c.queueMaxWait
  {
    assert turns[i] in turns;
  }

  // ---------- Pre-warming ----------

  datatype WarmTurn = WarmTurn(count: nat, decision: StartDecision, spawned: bool)

  // What a turn makes a pre-warm return, if it ends it: success with the target reached or no start
  // possible, the spawn's failure, else another turn.
  function WarmOutcome(target: nat, t: WarmTurn): Option<Result<(), AcquireError>> {
    if t.count >= target || t.decision.AtCapacity? || t.decision.Draining? then Some(Ok(()))
    else if t.decision.Proceed? && !t.spawned then Some(Err(SpawnFailed))
    else None
  }

  // `None`: the turns ran out before the call was decided; else `n` turns went before the one that decided.
  method WarmTo(target: nat, turns: seq<WarmTurn>)
    returns (result: Option<Result<(), AcquireError>>, ghost n: nat)
    ensures n <= |turns| && (result.None? <==> n == |turns|)
    ensures forall j | 0 <= j < n ::
              && turns[j].count < target
              && (turns[j].decision.WaitForOther? || (turns[j].decision.Proceed? && turns[j].spawned))
    ensures result.Some? && result.value.Ok? ==>
              turns[n].count >= target || turns[n].decision.AtCapacity? || turns[n].decision.Draining?
    ensures result.Some? && result.value.Err? ==>
              && turns[n].count < target && turns[n].decision.Proceed? && !turns[n].spawned
              && result.value.error == SpawnFailed
    ensures result.None? ==> forall t <- turns :: WarmOutcome(target, t).None?
    ensures result.Some? ==>
              exists i :: 0 <= i < |turns| && result == WarmOutcome(target, turns[i])
                          && forall j :: 0 <= j < i ==> WarmOutcome(target, turns[j]).None?
  {
    var i := 0;
    while i < |turns|
      invariant 0 <= i <= |turns|
      invariant forall j :: 0 <= j < i ==> WarmOutcome(target, turns[j]).None?
    {
      var t := turns[i];
      if t.count >= target {
        return Some(Ok(())), i;
      }
      match t.decision {
        case Proceed(_) =>
          if !t.spawned {
            return Some(Err(SpawnFailed)), i;
          }
        case WaitForOther =>
        case AtCapacity => return Some(Ok(())), i;
        case Draining => return Some(Ok(())), i;
      }
      i := i + 1;
    }
    result, n := None, i;
  }
}
