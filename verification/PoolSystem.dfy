/**
 Any number of pools sharing one process-wide limit, with every interleaving of their critical
 sections and of the lock-free steps between them.  Instances are told apart by the generation of
 their semaphore; a generation is never used twice, an address may be.
 */
module PoolSystem {
  import opened PoolSpec
  import opened Sequences

  type PoolId = nat
  type Generation = nat
  type StartId = nat

  datatype Sem = Sem(pool: PoolId, addr: Addr, free: nat)

  // A caller between `begin_start` and the end of `finish_start`; it holds one global permit.
  datatype Start = Start(pool: PoolId, spec: InstanceSpec)

  datatype Entry = Entry(config: PoolConfig, state: PoolState<Generation>)

  // `guards` counts the live requests per generation.  `unreleased` counts global permits of callers
  // that left the lock but have not dropped their permit yet.  `cancelled` records history only: the
  // pools whose starter was dropped while spawning.
  datatype System = System(
    limit: nat,
    globalFree: nat,
    pools: map<PoolId, Entry>,
    sems: map<Generation, Sem>,
    guards: multiset<Generation>,
    starts: map<StartId, Start>,
    unreleased: nat,
    cancelled: set<PoolId>)

  datatype Action =
    | NewPool(pool: PoolId, config: PoolConfig, spec: InstanceSpec)
    | SetTemplate(pool: PoolId, spec: InstanceSpec)
    | BeginDrain(pool: PoolId)
    | Acquire(pool: PoolId, addr: Addr, now: int)
    | Release(gen: Generation)
    | Begin(pool: PoolId, start: StartId)
    | FinishOk(start: StartId, addr: Addr, gen: Generation, now: int)
    | FinishFailed(start: StartId)
    | Cancel(start: StartId)
    | ReportDead(pool: PoolId, addr: Addr)
    | DropPermit
    | Reap(pool: PoolId, now: int, victims: set<Addr>)
    | StopAll(pool: PoolId)

  function Initial(limit: nat): System {
    System(limit, limit, map[], map[], multiset{}, map[], 0, {})
  }

  predicate Tracks(s: System, p: PoolId, addr: Addr) {
    p in s.pools && addr in s.pools[p].state.instances
  }

  function GenerationAt(s: System, p: PoolId, addr: Addr): Generation
    requires Tracks(s, p, addr)
  {
    s.pools[p].state.instances[addr].semaphore
  }

  predicate CanReap(s: System, p: PoolId, now: int, victims: set<Addr>) {
    && p in s.pools
    && var Entry(c, st) := s.pools[p];
    && (forall a <- victims ::
          && a in st.instances
          && var inst := st.instances[a];
             inst.semaphore in s.sems && Idle(c, s.sems[inst.semaphore].free, inst.lastUsed, now))
    && |victims| <= Removable(c, |st.instances|, |st.instances|)
  }

  predicate Enabled(s: System, a: Action) {
    match a
    case NewPool(p, _, _) => p !in s.pools
    case SetTemplate(p, _) => p in s.pools
    case BeginDrain(p) => p in s.pools
    case Acquire(p, addr, _) =>
      Tracks(s, p, addr) && GenerationAt(s, p, addr) in s.sems && s.sems[GenerationAt(s, p, addr)].free > 0
    case Release(g) => g in s.guards && g in s.sems
    case Begin(p, id) =>
      p in s.pools && id !in s.starts
      && BeginStartOutcome(s.pools[p].config, s.pools[p].state, s.globalFree).Proceed?
    case FinishOk(id, _, g, _) => id in s.starts && s.starts[id].pool in s.pools && g !in s.sems
    case FinishFailed(id) => id in s.starts && s.starts[id].pool in s.pools
    case Cancel(id) => id in s.starts
    case ReportDead(p, addr) => Tracks(s, p, addr)
    case DropPermit => s.unreleased > 0
    case Reap(p, now, victims) => CanReap(s, p, now, victims)
    case StopAll(p) => p in s.pools
  }

  function WithPool(s: System, p: PoolId, st: PoolState<Generation>): System
    requires p in s.pools
  {
    s.(pools := s.pools[p := s.pools[p].(state := st)])
  }

  function Apply(s: System, a: Action): System
    requires Enabled(s, a)
  {
    match a
    case NewPool(p, c, spec) =>
      s.(pools := s.pools[p := Entry(c, PoolState(spec, map[], false, false))])
    case SetTemplate(p, spec) =>
      WithPool(s, p, s.pools[p].state.(specTemplate := spec))
    case BeginDrain(p) =>
      WithPool(s, p, s.pools[p].state.(draining := true))
    case Acquire(p, addr, now) =>
      var g := GenerationAt(s, p, addr);
      WithPool(s, p, Used(s.pools[p].state, addr, now))
        .(sems := s.sems[g := s.sems[g].(free := s.sems[g].free - 1)], guards := s.guards + multiset{g})
    case Release(g) =>
      s.(sems := s.sems[g := s.sems[g].(free := s.sems[g].free + 1)], guards := s.guards - multiset{g})
    case Begin(p, id) =>
      WithPool(s, p, Started(s.pools[p].state))
        .(globalFree := s.globalFree - 1, starts := s.starts[id := Start(p, s.pools[p].state.specTemplate)])
    case FinishOk(id, addr, g, now) =>
      var Start(p, spec) := s.starts[id];
      var Entry(c, st) := s.pools[p];
      WithPool(s, p, Registered(st, addr, InstanceState(g, spec, now)))
        .(globalFree := s.globalFree + if addr in st.instances then 1 else 0,
          sems := s.sems[g := Sem(p, addr, c.concurrency)],
          starts := s.starts - {id})
    case FinishFailed(id) =>
      var p := s.starts[id].pool;
      WithPool(s, p, StartFailed(s.pools[p].state))
        .(starts := s.starts - {id}, unreleased := s.unreleased + 1)
    case Cancel(id) =>
      s.(starts := s.starts - {id}, globalFree := s.globalFree + 1,
         cancelled := s.cancelled + {s.starts[id].pool})
    case ReportDead(p, addr) =>
      WithPool(s, p, Without(s.pools[p].state, {addr})).(unreleased := s.unreleased + 1)
    case DropPermit =>
      s.(unreleased := s.unreleased - 1, globalFree := s.globalFree + 1)
    case Reap(p, _, victims) =>
      WithPool(s, p, Without(s.pools[p].state, victims)).(globalFree := s.globalFree + |victims|)
    case StopAll(p) =>
      var st := s.pools[p].state;
      WithPool(s, p, Without(st, st.instances.Keys)).(globalFree := s.globalFree + |st.instances|)
  }

  // A run: every action is enabled in the state the ones before it lead to.
  predicate CanRun(s: System, acts: seq<Action>)
    decreases acts
  {
    acts == [] || (Enabled(s, acts[0]) && CanRun(Apply(s, acts[0]), acts[1..]))
  }

  function Exec(s: System, acts: seq<Action>): System
    requires CanRun(s, acts)
    decreases acts
  {
    if acts == [] then s else Exec(Apply(s, acts[0]), acts[1..])
  }

  // ---------- Global permits ----------

  ghost function Tracked(pools: map<PoolId, Entry>): nat {
    if pools.Keys == {} then 0
    else
      var p := Pick(pools.Keys);
      |pools[p].state.instances| + Tracked(pools - {p})
  }

  lemma {:induction false} TrackedSplit(pools: map<PoolId, Entry>, p: PoolId)
    requires p in pools
    ensures Tracked(pools) == |pools[p].state.instances| + Tracked(pools - {p})
    decreases |pools|
  {
    var q := Pick(pools.Keys);
    if p != q {
      assert pools - {q} - {p} == pools - {p} - {q};
      TrackedSplit(pools - {q}, p);
      TrackedSplit(pools - {p}, q);
    }
  }

  lemma TrackedUpdate(pools: map<PoolId, Entry>, p: PoolId, e: Entry)
    ensures Tracked(pools[p := e]) ==
            Tracked(pools) + |e.state.instances| - if p in pools then |pools[p].state.instances| else 0
  {
    TrackedSplit(pools[p := e], p);
    assert pools[p := e] - {p} == pools - {p};
    if p in pools {
      TrackedSplit(pools, p);
    } else {
      assert pools - {p} == pools;
    }
  }

  ghost predicate Conserved(s: System) {
    s.globalFree + Tracked(s.pools) + |s.starts| + s.unreleased == s.limit
  }

  // Steps of a start, and lock-free steps.
  lemma ConservedStartStep(s: System, a: Action)
    requires Conserved(s) && Enabled(s, a)
    requires a.Begin? || a.FinishOk? || a.FinishFailed? || a.Cancel? || a.Release? || a.DropPermit?
    ensures Conserved(Apply(s, a))
  {
    var t := Apply(s, a);
    if a.FinishOk? || a.FinishFailed? || a.Cancel? {
      MapMinus(s.starts, {a.start});
    }
    match a {
      case Begin(p, id) => TrackedUpdate(s.pools, p, t.pools[p]);
      case FinishOk(id, addr, _, _) =>
        var p := s.starts[id].pool;
        TrackedUpdate(s.pools, p, t.pools[p]);
        CardinalityAfterInsert(s.pools[p].state.instances, addr, t.pools[p].state.instances[addr]);
      case FinishFailed(id) => TrackedUpdate(s.pools, s.starts[id].pool, t.pools[s.starts[id].pool]);
      case _ =>
    }
  }

  // The other steps under a pool's lock.
  lemma ConservedPoolStep(s: System, a: Action)
    requires Conserved(s) && Enabled(s, a)
    requires a.NewPool? || a.SetTemplate? || a.BeginDrain? || a.Acquire? || a.ReportDead? || a.Reap? || a.StopAll?
    ensures Conserved(Apply(s, a))
  {
    var p, t := a.pool, Apply(s, a);
    TrackedUpdate(s.pools, p, t.pools[p]);
    match a {
      case Acquire(_, addr, _) =>
        CardinalityAfterInsert(s.pools[p].state.instances, addr, t.pools[p].state.instances[addr]);
      case ReportDead(_, addr) => MapMinus(s.pools[p].state.instances, {addr});
      case Reap(_, _, victims) => MapMinus(s.pools[p].state.instances, victims);
      case StopAll(_) => MapMinus(s.pools[p].state.instances, s.pools[p].state.instances.Keys);
      case _ =>
    }
  }

  lemma ConservedStep(s: System, a: Action)
    requires Conserved(s) && Enabled(s, a)
    ensures Conserved(Apply(s, a))
  {
    if a.Begin? || a.FinishOk? || a.FinishFailed? || a.Cancel? || a.Release? || a.DropPermit? {
      ConservedStartStep(s, a);
    } else {
      ConservedPoolStep(s, a);
    }
  }

  // ---------- Single flight ----------

  function StartsOf(s: System, p: PoolId): set<StartId> {
    set id | id in s.starts && s.starts[id].pool == p
  }

  ghost predicate FlightAt(s: System, p: PoolId)
    requires p in s.pools
  {
    var inFlight := StartsOf(s, p);
    && |inFlight| <= 1
    && (s.pools[p].state.starting <==> inFlight != {} || p in s.cancelled)
    && (p in s.cancelled ==> inFlight == {})
  }

  ghost predicate SingleFlight(s: System) {
    && (forall id <- s.starts :: s.starts[id].pool in s.pools)
    && s.cancelled <= s.pools.Keys
    && (forall p <- s.pools :: FlightAt(s, p))
  }

  function Begun(a: Action, p: PoolId): set<StartId> {
    if a.Begin? && a.pool == p then {a.start} else {}
  }

  function Ended(a: Action): set<StartId> {
    if a.FinishOk? || a.FinishFailed? || a.Cancel? then {a.start} else {}
  }

  lemma StartsOfStep(s: System, a: Action, p: PoolId)
    requires Enabled(s, a)
    ensures StartsOf(Apply(s, a), p) == StartsOf(s, p) + Begun(a, p) - Ended(a)
  {
  }

  lemma EntryStays(s: System, a: Action, p: PoolId)
    requires Enabled(s, a) && p in s.pools
    ensures p in Apply(s, a).pools && Apply(s, a).pools[p].config == s.pools[p].config
    ensures s.pools[p].state.draining ==> Apply(s, a).pools[p].state.draining
  {
  }

  // What an action leaves of a pool it finds.
  lemma EntryStep(s: System, a: Action, p: PoolId)
    requires Enabled(s, a) && p in s.pools
    ensures p in Apply(s, a).pools && Apply(s, a).pools[p].config == s.pools[p].config
    ensures var st, st' := s.pools[p].state, Apply(s, a).pools[p].state;
            && (st.draining ==> st'.draining)
            && (st'.starting <==>
                || Begun(a, p) != {}
                || (st.starting && !((a.FinishOk? || a.FinishFailed?) && s.starts[a.start].pool == p)))
  {
    EntryStays(s, a, p);
  }

  lemma SingletonOf<T>(xs: set<T>, x: T)
    requires |xs| <= 1 && x in xs
    ensures xs == {x}
  {
    if y :| y in xs && y != x {
      SubsetCardinality({x, y}, xs);
    }
  }

  // Within one pool a start can only begin when none is in flight, and the one that ends is the only one.
  lemma InFlightStep(s: System, a: Action, p: PoolId)
    requires Enabled(s, a) && p in s.pools && FlightAt(s, p)
    ensures StartsOf(Apply(s, a), p) ==
      if Begun(a, p) != {} then Begun(a, p)
      else if Ended(a) != {} && a.start in StartsOf(s, p) then {}
      else StartsOf(s, p)
    ensures Begun(a, p) != {} ==> StartsOf(s, p) == {} && p !in s.cancelled
  {
    StartsOfStep(s, a, p);
    MoveStart(StartsOf(s, p), Begun(a, p), Ended(a));
  }

  lemma MoveStart(inFlight: set<StartId>, begun: set<StartId>, ended: set<StartId>)
    requires |inFlight| <= 1 && (begun != {} ==> inFlight == {} && ended == {})
    requires forall x <- ended, y <- ended :: x == y
    ensures inFlight + begun - ended ==
      if begun != {} then begun else if ended * inFlight != {} then {} else inFlight
  {
    if x :| x in ended * inFlight {
      SingletonOf(inFlight, x);
    }
  }

  lemma FlightStep(s: System, a: Action, p: PoolId)
    requires SingleFlight(s) && Enabled(s, a) && p in s.pools
    ensures p in Apply(s, a).pools && FlightAt(Apply(s, a), p)
  {
    EntryStep(s, a, p);
    InFlightStep(s, a, p);
    assert FlightAt(s, p);
    if a.Cancel? && a.start in StartsOf(s, p) {
      assert Apply(s, a).pools == s.pools;
    }
  }

  lemma SingleFlightStep(s: System, a: Action)
    requires SingleFlight(s) && Enabled(s, a)
    ensures SingleFlight(Apply(s, a))
  {
    var t := Apply(s, a);
    forall p <- t.pools ensures FlightAt(t, p) {
      if p in s.pools {
        FlightStep(s, a, p);
      } else {
        StartsOfStep(s, a, p);
        assert StartsOf(s, p) == {};
      }
    }
  }

  ghost predicate BoundedAt(s: System, p: PoolId)
    requires p in s.pools
  {
    |s.pools[p].state.instances| + |StartsOf(s, p)| <= s.pools[p].config.maxInstances
  }

  ghost predicate Bounded(s: System) {
    forall p <- s.pools :: BoundedAt(s, p)
  }

  predicate Adds(s: System, a: Action, p: PoolId) {
    a.FinishOk? && a.start in s.starts && s.starts[a.start].pool == p
  }

  // Only the end of a start of the same pool adds an instance, and it is one that was in flight: in
  // every other step tracked and in-flight instances together can grow by a new start alone.
  lemma SizeStep(s: System, a: Action, p: PoolId)
    requires SingleFlight(s) && Enabled(s, a) && p in s.pools
    ensures p in Apply(s, a).pools
    ensures |Apply(s, a).pools[p].state.instances| <= |s.pools[p].state.instances| + if Adds(s, a, p) then 1 else 0
    ensures Adds(s, a, p) ==> |StartsOf(s, p)| == 1 && |StartsOf(Apply(s, a), p)| == 0
    ensures |StartsOf(Apply(s, a), p)| <= |StartsOf(s, p)| + |Begun(a, p)|
  {
    EntryStep(s, a, p);
    StartsOfStep(s, a, p);
    SubsetCardinality(StartsOf(Apply(s, a), p), StartsOf(s, p) + Begun(a, p));
    var before, after := s.pools[p].state.instances, Apply(s, a).pools[p].state.instances;
    if Adds(s, a, p) {
      SingletonOf(StartsOf(s, p), a.start);
      CardinalityAfterInsert(before, a.addr, after[a.addr]);
    } else {
      InstancesShrink(s, a, p);
      SubsetCardinality(after.Keys, before.Keys);
    }
  }

  lemma InstancesShrink(s: System, a: Action, p: PoolId)
    requires Enabled(s, a) && p in s.pools && !Adds(s, a, p)
    ensures p in Apply(s, a).pools && Apply(s, a).pools[p].state.instances.Keys <= s.pools[p].state.instances.Keys
  {
  }

  lemma BoundedStep(s: System, a: Action)
    requires SingleFlight(s) && Bounded(s) && Enabled(s, a)
    ensures Bounded(Apply(s, a))
  {
    var t := Apply(s, a);
    forall p <- t.pools ensures BoundedAt(t, p) {
      if p in s.pools {
        assert BoundedAt(s, p) && FlightAt(s, p);
        EntryStep(s, a, p);
        SizeStep(s, a, p);
      } else {
        StartsOfStep(s, a, p);
        assert StartsOf(s, p) == {};
      }
    }
  }

  // ---------- Request permits ----------

  ghost predicate LedgerAt(s: System, g: Generation)
    requires g in s.sems
  {
    var Sem(p, _, free) := s.sems[g];
    p in s.pools && free + s.guards[g] == s.pools[p].config.concurrency
  }

  ghost predicate OwnsSem(s: System, p: PoolId, addr: Addr)
    requires Tracks(s, p, addr)
  {
    var g := GenerationAt(s, p, addr);
    g in s.sems && s.sems[g].pool == p && s.sems[g].addr == addr
  }

  ghost predicate Ledger(s: System) {
    && (forall g <- s.guards :: g in s.sems)
    && (forall g <- s.sems :: LedgerAt(s, g))
    && (forall p, addr | Tracks(s, p, addr) :: OwnsSem(s, p, addr))
  }

  // A step moves a permit between a semaphore and a guard, or makes a semaphore with all of them free.
  lemma SemStep(s: System, a: Action, g: Generation)
    requires Enabled(s, a)
    ensures g in s.sems ==>
              && g in Apply(s, a).sems
              && Apply(s, a).sems[g] == s.sems[g].(free := Apply(s, a).sems[g].free)
              && Apply(s, a).sems[g].free + Apply(s, a).guards[g] == s.sems[g].free + s.guards[g]
    ensures g in Apply(s, a).sems && g !in s.sems ==>
              && a.FinishOk? && g == a.gen
              && Apply(s, a).sems[g].pool == s.starts[a.start].pool
              && Apply(s, a).sems[g].free == s.pools[s.starts[a.start].pool].config.concurrency
    ensures g !in s.sems ==> Apply(s, a).guards[g] <= s.guards[g]
  {
  }

  lemma LedgerStep(s: System, a: Action)
    requires Ledger(s) && Enabled(s, a)
    ensures Ledger(Apply(s, a))
  {
    var t := Apply(s, a);
    forall g | g in t.sems ensures LedgerAt(t, g) {
      SemStep(s, a, g);
      if g in s.sems {
        assert LedgerAt(s, g);
        EntryStep(s, a, s.sems[g].pool);
      } else {
        EntryStep(s, a, s.starts[a.start].pool);
      }
    }
    forall g | g in t.guards ensures g in t.sems {
      SemStep(s, a, g);
    }
    forall p, addr | Tracks(t, p, addr) ensures OwnsSem(t, p, addr) {
      TrackedStep(s, a, p, addr);
      if Tracks(s, p, addr) && GenerationAt(t, p, addr) == GenerationAt(s, p, addr) {
        assert OwnsSem(s, p, addr);
        SemStep(s, a, GenerationAt(s, p, addr));
      }
    }
  }

  // An instance tracked after a step was tracked before it, or is the one the step registered.
  lemma TrackedStep(s: System, a: Action, p: PoolId, addr: Addr)
    requires Enabled(s, a) && Tracks(Apply(s, a), p, addr)
    ensures || (Tracks(s, p, addr) && GenerationAt(Apply(s, a), p, addr) == GenerationAt(s, p, addr))
            || (Adds(s, a, p) && a.addr == addr && GenerationAt(Apply(s, a), p, addr) == a.gen)
  {
  }

  // ---------- Every reachable state ----------

  ghost predicate Inv(s: System) {
    Conserved(s) && SingleFlight(s) && Bounded(s) && Ledger(s)
  }

  lemma InvStep(s: System, a: Action)
    requires Inv(s) && Enabled(s, a)
    ensures Inv(Apply(s, a))
  {
    ConservedStep(s, a);
    SingleFlightStep(s, a);
    BoundedStep(s, a);
    LedgerStep(s, a);
  }

  lemma {:induction false} InvRun(s: System, acts: seq<Action>)
    requires Inv(s) && CanRun(s, acts)
    ensures Inv(Exec(s, acts))
    decreases acts
  {
    if acts != [] {
      InvStep(s, acts[0]);
      InvRun(Apply(s, acts[0]), acts[1..]);
    }
  }

  lemma Reachable(limit: nat, acts: seq<Action>)
    requires CanRun(Initial(limit), acts)
    ensures Inv(Exec(Initial(limit), acts))
  {
    InvRun(Initial(limit), acts);
  }

  // Free permits, tracked instances of all pools, starts in flight and permits about to be dropped
  // always add up to the process-wide limit.
  lemma GlobalPermitsConserved(limit: nat, acts: seq<Action>)
    requires CanRun(Initial(limit), acts)
    ensures var s := Exec(Initial(limit), acts);
            s.globalFree + Tracked(s.pools) + |s.starts| + s.unreleased == limit
  {
    Reachable(limit, acts);
    LimitFixed(Initial(limit), acts);
  }

  function Drops(n: nat): seq<Action> {
    if n == 0 then [] else [DropPermit] + Drops(n - 1)
  }

  lemma {:induction false} DropsRun(s: System, n: nat)
    requires n <= s.unreleased
    ensures CanRun(s, Drops(n))
    ensures Exec(s, Drops(n)) == s.(unreleased := s.unreleased - n, globalFree := s.globalFree + n)
    decreases n
  {
    if n > 0 {
      DropsRun(Apply(s, DropPermit), n - 1);
      assert Drops(n)[1..] == Drops(n - 1);
    }
  }

  // No permit is lost: from every reachable state the callers that left the lock can drop theirs, and then
  // all permits but those of tracked instances and of starts in flight are free.
  lemma PermitsComeBack(limit: nat, acts: seq<Action>)
    requires CanRun(Initial(limit), acts)
    ensures var s := Exec(Initial(limit), acts);
            && CanRun(s, Drops(s.unreleased))
            && var t := Exec(s, Drops(s.unreleased));
               t.pools == s.pools && t.starts == s.starts && t.globalFree == limit - Tracked(s.pools) - |s.starts|
  {
    GlobalPermitsConserved(limit, acts);
    DropsRun(Exec(Initial(limit), acts), Exec(Initial(limit), acts).unreleased);
  }

  lemma {:induction false} LimitFixed(s: System, acts: seq<Action>)
    requires CanRun(s, acts)
    ensures Exec(s, acts).limit == s.limit
    decreases acts
  {
    if acts != [] {
      LimitFixed(Apply(s, acts[0]), acts[1..]);
    }
  }

  // At most one start per pool is in flight; `starting` is set exactly while it is, or for ever once
  // that start was cancelled; and `maxInstances` bounds tracked and starting instances together.
  lemma AtMostOneStart(limit: nat, acts: seq<Action>, p: PoolId)
    requires CanRun(Initial(limit), acts) && p in Exec(Initial(limit), acts).pools
    ensures var s := Exec(Initial(limit), acts);
            var Entry(c, st) := s.pools[p];
            && |StartsOf(s, p)| <= 1
            && (st.starting <==> StartsOf(s, p) != {} || p in s.cancelled)
            && |st.instances| + |StartsOf(s, p)| <= c.maxInstances
  {
    Reachable(limit, acts);
    assert FlightAt(Exec(Initial(limit), acts), p) && BoundedAt(Exec(Initial(limit), acts), p);
  }

  // Free permits and live requests of a tracked instance add up to its concurrency.
  lemma RequestPermitsConserved(limit: nat, acts: seq<Action>, p: PoolId, addr: Addr)
    requires CanRun(Initial(limit), acts) && Tracks(Exec(Initial(limit), acts), p, addr)
    ensures var s := Exec(Initial(limit), acts);
            var g := GenerationAt(s, p, addr);
            g in s.sems && s.sems[g].free + s.guards[g] == s.pools[p].config.concurrency
  {
    Reachable(limit, acts);
    var s := Exec(Initial(limit), acts);
    assert OwnsSem(s, p, addr) && LedgerAt(s, GenerationAt(s, p, addr));
  }

  // The reaper never takes an instance with a request in flight, nor the pool below `minInstances`.
  lemma ReaperSparesBusyInstances(limit: nat, acts: seq<Action>, p: PoolId, now: int, victims: set<Addr>)
    requires CanRun(Initial(limit), acts + [Reap(p, now, victims)])
    ensures CanRun(Initial(limit), acts)
    ensures var s := Exec(Initial(limit), acts);
            && CanReap(s, p, now, victims)
            && (forall addr <- victims :: s.guards[GenerationAt(s, p, addr)] == 0)
            && var kept := |s.pools[p].state.instances| - |victims|;
               victims != {} ==> kept >= s.pools[p].config.minInstances
  {
    RunSplit(Initial(limit), acts, [Reap(p, now, victims)]);
    var s := Exec(Initial(limit), acts);
    Reachable(limit, acts);
    assert Enabled(s, Reap(p, now, victims));
    forall addr <- victims ensures s.guards[GenerationAt(s, p, addr)] == 0 {
      assert OwnsSem(s, p, addr) && LedgerAt(s, GenerationAt(s, p, addr));
    }
  }

  // A sweep can take some instances exactly if each has all its permits free and was not used for the idle
  // timeout, and the minimum is left.
  lemma ReapEnabledExactly(s: System, p: PoolId, now: int, victims: set<Addr>)
    requires p in s.pools
    ensures var Entry(c, st) := s.pools[p];
            Enabled(s, Reap(p, now, victims)) <==>
              && (forall addr <- victims ::
                    && Tracks(s, p, addr) && GenerationAt(s, p, addr) in s.sems
                    && s.sems[GenerationAt(s, p, addr)].free == c.concurrency
                    && (c.idleTimeout == 0 || now - st.instances[addr].lastUsed >= c.idleTimeout))
              && (victims == {} || |victims| + c.minInstances <= |st.instances|)
  {
    var Entry(c, st) := s.pools[p];
    assert |victims| == 0 <==> victims == {};
    assert Removable(c, |st.instances|, |st.instances|)
        == if |st.instances| <= c.minInstances then 0 else |st.instances| - c.minInstances;
  }

  // The step registers or acquires the instance at `addr`, at time `t`.
  predicate Stamps(s: System, a: Action, p: PoolId, addr: Addr, t: int) {
    || (a.Acquire? && a.pool == p && a.addr == addr && a.now == t)
    || (Registers(s, a, p, addr) && a.now == t)
  }

  // The clock is read under the pool's lock, so what comes later reads no earlier time.
  predicate NotBefore(acts: seq<Action>, t: int) {
    forall a <- acts :: a.Acquire? || a.FinishOk? ==> a.now >= t
  }

  predicate UsedSince(s: System, p: PoolId, addr: Addr, t: int) {
    Tracks(s, p, addr) ==> s.pools[p].state.instances[addr].lastUsed >= t
  }

  lemma UsedSinceStep(s: System, a: Action, p: PoolId, addr: Addr, t: int)
    requires Enabled(s, a) && NotBefore([a], t)
    requires UsedSince(s, p, addr, t) || Stamps(s, a, p, addr, t)
    ensures UsedSince(Apply(s, a), p, addr, t)
  {
    assert a in [a];
  }

  lemma {:induction false} UsedSinceRun(s: System, acts: seq<Action>, p: PoolId, addr: Addr, t: int)
    requires CanRun(s, acts) && NotBefore(acts, t) && UsedSince(s, p, addr, t) && p in s.pools
    ensures UsedSince(Exec(s, acts), p, addr, t)
    ensures p in Exec(s, acts).pools && Exec(s, acts).pools[p].config == s.pools[p].config
    decreases acts
  {
    if acts != [] {
      assert acts[0] in acts;
      UsedSinceStep(s, acts[0], p, addr, t);
      EntryStays(s, acts[0], p);
      UsedSinceRun(Apply(s, acts[0]), acts[1..], p, addr, t);
    }
  }

  // An instance registered or acquired at `t` is not reaped before the idle timeout has passed since.
  lemma ReaperSparesRecentInstances(
    s: System, a: Action, acts: seq<Action>, p: PoolId, addr: Addr, t: int, now: int, victims: set<Addr>)
    requires Enabled(s, a) && Stamps(s, a, p, addr, t) && p in s.pools
    requires NotBefore(acts, t) && CanRun(Apply(s, a), acts + [Reap(p, now, victims)]) && addr in victims
    ensures s.pools[p].config.idleTimeout == 0 || now >= t + s.pools[p].config.idleTimeout
  {
    var u := Apply(s, a);
    EntryStays(s, a, p);
    UsedSinceStep(s, a, p, addr, t);
    RunSplit(u, acts, [Reap(p, now, victims)]);
    UsedSinceRun(u, acts, p, addr, t);
    assert Enabled(Exec(u, acts), Reap(p, now, victims));
    ReapEnabledExactly(Exec(u, acts), p, now, victims);
  }

  // ---------- Templates ----------

  predicate LeavesTemplate(acts: seq<Action>, p: PoolId) {
    forall a <- acts :: !(a.SetTemplate? && a.pool == p)
  }

  lemma TemplateStep(s: System, a: Action, p: PoolId)
    requires Enabled(s, a) && p in s.pools
    ensures p in Apply(s, a).pools
    ensures Apply(s, a).pools[p].state.specTemplate
         == if a.SetTemplate? && a.pool == p then a.spec else s.pools[p].state.specTemplate
  {
  }

  lemma {:induction false} TemplateRun(s: System, acts: seq<Action>, p: PoolId)
    requires CanRun(s, acts) && p in s.pools && LeavesTemplate(acts, p)
    ensures p in Exec(s, acts).pools
    ensures Exec(s, acts).pools[p].state.specTemplate == s.pools[p].state.specTemplate
    decreases acts
  {
    if acts != [] {
      assert acts[0] in acts;
      TemplateStep(s, acts[0], p);
      TemplateRun(Apply(s, acts[0]), acts[1..], p);
    }
  }

  // A new template is what every later start is begun with, until the next one comes.
  lemma TemplateReachesStarts(s: System, p: PoolId, spec: InstanceSpec, acts: seq<Action>, id: StartId)
    requires p in s.pools && CanRun(Apply(s, SetTemplate(p, spec)), acts + [Begin(p, id)]) && LeavesTemplate(acts, p)
    ensures var t := Exec(Apply(s, SetTemplate(p, spec)), acts + [Begin(p, id)]);
            id in t.starts && t.starts[id] == Start(p, spec)
  {
    var u := Apply(s, SetTemplate(p, spec));
    RunSplit(u, acts, [Begin(p, id)]);
    TemplateRun(u, acts, p);
    assert [Begin(p, id)][1..] == [];
  }

  lemma {:induction false} StartStays(s: System, acts: seq<Action>, id: StartId)
    requires CanRun(s, acts) && id in s.starts && id in Exec(s, acts).starts
    requires forall a <- acts :: !(a.Begin? && a.start == id)
    ensures Exec(s, acts).starts[id] == s.starts[id]
    decreases acts
  {
    if acts != [] {
      assert acts[0] in acts;
      if id !in Apply(s, acts[0]).starts {
        StartGone(Apply(s, acts[0]), acts[1..], id);
      }
      StartStays(Apply(s, acts[0]), acts[1..], id);
    }
  }

  lemma {:induction false} StartGone(s: System, acts: seq<Action>, id: StartId)
    requires CanRun(s, acts) && id !in s.starts && forall a <- acts :: !(a.Begin? && a.start == id)
    ensures id !in Exec(s, acts).starts
    decreases acts
  {
    if acts != [] {
      assert acts[0] in acts;
      StartGone(Apply(s, acts[0]), acts[1..], id);
    }
  }

  // An instance runs the template its start was begun with, whatever became of the template meanwhile; it
  // is registered with every permit free and as used just then.
  lemma InstanceRunsItsTemplate(
    s: System, p: PoolId, id: StartId, acts: seq<Action>, addr: Addr, g: Generation, now: int)
    requires Enabled(s, Begin(p, id)) && forall a <- acts :: !(a.Begin? && a.start == id)
    requires CanRun(Apply(s, Begin(p, id)), acts + [FinishOk(id, addr, g, now)])
    ensures var t := Exec(Apply(s, Begin(p, id)), acts + [FinishOk(id, addr, g, now)]);
            && Tracks(t, p, addr) && id !in t.starts
            && t.pools[p].state.instances[addr] == InstanceState(g, s.pools[p].state.specTemplate, now)
            && g in t.sems && t.sems[g] == Sem(p, addr, t.pools[p].config.concurrency)
  {
    var u := Apply(s, Begin(p, id));
    RunSplit(u, acts, [FinishOk(id, addr, g, now)]);
    assert Enabled(Exec(u, acts), FinishOk(id, addr, g, now));
    StartStays(u, acts, id);
    assert [FinishOk(id, addr, g, now)][1..] == [];
  }

  lemma {:induction false} RunSplit(s: System, acts: seq<Action>, more: seq<Action>)
    ensures CanRun(s, acts + more) <==> CanRun(s, acts) && CanRun(Exec(s, acts), more)
    ensures CanRun(s, acts + more) ==> Exec(s, acts + more) == Exec(Exec(s, acts), more)
    decreases acts
  {
    if acts == [] {
      assert acts + more == more;
    } else {
      assert (acts + more)[1..] == acts[1..] + more;
      if Enabled(s, acts[0]) {
        RunSplit(Apply(s, acts[0]), acts[1..], more);
      }
    }
  }

  // ---------- Instances taken out of rotation ----------

  predicate Registers(s: System, a: Action, p: PoolId, addr: Addr) {
    Adds(s, a, p) && a.addr == addr
  }

  predicate NeverRegisters(s: System, acts: seq<Action>, p: PoolId, addr: Addr)
    requires CanRun(s, acts)
    decreases acts
  {
    acts == [] || (!Registers(s, acts[0], p, addr) && NeverRegisters(Apply(s, acts[0]), acts[1..], p, addr))
  }

  predicate HandsOut(s: System, a: Action, g: Generation) {
    a.Acquire? && Tracks(s, a.pool, a.addr) && GenerationAt(s, a.pool, a.addr) == g
  }

  predicate NeverHandsOut(s: System, acts: seq<Action>, g: Generation)
    requires CanRun(s, acts)
    decreases acts
  {
    acts == [] || (!HandsOut(s, acts[0], g) && NeverHandsOut(Apply(s, acts[0]), acts[1..], g))
  }

  // After `report_dead(addr)` no acquire returns `addr` until a start registers it again.
  lemma {:induction false} DeadAddressNotHandedOut(s: System, acts: seq<Action>, p: PoolId, addr: Addr)
    requires CanRun(s, acts) && !Tracks(s, p, addr)
    requires NeverRegisters(s, acts, p, addr)
    ensures forall a <- acts :: !(a.Acquire? && a.pool == p && a.addr == addr)
    ensures !Tracks(Exec(s, acts), p, addr)
    decreases acts
  {
    if acts != [] {
      if Tracks(Apply(s, acts[0]), p, addr) {
        TrackedStep(s, acts[0], p, addr);
      }
      DeadAddressNotHandedOut(Apply(s, acts[0]), acts[1..], p, addr);
    }
  }

  ghost predicate Retired(s: System, g: Generation) {
    g in s.sems && forall p, addr | Tracks(s, p, addr) :: GenerationAt(s, p, addr) != g
  }

  // An instance once removed never serves again, not even when its address comes back.
  lemma {:induction false} RetiredForGood(s: System, acts: seq<Action>, g: Generation)
    requires CanRun(s, acts) && Retired(s, g)
    ensures Retired(Exec(s, acts), g)
    ensures NeverHandsOut(s, acts, g)
    decreases acts
  {
    if acts != [] {
      var t := Apply(s, acts[0]);
      SemStep(s, acts[0], g);
      forall p, addr | Tracks(t, p, addr) ensures GenerationAt(t, p, addr) != g {
        TrackedStep(s, acts[0], p, addr);
      }
      RetiredForGood(t, acts[1..], g);
    }
  }

  lemma ReportDeadRetires(s: System, p: PoolId, addr: Addr)
    requires Inv(s) && Tracks(s, p, addr)
    ensures Retired(Apply(s, ReportDead(p, addr)), GenerationAt(s, p, addr))
    ensures !Tracks(Apply(s, ReportDead(p, addr)), p, addr)
  {
    var g := GenerationAt(s, p, addr);
    var t := Apply(s, ReportDead(p, addr));
    assert OwnsSem(s, p, addr);
    forall q, a | Tracks(t, q, a) ensures GenerationAt(t, q, a) != g {
      assert Tracks(s, q, a) && OwnsSem(s, q, a);
    }
  }

  // ---------- Draining ----------

  function Additions(s: System, acts: seq<Action>, p: PoolId): nat
    requires CanRun(s, acts)
    decreases acts
  {
    if acts == [] then 0
    else (if Adds(s, acts[0], p) then 1 else 0) + Additions(Apply(s, acts[0]), acts[1..], p)
  }

  // From a draining state no start of the pool begins, and instances are added by starts in flight only.
  lemma {:induction false} DrainingRun(s: System, acts: seq<Action>, p: PoolId)
    requires Inv(s) && CanRun(s, acts) && p in s.pools && s.pools[p].state.draining
    ensures forall a <- acts :: !(a.Begin? && a.pool == p)
    ensures p in Exec(s, acts).pools
    ensures Additions(s, acts, p) + |StartsOf(Exec(s, acts), p)| <= |StartsOf(s, p)| <= 1
    ensures |Exec(s, acts).pools[p].state.instances| <= |s.pools[p].state.instances| + Additions(s, acts, p)
    decreases acts
  {
    assert FlightAt(s, p);
    if acts != [] {
      var t := Apply(s, acts[0]);
      EntryStep(s, acts[0], p);
      SizeStep(s, acts[0], p);
      InvStep(s, acts[0]);
      DrainingRun(t, acts[1..], p);
    }
  }

  // `delete` drains a pool and then stops its instances: from then on at most one instance, whose
  // start was already in flight, is ever tracked, and none if there was no such start.
  lemma DrainLeavesAtMostOneLateStart(
    limit: nat, acts: seq<Action>, p: PoolId, between: seq<Action>, later: seq<Action>)
    requires CanRun(Initial(limit), acts)
    requires var s := Exec(Initial(limit), acts); p in s.pools && s.pools[p].state.draining
    requires CanRun(Exec(Initial(limit), acts), between + ([StopAll(p)] + later))
    ensures var s := Exec(Initial(limit), acts);
            var t := Exec(s, between + ([StopAll(p)] + later));
            p in t.pools && |t.pools[p].state.instances| <= |StartsOf(s, p)| <= 1
  {
    Reachable(limit, acts);
    var s := Exec(Initial(limit), acts);
    RunSplit(s, between, [StopAll(p)] + later);
    DrainingRun(s, between, p);
    InvRun(s, between);
    var drained := Exec(s, between);
    DrainingSticks(s, between, p);
    StopWhileDraining(drained, p, later);
  }

  lemma StopWhileDraining(s: System, p: PoolId, later: seq<Action>)
    requires Inv(s) && p in s.pools && s.pools[p].state.draining
    requires CanRun(s, [StopAll(p)] + later)
    ensures var t := Exec(s, [StopAll(p)] + later);
            p in t.pools && |t.pools[p].state.instances| <= |StartsOf(s, p)|
  {
    assert ([StopAll(p)] + later)[1..] == later;
    var stopped := Apply(s, StopAll(p));
    InvStep(s, StopAll(p));
    StartsOfStep(s, StopAll(p), p);
    DrainingRun(stopped, later, p);
  }

  lemma {:induction false} DrainingSticks(s: System, acts: seq<Action>, p: PoolId)
    requires CanRun(s, acts) && p in s.pools && s.pools[p].state.draining
    ensures p in Exec(s, acts).pools && Exec(s, acts).pools[p].state.draining
    decreases acts
  {
    if acts != [] {
      EntryStep(s, acts[0], p);
      DrainingSticks(Apply(s, acts[0]), acts[1..], p);
    }
  }

  // ---------- A dropped starter ----------

  lemma NothingAfterCancel(s: System, a: Action, p: PoolId)
    requires Inv(s) && Enabled(s, a) && p in s.cancelled
    ensures Inv(Apply(s, a)) && p in Apply(s, a).cancelled
    ensures !(a.Begin? && a.pool == p) && !Adds(s, a, p)
  {
    InvStep(s, a);
    assert FlightAt(s, p);
    assert forall id <- s.starts :: id in StartsOf(s, p) <==> s.starts[id].pool == p;
  }

  // Once a starter is dropped while spawning, its pool never starts another instance.
  lemma {:induction false} NoStartAfterCancel(s: System, acts: seq<Action>, p: PoolId)
    requires Inv(s) && CanRun(s, acts) && p in s.cancelled
    ensures forall a <- acts :: !(a.Begin? && a.pool == p)
    ensures Additions(s, acts, p) == 0
    ensures p in Exec(s, acts).cancelled
    decreases acts
  {
    if acts != [] {
      NothingAfterCancel(s, acts[0], p);
      NoStartAfterCancel(Apply(s, acts[0]), acts[1..], p);
    }
  }

  // So a caller that finds no free slot is only ever told to wait for that start, until the pool drains.
  lemma WaitsAfterCancel(s: System, acts: seq<Action>, p: PoolId)
    requires Inv(s) && CanRun(s, acts) && p in s.cancelled && p in Exec(s, acts).pools
    ensures var t := Exec(s, acts);
            var Entry(c, st) := t.pools[p];
            BeginStartOutcome(c, st, t.globalFree) == if st.draining then Draining else WaitForOther
  {
    NoStartAfterCancel(s, acts, p);
    InvRun(s, acts);
    assert FlightAt(Exec(s, acts), p);
  }

  lemma OneMoreStep(s: System, acts: seq<Action>, a: Action)
    requires CanRun(s, acts) && Enabled(Exec(s, acts), a)
    ensures CanRun(s, acts + [a]) && Exec(s, acts + [a]) == Apply(Exec(s, acts), a)
  {
    RunSplit(s, acts, [a]);
    assert [a][1..] == [];
  }

  // A draining pool starts nothing, but it refuses requests exactly while every tracked instance is busy to
  // the full: `begin_drain` does not stop requests.
  lemma DrainingRefusesExactly(limit: nat, acts: seq<Action>, p: PoolId)
    requires CanRun(Initial(limit), acts)
    requires p in Exec(Initial(limit), acts).pools && Exec(Initial(limit), acts).pools[p].state.draining
    ensures var s := Exec(Initial(limit), acts);
            var Entry(c, st) := s.pools[p];
            && BeginStartOutcome(c, st, s.globalFree).Draining?
            && ((forall addr, now :: !Enabled(s, Acquire(p, addr, now))) <==>
                (forall addr <- st.instances :: s.guards[GenerationAt(s, p, addr)] == c.concurrency))
  {
    var s := Exec(Initial(limit), acts);
    var Entry(c, st) := s.pools[p];
    forall addr <- st.instances
      ensures forall now :: Enabled(s, Acquire(p, addr, now)) <==> s.guards[GenerationAt(s, p, addr)] != c.concurrency
    {
      RequestPermitsConserved(limit, acts, p, addr);
    }
    if forall addr, now :: !Enabled(s, Acquire(p, addr, now)) {
      forall addr <- st.instances ensures s.guards[GenerationAt(s, p, addr)] == c.concurrency {
        assert !Enabled(s, Acquire(p, addr, 0));
      }
    }
  }

  // There is such a run: a draining pool with a free slot hands it out.
  lemma DrainingPoolStillServes()
    ensures exists acts, p, addr, now :: CanRun(Initial(1), acts) && p in Exec(Initial(1), acts).pools
              && Exec(Initial(1), acts).pools[p].state.draining
              && CanRun(Initial(1), acts + [Acquire(p, addr, now)])
  {
    var acts := OneInstance();
    OneMoreStep(Initial(1), acts, BeginDrain(0));
    OneMoreStep(Initial(1), acts + [BeginDrain(0)], Acquire(0, 7, 0));
    assert Exec(Initial(1), acts + [BeginDrain(0)]).pools[0].state.draining;
  }

  lemma OneInstance() returns (acts: seq<Action>)
    ensures CanRun(Initial(1), acts)
    ensures var s := Exec(Initial(1), acts);
            Tracks(s, 0, 7) && GenerationAt(s, 0, 7) in s.sems && s.sems[GenerationAt(s, 0, 7)].free == 1
  {
    var c := PoolConfig(1, 0, 1, 0, Reject, 0);
    acts := [NewPool(0, c, InstanceSpec(1))];
    assert acts[1..] == [];
    OneMoreStep(Initial(1), acts, Begin(0, 0));
    OneMoreStep(Initial(1), acts + [Begin(0, 0)], FinishOk(0, 7, 0, 0));
    acts := acts + [Begin(0, 0)] + [FinishOk(0, 7, 0, 0)];
  }
}
