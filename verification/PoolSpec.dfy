/**
 The state of one function's instance pool and what each critical section under the pool lock does
 to it, as functions on values.  `G` identifies an instance's concurrency semaphore: the class
 `InstancePool` uses the semaphore object itself, the interleaving model a generation number.
 */
module PoolSpec {
  import opened Numbers

  // Socket addresses only need equality; an address can be used again after its instance is gone.
  type Addr = nat

  datatype QueuePolicy = Wait | Reject

  // Durations and instants are nanoseconds.
  datatype PoolConfig = PoolConfig(
    concurrency: nat,
    minInstances: nat,
    maxInstances: nat,
    idleTimeout: nat,
    queuePolicy: QueuePolicy,
    queueMaxWait: nat)

  // The part of the instance template that tells two revisions apart.
  datatype InstanceSpec = InstanceSpec(revision: nat)

  datatype InstanceState<+G> = InstanceState(semaphore: G, spec: InstanceSpec, lastUsed: int)

  datatype PoolState<+G> = PoolState(
    specTemplate: InstanceSpec,
    instances: map<Addr, InstanceState<G>>,
    starting: bool,
    draining: bool)

  datatype StartDecision = Proceed(spec: InstanceSpec) | WaitForOther | AtCapacity | Draining

  function BeginStartOutcome<G>(c: PoolConfig, s: PoolState<G>, globalFree: nat): StartDecision {
    if s.draining then Draining
    else if s.starting then WaitForOther
    else if |s.instances| >= c.maxInstances then AtCapacity
    else if globalFree == 0 then AtCapacity
    else Proceed(s.specTemplate)
  }

  function Started<G>(s: PoolState<G>): PoolState<G> {
    s.(starting := true)
  }

  function Registered<G>(s: PoolState<G>, addr: Addr, inst: InstanceState<G>): PoolState<G> {
    s.(starting := false, instances := s.instances[addr := inst])
  }

  function StartFailed<G>(s: PoolState<G>): PoolState<G> {
    s.(starting := false)
  }

  function Used<G>(s: PoolState<G>, addr: Addr, now: int): PoolState<G>
    requires addr in s.instances
  {
    s.(instances := s.instances[addr := s.instances[addr].(lastUsed := now)])
  }

  function Without<G>(s: PoolState<G>, addrs: set<Addr>): PoolState<G> {
    s.(instances := s.instances - addrs)
  }

  // `Instant::duration_since` saturates at zero.
  function Since(now: int, past: int): nat {
    if now >= past then now - past else 0
  }

  // Fully idle: every permit free, and last acquired at least `idleTimeout` ago.
  predicate Idle(c: PoolConfig, free: nat, lastUsed: int, now: int) {
    free == c.concurrency && Since(now, lastUsed) >= c.idleTimeout
  }

  // How many of `eligible` idle instances one sweep stops.
  function Removable(c: PoolConfig, running: nat, eligible: nat): (n: nat)
    ensures n <= eligible
    ensures running >= c.minInstances ==> running - n >= c.minInstances
    ensures running <= c.minInstances ==> n == 0
  {
    if running <= c.minInstances then 0 else Min(running - c.minInstances, eligible)
  }
}
