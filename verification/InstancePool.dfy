/**
 The pool object itself.  A method is one critical section under the pool lock, so nothing else
 touches `instances`, `starting` and `draining` while it runs; what interleaves between critical
 sections is the subject of `PoolSystem`.
 */
module Pool {
  import opened Wrappers
  import opened Numbers
  import opened PoolSpec
  import opened Sequences

  class Semaphore {
    var permits: nat

    constructor (n: nat)
      ensures permits == n
    {
      permits := n;
    }

    method TryAcquire() returns (ok: bool)
      modifies this
      ensures ok <==> old(permits) > 0
      ensures permits == if ok then old(permits) - 1 else old(permits)
    {
      ok := permits > 0;
      if ok {
        permits := permits - 1;
      }
    }

    method Release(n: nat := 1)
      modifies this
      ensures permits == old(permits) + n
    {
      permits := permits + n;
    }
  }

  // What a request holds: dropping it gives one permit back to `semaphore`.
  datatype AcquiredInstance = AcquiredInstance(addr: Addr, semaphore: Semaphore)

  class InstancePool {
    const config: PoolConfig
    const globalLimit: Semaphore
    var specTemplate: InstanceSpec
    var instances: map<Addr, InstanceState<Semaphore>>
    var starting: bool
    var draining: bool

    // Every tracked instance has a semaphore of its own.
    ghost predicate Valid()
      reads this
    {
      && (forall a <- instances :: instances[a].semaphore != globalLimit)
      && (forall a <- instances, b <- instances :: a != b ==> instances[a].semaphore != instances[b].semaphore)
    }

    function State(): PoolState<Semaphore>
      reads this
    {
      PoolState(specTemplate, instances, starting, draining)
    }

    ghost function Semaphores(): set<Semaphore>
      reads this
    {
      set a | a in instances :: instances[a].semaphore
    }

    constructor (specTemplate: InstanceSpec, config: PoolConfig, globalLimit: Semaphore)
      ensures Valid()
      ensures this.config == config && this.globalLimit == globalLimit
      ensures State() == PoolState(specTemplate, map[], false, false)
    {
      this.config := config;
      this.globalLimit := globalLimit;
      this.specTemplate := specTemplate;
      instances := map[];
      starting := false;
      draining := false;
    }

    method SetSpecTemplate(spec: InstanceSpec)
      modifies this`specTemplate
      ensures State() == old(State()).(specTemplate := spec)
    {
      specTemplate := spec;
    }

    method BeginDrain()
      modifies this`draining
      ensures State() == old(State()).(draining := true)
    {
      draining := true;
    }

    // Forgets every tracked instance and gives all their global permits back.
    method StopAll()
      modifies this`instances, globalLimit
      ensures Valid()
      ensures State() == Without(old(State()), old(instances.Keys))
      ensures instances == map[]
      ensures globalLimit.permits == old(globalLimit.permits) + old(|instances|)
    {
      globalLimit.Release(|instances|);
      instances := map[];
    }

    // Claims a slot on some instance that has one free.  Nothing is started, `draining` is not looked at.
    method TryAcquireExisting(now: int) returns (acquired: Option<AcquiredInstance>)
      requires Valid()
      modifies this`instances, Semaphores()
      ensures Valid()
      ensures acquired.None? ==> State() == old(State())
      ensures acquired.None? <==> forall a <- old(instances) :: old(instances[a].semaphore.permits) == 0
      ensures acquired.Some? ==>
                var AcquiredInstance(addr, sem) := acquired.value;
                && addr in old(instances) && sem == old(instances)[addr].semaphore
                && State() == Used(old(State()), addr, now)
                && instances == old(instances)[addr := old(instances)[addr].(lastUsed := now)]
                && sem.permits == old(sem.permits) - 1
      ensures forall s <- old(Semaphores()) ::
                acquired == None || s != acquired.value.semaphore ==> s.permits == old(s.permits)
    {
      var rest := instances.Keys;
      while rest != {}
        invariant rest <= instances.Keys && State() == old(State())
        invariant forall a <- instances :: instances[a].semaphore.permits == old(instances[a].semaphore.permits)
        invariant forall a <- instances :: a !in rest ==> instances[a].semaphore.permits == 0
        invariant forall s <- old(Semaphores()) :: s.permits == old(s.permits)
        decreases rest
      {
        var addr :| addr in rest;
        var sem := instances[addr].semaphore;
        assert sem in old(Semaphores());
        var ok := sem.TryAcquire();
        if ok {
          instances := instances[addr := instances[addr].(lastUsed := now)];
          return Some(AcquiredInstance(addr, sem));
        }
        rest := rest - {addr};
      }
      acquired := None;
    }

    // The single-flight gate: the one caller told to proceed holds a permit of the global limit.
    method BeginStart() returns (outcome: StartDecision)
      requires Valid()
      modifies this`starting, globalLimit
      ensures Valid()
      ensures outcome == BeginStartOutcome(config, old(State()), old(globalLimit.permits))
      ensures outcome.Draining? <==> draining
      ensures outcome.WaitForOther? <==> !draining && old(starting)
      ensures outcome.AtCapacity? <==>
                && !draining && !old(starting)
                && (|instances| >= config.maxInstances || old(globalLimit.permits) == 0)
      ensures outcome.Proceed? ==> outcome.spec == specTemplate && starting
      ensures outcome.Proceed? ==>
                State() == Started(old(State())) && globalLimit.permits == old(globalLimit.permits) - 1
      ensures !outcome.Proceed? ==>
                State() == old(State()) && globalLimit.permits == old(globalLimit.permits)
    {
      if draining {
        return Draining;
      }
      if starting {
        return WaitForOther;
      }
      if |instances| >= config.maxInstances {
        return AtCapacity;
      }
      var ok := globalLimit.TryAcquire();
      if !ok {
        return AtCapacity;
      }
      starting := true;
      outcome := Proceed(specTemplate);
    }

    // What `finish_start` does once `driver.spawn` has answered: the address of the new instance, or
    // nothing.  On failure the caller still owns the permit and releases it after the lock.  An entry
    // replaced at a reused address drops its own permit here.
    method FinishStart(spawned: Option<Addr>, spec: InstanceSpec, now: int)
      requires Valid()
      modifies this`instances, this`starting, globalLimit
      ensures Valid()
      ensures spawned.None? ==>
                State() == StartFailed(old(State())) && globalLimit.permits == old(globalLimit.permits)
      ensures !starting && draining == old(draining) && specTemplate == old(specTemplate)
      ensures spawned.Some? ==>
                && spawned.value in instances && instances[spawned.value].lastUsed == now
                && instances[spawned.value].spec == spec
                && instances - {spawned.value} == old(instances) - {spawned.value}
                && fresh(instances[spawned.value].semaphore)
                && instances[spawned.value].semaphore.permits == config.concurrency
                && State() == Registered(old(State()), spawned.value,
                                         InstanceState(instances[spawned.value].semaphore, spec, now))
                && globalLimit.permits + |instances| == old(globalLimit.permits) + old(|instances|) + 1
    {
      starting := false;
      if spawned.Some? {
        var addr := spawned.value;
        var semaphore := new Semaphore(config.concurrency);
        CardinalityAfterInsert(instances, addr, InstanceState(semaphore, spec, now));
        if addr in instances {
          globalLimit.Release();
        }
        instances := instances[addr := InstanceState(semaphore, spec, now)];
      }
    }

    // Takes the instance out of rotation.  Its global permit goes back when the caller drops it.
    method ReportDead(addr: Addr) returns (removed: Option<InstanceState<Semaphore>>)
      requires Valid()
      modifies this`instances
      ensures Valid()
      ensures State() == Without(old(State()), {addr})
      ensures instances == old(instances) - {addr}
      ensures removed == if addr in old(instances) then Some(old(instances)[addr]) else None
    {
      if addr in instances {
        removed := Some(instances[addr]);
        instances := instances - {addr};
      } else {
        removed := None;
        assert instances - {addr} == instances;
      }
    }

    ghost function Eligible(now: int): set<Addr>
      reads this, Semaphores()
    {
      set a | a in instances && Idle(config, instances[a].semaphore.permits, instances[a].lastUsed, now)
    }

    // Every idle instance, in no particular order.
    method Candidates(now: int) returns (candidates: seq<Addr>)
      requires Valid()
      ensures NoDuplicates(candidates) && ToSet(candidates) == Eligible(now)
      ensures forall a :: a in candidates <==>
                && a in instances && instances[a].semaphore.permits == config.concurrency
                && (config.idleTimeout == 0 || now - instances[a].lastUsed >= config.idleTimeout)
    {
      candidates := [];
      var rest := instances.Keys;
      while rest != {}
        invariant rest <= instances.Keys
        invariant NoDuplicates(candidates)
        invariant forall a :: a in candidates <==> a in Eligible(now) && a !in rest
        decreases rest
      {
        var addr :| addr in rest;
        var inst := instances[addr];
        rest := rest - {addr};
        if Idle(config, inst.semaphore.permits, inst.lastUsed, now) {
          candidates := candidates + [addr];
        }
      }
    }

    // The removal loop of a sweep: `candidates` were truncated to `removable`, so its guard never fires.
    method Reap(candidates: seq<Addr>, removable: nat)
      requires Valid()
      requires NoDuplicates(candidates) && |candidates| <= removable
      requires forall a <- candidates :: a in instances
      modifies this`instances, globalLimit
      ensures Valid()
      ensures State() == Without(old(State()), ToSet(candidates))
      ensures globalLimit.permits == old(globalLimit.permits) + |candidates|
    {
      var left := removable;
      var i := 0;
      assert instances - {} == instances;
      while i < |candidates|
        invariant 0 <= i <= |candidates| && left == removable - i
        invariant instances == old(instances) - ToSet(candidates[..i])
        invariant globalLimit.permits == old(globalLimit.permits) + i
      {
        if left == 0 {
          assert false;
          break;
        }
        assert ToSet(candidates[..i + 1]) == ToSet(candidates[..i]) + {candidates[i]};
        instances := instances - {candidates[i]};
        globalLimit.Release();
        left := left - 1;
        i := i + 1;
      }
      assert candidates[..i] == candidates;
    }

    // As many candidates as may go.
    method Truncated(now: int, removable: nat) returns (candidates: seq<Addr>)
      requires Valid()
      ensures NoDuplicates(candidates) && ToSet(candidates) <= Eligible(now)
      ensures |candidates| == Min(removable, |Eligible(now)|)
      ensures forall a <- candidates ::
                && a in instances && instances[a].semaphore.permits == config.concurrency
                && (config.idleTimeout == 0 || now - instances[a].lastUsed >= config.idleTimeout)
      ensures |candidates| == removable ||
              forall a <- instances ::
                || a in candidates || instances[a].semaphore.permits != config.concurrency
                || (config.idleTimeout != 0 && now - instances[a].lastUsed < config.idleTimeout)
    {
      var eligible := Candidates(now);
      candidates := eligible[..Min(removable, |eligible|)];
      CardinalityOfDistinct(eligible);
      assert forall a <- candidates :: a in eligible;
      assert removable >= |eligible| ==> candidates == eligible;
    }

    // Takes as many out as may go.
    method ReapUpTo(now: int, removable: nat) returns (ghost victims: set<Addr>)
      requires Valid()
      modifies this`instances, globalLimit
      ensures Valid()
      ensures forall a <- victims ::
                && a in old(instances) && old(instances[a].semaphore.permits) == config.concurrency
                && (config.idleTimeout == 0 || now - old(instances)[a].lastUsed >= config.idleTimeout)
      ensures |victims| == removable ||
              forall a <- old(instances) ::
                || a in victims || old(instances[a].semaphore.permits) != config.concurrency
                || (config.idleTimeout != 0 && now - old(instances)[a].lastUsed < config.idleTimeout)
      ensures victims <= old(Eligible(now)) && |victims| == Min(removable, |old(Eligible(now))|)
      ensures instances == old(instances) - victims
      ensures globalLimit.permits == old(globalLimit.permits) + |victims|
    {
      var candidates := Truncated(now, removable);
      assert Eligible(now) == old(Eligible(now));
      victims := ToSet(candidates);
      CardinalityOfDistinct(candidates);
      Reap(candidates, removable);
    }

    // One idle-reaper sweep.  It takes instances that have every permit free and were last acquired or
    // started at least the idle timeout ago: all of those, or as many as leave the minimum running.
    method ReapIdleOnce(now: int) returns (ghost victims: set<Addr>)
      requires Valid()
      modifies this`instances, globalLimit
      ensures Valid()
      ensures forall a <- victims ::
                && a in old(instances) && old(instances[a].semaphore.permits) == config.concurrency
                && (config.idleTimeout == 0 || now - old(instances)[a].lastUsed >= config.idleTimeout)
      ensures instances == old(instances) - victims
      ensures old(|instances|) <= config.minInstances ==> victims == {}
      ensures old(|instances|) > config.minInstances ==>
                && |instances| >= config.minInstances
                && (|instances| == config.minInstances ||
                    forall a <- old(instances) ::
                      || a in victims || old(instances[a].semaphore.permits) != config.concurrency
                      || (config.idleTimeout != 0 && now - old(instances)[a].lastUsed < config.idleTimeout))
      ensures victims <= old(Eligible(now))
      ensures |victims| == Removable(config, old(|instances|), |old(Eligible(now))|)
      ensures globalLimit.permits == old(globalLimit.permits) + |victims|
    {
      victims := {};
      var running := |instances|;
      if running <= config.minInstances {
        assert instances - {} == instances;
        return;
      }
      victims := ReapUpTo(now, running - config.minInstances);
      MapMinus(old(instances), victims);
    }
  }
}
