/**
 The client and the reconciler as objects whose methods change the server and the store call by call.
 The fates of the calls are parameters; `PubSub` gives the functions they are proved against.
 */
module Reconciler {
  import opened Wrappers
  import opened PubSub
  import opened PubSubRuns
  import opened PubSubCrashes

  class OpenPubusbClient {
    const project: string
    var remote: Remote
    ghost var states: seq<Remote>  // the server after each call that may have changed it

    constructor (project: string, remote: Remote)
      ensures this.project == project && this.remote == remote && states == []
    {
      this.project := project;
      this.remote := remote;
      states := [];
    }

    method CreateSubscription(name: string, req: Request, fate: Fate) returns (r: Result<Subscription, PubSubError>)
      modifies this
      ensures Reply(remote, r) == Create(old(remote), project, name, req, fate)
      ensures var id := SubscriptionId(name);
              && (id in old(remote) || (!fate.Served? && !fate.applied) ==> remote == old(remote))
              && (id !in old(remote) && (fate.Served? || fate.applied) ==>
                    remote == old(remote)[id := Subscription(ResourceName(project, id), req.topic,
                                                             Some(req.pushEndpoint), req.ackDeadline)])
              && match fate
                 case Served => r == if id in old(remote) then Err(Http(409)) else Ok(remote[id])
                 case Lost(_) => r == Err(Unreachable)
                 case Answered(status, _) => r == Err(Http(status))
      ensures states == old(states) + [remote]
    {
      var id := SubscriptionId(name);
      var conflict := id in remote;
      if fate == Served || fate.applied {
        if !conflict {
          remote := remote[id := NewSubscription(project, id, req)];
        }
      }
      match fate {
        case Served => r := if conflict then Err(Http(409)) else Ok(remote[id]);
        case Lost(_) => r := Err(Unreachable);
        case Answered(status, _) => r := Err(Http(status));
      }
      states := states + [remote];
    }

    method GetSubscription(name: string, fate: Fate) returns (r: Result<Option<Subscription>, PubSubError>)
      ensures r == Get(remote, name, fate)
      ensures match fate
              case Served =>
                var id := SubscriptionId(name);
                r == Ok(if id in remote then Some(remote[id]) else None)
              case Lost(_) => r == Err(Unreachable)
              case Answered(status, _) => if status == 404 then r == Ok(None) else r == Err(Http(status))
    {
      var id := SubscriptionId(name);
      match fate {
        case Served => r := Ok(if id in remote then Some(remote[id]) else None);
        case Lost(_) => r := Err(Unreachable);
        case Answered(status, _) => r := if status == 404 then Ok(None) else Err(Http(status));
      }
    }

    method DeleteSubscription(name: string, fate: Fate) returns (r: Result<(), PubSubError>)
      modifies this
      ensures Reply(remote, r) == Delete(old(remote), name, fate)
      ensures remote == if fate.Served? || fate.applied then old(remote) - {SubscriptionId(name)} else old(remote)
      ensures match fate
              case Served => r == Ok(())
              case Lost(_) => r == Err(Unreachable)
              case Answered(status, _) =>
                if 200 <= status <= 299 || status == 404 then r == Ok(()) else r == Err(Http(status))
      ensures states == old(states) + [remote]
    {
      if fate == Served || fate.applied {
        remote := remote - {SubscriptionId(name)};
      }
      match fate {
        case Served => r := Ok(());
        case Lost(_) => r := Err(Unreachable);
        case Answered(status, _) => r := if Success(status) || status == 404 then Ok(()) else Err(Http(status));
      }
      states := states + [remote];
    }

    method RecreateSubscription(name: string, req: Request, a: Attempt) returns (r: Result<Subscription, PubSubError>)
      modifies this
      ensures Reply(remote, r) == Recreate(old(remote), project, name, req, a)
      ensures var deleted := Delete(old(remote), name, a.delete);
              states == old(states) + [deleted.remote] + if deleted.result.Err? then [] else [remote]
    {
      var deleted := DeleteSubscription(name, a.delete);
      if deleted.Err? {
        return Err(deleted.error);
      }
      r := CreateSubscription(name, req, a.again);
    }
  }

  class Reconciler {
    const client: OpenPubusbClient
    const initialBackoff: nat
    const maxBackoff: nat
    var bindings: map<string, Binding>

    ghost function Settings(): Config {
      Config(client.project, initialBackoff, maxBackoff)
    }

    ghost function State(): World
      reads this, client
    {
      World(bindings, client.remote)
    }

    constructor (client: OpenPubusbClient, initialBackoff: nat, maxBackoff: nat)
      ensures this.client == client && Settings() == Config(client.project, initialBackoff, maxBackoff)
      ensures bindings == map[]
    {
      this.client := client;
      this.initialBackoff := initialBackoff;
      this.maxBackoff := maxBackoff;
      this.bindings := map[];
    }

    // The subscription as desired, if the calls work: one that is there already stays only if it matches.
    method EnsureSubscription(name: string, req: Request, a: Attempt)
      returns (outcome: Result<Subscription, PubSubError>)
      modifies client
      ensures Reply(client.remote, outcome) == Ensure(old(client.remote), client.project, name, req, a)
      ensures client.states == old(client.states) + EnsureStates(old(client.remote), client.project, name, req, a)
    {
      outcome := client.CreateSubscription(name, req, a.create);
      if outcome == Err(Http(409)) {
        var found := client.GetSubscription(name, a.get);
        match found {
          case Ok(Some(existing)) =>
            if existing.topic == req.topic && existing.pushEndpoint == Some(req.pushEndpoint) {
              outcome := Ok(existing);
            } else {
              outcome := client.RecreateSubscription(name, req, a);
            }
          case Ok(None) => outcome := Err(Http(409));
          case Err(e) => outcome := Err(e);
        }
      }
    }

    // Whatever happens, the outcome is stored and returned.
    method TryBind(d: Desired, a: Attempt) returns (binding: Binding)
      modifies this, client
      ensures State() == PubSub.TryBind(old(State()), Settings(), d, a)
      ensures client.states == old(client.states) + RemoteStates(old(State()), Settings(), Bind(d, a))
      ensures bindings == old(bindings)[d.functionName := binding]
    {
      var name := SubscriptionName(d.functionName);
      var previous := if d.functionName in bindings then Some(bindings[d.functionName]) else None;
      var req := Request(TopicName(d.project, d.topic), d.pushEndpoint, d.ackDeadline);
      var outcome := EnsureSubscription(name, req, a);
      match outcome {
        case Ok(sub) =>
          binding := Binding(d.functionName, sub.name, d.topic, d.pushEndpoint, Bound, None, None);
        case Err(e) =>
          if e.Unreachable? || 500 <= e.status < 600 || e.status == 409 {
            var backoff := NextBackoff(Config(client.project, initialBackoff, maxBackoff), previous);
            binding := Binding(d.functionName, name, d.topic, d.pushEndpoint, Pending, Some(e), Some(a.at + backoff));
          } else {
            binding := Binding(d.functionName, name, d.topic, d.pushEndpoint, Error, Some(e), None);
          }
      }
      bindings := bindings[d.functionName := binding];
    }

    method TryUnbind(f: string, a: Attempt)
      modifies this, client
      ensures State() == PubSub.TryUnbind(old(State()), Settings(), f, a)
      ensures client.states == old(client.states) + RemoteStates(old(State()), Settings(), Unbind(f, a))
    {
      var previous := if f in bindings then Some(bindings[f]) else None;
      var name := if previous.Some? then previous.value.subscription else SubscriptionName(f);
      var result := client.DeleteSubscription(name, a.delete);
      match result {
        case Ok(_) => bindings := bindings - {f};
        case Err(e) =>
          var backoff := NextBackoff(Config(client.project, initialBackoff, maxBackoff), previous);
          var binding := Binding(
            f, name,
            if previous.Some? then previous.value.topic else "",
            if previous.Some? then previous.value.pushEndpoint else "",
            Unbinding, Some(e), Some(a.at + backoff));
          bindings := bindings[f := binding];
      }
    }

    // One binding as the sweep's listing has it.
    method Retry(b: Binding, project: string, ack: nat, now: int, a: Attempt)
      modifies this, client
      ensures State() == SweepOne(old(State()), Settings(), b, project, ack, now, a)
    {
      if b.nextRetryAt.None? || b.nextRetryAt.value <= now {
        match b.state {
          case Pending =>
            var _ := TryBind(Desired(b.functionName, project, b.topic, b.pushEndpoint, ack), a);
          case Unbinding =>
            TryUnbind(b.functionName, a);
          case _ =>
        }
      }
    }

    // `list` is what the store listed when the sweep began.  Over an honest server the sweep settles
    // everything that is due; however its calls fail, it leaves alone what it need not retry.
    method SweepOnce(list: seq<Binding>, project: string, ack: nat, now: int, attempts: seq<Attempt>)
      requires Inv(State(), Settings()) && Complete(State(), list) && |attempts| == |list|
      modifies this, client
      ensures State() == Sweep(old(State()), Settings(), list, project, ack, now, attempts)
      ensures (forall a <- attempts :: Honest(a)) ==> Swept(old(State()), State(), Settings(), project, ack, now)
      ensures forall f: string :: !ToRetry(old(State()), f, now) ==> SameAt(old(State()), State(), f)
      ensures InTime(old(State()), State(), now, forall a <- attempts :: Honest(a), project)
    {
      ghost var w, c := State(), Settings();
      var n := 0;
      while n < |list|
        invariant 0 <= n <= |list|
        invariant State() == Sweep(w, c, list[..n], project, ack, now, attempts[..n])
      {
        Retry(list[n], project, ack, now, attempts[n]);
        SweepNext(w, c, list, project, ack, now, attempts, n);
        n := n + 1;
      }
      assert list[..n] == list && attempts[..n] == attempts;
      assert State() == Sweep(w, c, list, project, ack, now, attempts);
      SweepEffects(w, c, list, project, ack, now, attempts);
      SweepInTime(w, c, list, project, ack, now, attempts);
    }
  }
}
