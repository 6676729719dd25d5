/**
 Trigger bindings over whole runs: what every attempt keeps however its calls fail, and what one sweep
 over an honest server makes of whatever earlier failures left.
 */
module PubSubRuns {
  import opened Wrappers
  import opened Numbers
  import opened PubSub

  // ---------- Runs ----------

  // A sweep is a series of such steps, one for each binding it finds due in its listing (which may be
  // out of date by then); so are the calls registrations and deletions make.
  datatype Step = Bind(desired: Desired, attempt: Attempt) | Unbind(functionName: string, attempt: Attempt)

  function NameOf(s: Step): string {
    if s.Bind? then s.desired.functionName else s.functionName
  }

  function Apply(w: World, c: Config, s: Step): World {
    match s
    case Bind(d, a) => TryBind(w, c, d, a)
    case Unbind(f, a) => TryUnbind(w, c, f, a)
  }

  function Run(w: World, c: Config, steps: seq<Step>): World
    decreases steps
  {
    if steps == [] then w else Run(Apply(w, c, steps[0]), c, steps[1..])
  }

  // ---------- What every step keeps ----------

  predicate Retrying(b: Binding) {
    b.state == Pending || b.state == Unbinding
  }

  // A stored binding is its own function's, names that function's subscription in either form, and has
  // a next retry exactly while there is something to retry.
  predicate Kept(f: string, b: Binding) {
    && b.functionName == f && '/' !in f
    && SubscriptionId(b.subscription) == SubscriptionName(f)
    && (b.nextRetryAt.Some? <==> Retrying(b))
  }

  // The server answers with a subscription's own full name.
  ghost predicate WellNamed(remote: Remote, project: string) {
    forall id <- remote :: remote[id].name == ResourceName(project, id)
  }

  ghost predicate AllKept(bindings: map<string, Binding>) {
    forall f <- bindings :: Kept(f, bindings[f])
  }

  ghost predicate Inv(w: World, c: Config) {
    AllKept(w.bindings) && WellNamed(w.remote, c.project)
  }

  lemma OneMoreKept(bindings: map<string, Binding>, f: string, b: Binding)
    requires AllKept(bindings) && Kept(f, b)
    ensures AllKept(bindings[f := b]) && bindings[f := b] - {f} == bindings - {f}
  {
  }

  lemma CreateKeeps(remote: Remote, project: string, name: string, req: Request, fate: Fate)
    requires WellNamed(remote, project)
    ensures var reply, id := Create(remote, project, name, req, fate), SubscriptionId(name);
            && WellNamed(reply.remote, project)
            && reply.remote - {id} == remote - {id}
            && (reply.result.Ok? ==> reply.result.value.name == ResourceName(project, id))
  {
  }

  // However the calls of an attempt fail, it touches no other subscription than its own.
  lemma EnsureKeeps(remote: Remote, project: string, name: string, req: Request, a: Attempt)
    requires WellNamed(remote, project)
    ensures var reply, id := Ensure(remote, project, name, req, a), SubscriptionId(name);
            && WellNamed(reply.remote, project)
            && reply.remote - {id} == remote - {id}
            && (reply.result.Ok? ==> reply.result.value.name == ResourceName(project, id))
  {
    var id := SubscriptionId(name);
    CreateKeeps(remote, project, name, req, a.create);
    var created := Create(remote, project, name, req, a.create);
    var deleted := Delete(created.remote, name, a.delete);
    assert deleted.remote - {id} == created.remote - {id};
    CreateKeeps(deleted.remote, project, name, req, a.again);
  }

  lemma EnsureOwn(remote: Remote, project: string, f: string, req: Request, a: Attempt)
    requires WellNamed(remote, project) && '/' !in f
    ensures var reply, id := Ensure(remote, project, SubscriptionName(f), req, a), SubscriptionName(f);
            && WellNamed(reply.remote, project)
            && reply.remote - {id} == remote - {id}
            && (reply.result.Ok? ==> reply.result.value.name == ResourceName(project, id))
  {
    OwnId(f, f);
    EnsureKeeps(remote, project, SubscriptionName(f), req, a);
  }

  lemma OutcomeKept(w: World, c: Config, d: Desired, reply: Reply<Subscription>, retryAt: int)
    requires Inv(w, c) && '/' !in d.functionName && WellNamed(reply.remote, c.project)
    requires reply.result.Ok? ==> reply.result.value.name == ResourceName(c.project, SubscriptionName(d.functionName))
    ensures var v := World(w.bindings[d.functionName := BindingFor(d, reply.result, retryAt)], reply.remote);
            Inv(v, c) && v.bindings - {d.functionName} == w.bindings - {d.functionName}
  {
    BindingKept(c, d, reply.result, retryAt);
    OneMoreKept(w.bindings, d.functionName, BindingFor(d, reply.result, retryAt));
  }

  lemma BindKeeps(w: World, c: Config, d: Desired, a: Attempt)
    requires Inv(w, c) && '/' !in d.functionName
    ensures var v, f := TryBind(w, c, d, a), d.functionName;
            && Inv(v, c)
            && v.bindings - {f} == w.bindings - {f}
            && v.remote - {SubscriptionName(f)} == w.remote - {SubscriptionName(f)}
  {
    EnsureOwn(w.remote, c.project, d.functionName, RequestOf(d), a);
    OutcomeKept(w, c, d, Ensure(w.remote, c.project, SubscriptionName(d.functionName), RequestOf(d), a),
                a.at + NextBackoff(c, Previous(w, d.functionName)));
  }

  lemma BindingKept(c: Config, d: Desired, outcome: Result<Subscription, PubSubError>, retryAt: int)
    requires '/' !in d.functionName
    requires outcome.Ok? ==> outcome.value.name == ResourceName(c.project, SubscriptionName(d.functionName))
    ensures Kept(d.functionName, BindingFor(d, outcome, retryAt))
  {
    OwnId(d.functionName, d.functionName);
    IdOfResourceName(c.project, SubscriptionName(d.functionName));
  }

  lemma DeleteKeeps(remote: Remote, project: string, name: string, fate: Fate)
    requires WellNamed(remote, project)
    ensures var reply := Delete(remote, name, fate);
            WellNamed(reply.remote, project) && reply.remote - {SubscriptionId(name)} == remote - {SubscriptionId(name)}
  {
  }

  lemma UnbindNameIsOwn(w: World, f: string)
    requires AllKept(w.bindings) && '/' !in f
    ensures SubscriptionId(UnbindName(w, f)) == SubscriptionName(f)
  {
    OwnId(f, f);
  }

  lemma UnbindKeeps(w: World, c: Config, f: string, a: Attempt)
    requires Inv(w, c) && '/' !in f
    ensures var v := TryUnbind(w, c, f, a);
            && Inv(v, c)
            && v.bindings - {f} == w.bindings - {f}
            && v.remote - {SubscriptionName(f)} == w.remote - {SubscriptionName(f)}
  {
    var reply := Delete(w.remote, UnbindName(w, f), a.delete);
    UnbindNameIsOwn(w, f);
    DeleteKeeps(w.remote, c.project, UnbindName(w, f), a.delete);
    if reply.result.Err? {
      OneMoreKept(w.bindings, f, StillUnbinding(w, c, f, reply.result.error, a.at));
    }
  }

  lemma StepKeeps(w: World, c: Config, s: Step)
    requires Inv(w, c) && '/' !in NameOf(s)
    ensures var v, f := Apply(w, c, s), NameOf(s);
            && Inv(v, c)
            && v.bindings - {f} == w.bindings - {f}
            && v.remote - {SubscriptionName(f)} == w.remote - {SubscriptionName(f)}
  {
    match s {
      case Bind(d, a) => BindKeeps(w, c, d, a);
      case Unbind(f, a) => UnbindKeeps(w, c, f, a);
    }
  }

  // Over every run, whatever fails: a next retry is set exactly for pending and unbinding bindings, and a
  // binding always names its own function's subscription.
  lemma {:induction false} RunKeeps(w: World, c: Config, steps: seq<Step>)
    requires Inv(w, c) && forall s <- steps :: '/' !in NameOf(s)
    ensures Inv(Run(w, c, steps), c)
    decreases steps
  {
    if steps != [] {
      StepKeeps(w, c, steps[0]);
      RunKeeps(Apply(w, c, steps[0]), c, steps[1..]);
    }
  }

  // ---------- Attempts on an honest server ----------

  predicate Honest(a: Attempt) {
    a.create == Served && a.get == Served && a.delete == Served && a.again == Served
  }

  // The subscription an honest attempt ends with: one that is as desired stays, acknowledgement deadline
  // and all; any other is replaced.
  function Ensured(remote: Remote, project: string, id: string, req: Request): Subscription {
    if id in remote && Matches(remote[id], req) then remote[id] else NewSubscription(project, id, req)
  }

  function BoundBinding(c: Config, d: Desired): Binding {
    Binding(d.functionName, ResourceName(c.project, SubscriptionName(d.functionName)), d.topic, d.pushEndpoint,
            Bound, None, None)
  }

  // Topic and endpoint are those wanted; one that had them is left alone, and a new one is the function's own.
  predicate AsDesired(remote: Remote, project: string, d: Desired, sub: Subscription) {
    var id := "open-functions-" + d.functionName;
    && sub.topic == "projects/" + d.project + "/topics/" + d.topic && sub.pushEndpoint == Some(d.pushEndpoint)
    && (id in remote && remote[id].topic == sub.topic && remote[id].pushEndpoint == sub.pushEndpoint ==>
          sub == remote[id])
    && (id !in remote ==>
          sub.name == "projects/" + project + "/subscriptions/" + id && sub.ackDeadline == d.ackDeadline)
  }

  lemma EnsuredFields(remote: Remote, project: string, d: Desired)
    ensures AsDesired(remote, project, d, Ensured(remote, project, SubscriptionName(d.functionName), RequestOf(d)))
  {
  }

  lemma HonestBind(w: World, c: Config, d: Desired, a: Attempt)
    requires Inv(w, c) && '/' !in d.functionName && Honest(a)
    ensures var id := SubscriptionName(d.functionName);
            var sub := Ensured(w.remote, c.project, id, RequestOf(d));
            && TryBind(w, c, d, a) == World(w.bindings[d.functionName := BoundBinding(c, d)], w.remote[id := sub])
            && AsDesired(w.remote, c.project, d, sub)
  {
    EnsuredFields(w.remote, c.project, d);
    var id, req := SubscriptionName(d.functionName), RequestOf(d);
    OwnId(d.functionName, d.functionName);
    if id in w.remote && !Matches(w.remote[id], req) {
      assert (w.remote - {id})[id := NewSubscription(c.project, id, req)]
          == w.remote[id := NewSubscription(c.project, id, req)];
    }
  }

  lemma HonestUnbind(w: World, c: Config, f: string, a: Attempt)
    requires Inv(w, c) && '/' !in f && Honest(a)
    ensures TryUnbind(w, c, f, a) == World(w.bindings - {f}, w.remote - {SubscriptionName(f)})
  {
    OwnId(f, f);
  }

  // ---------- Sweeps ----------

  // `list` holds stored bindings, each at most once.
  ghost predicate Listing(w: World, list: seq<Binding>) {
    && (forall i | 0 <= i < |list| :: list[i].functionName in w.bindings && w.bindings[list[i].functionName] == list[i])
    && (forall i, j | 0 <= i < j < |list| :: list[i].functionName != list[j].functionName)
  }

  ghost predicate Complete(w: World, list: seq<Binding>) {
    Listing(w, list) && forall f <- w.bindings :: w.bindings[f] in list
  }

  predicate SameAt(w: World, v: World, f: string) {
    var id := SubscriptionName(f);
    && (f in v.bindings <==> f in w.bindings)
    && (f in v.bindings && f in w.bindings ==> v.bindings[f] == w.bindings[f])
    && (id in v.remote <==> id in w.remote)
    && (id in v.remote && id in w.remote ==> v.remote[id] == w.remote[id])
  }

  predicate ToRetry(w: World, f: string, now: int) {
    f in w.bindings && Due(w.bindings[f], now) && Retrying(w.bindings[f])
  }

  // A pending binding that is due is bound, with its topic and endpoint on the server; an unbinding one
  // is gone, and its subscription with it; everything else is as it was.
  predicate SweptAt(w: World, v: World, c: Config, project: string, ack: nat, now: int, f: string) {
    if !ToRetry(w, f, now) then SameAt(w, v, f)
    else
      var id := SubscriptionName(f);
      if w.bindings[f].state == Pending then
        var d := DesiredOf(w.bindings[f], project, ack);
        && f in v.bindings && v.bindings[f] == BoundBinding(c, d)
        && id in v.remote && v.remote[id] == Ensured(w.remote, c.project, id, RequestOf(d))
      else
        f !in v.bindings && id !in v.remote
  }

  // Subscriptions that are not named after a function of ours are never touched.
  ghost predicate ForeignSame(w: World, v: World) {
    forall id | (forall f: string :: id != SubscriptionName(f)) ::
      (id in v.remote <==> id in w.remote) && (id in v.remote && id in w.remote ==> v.remote[id] == w.remote[id])
  }

  ghost predicate Swept(w: World, v: World, c: Config, project: string, ack: nat, now: int) {
    (forall f: string :: SweptAt(w, v, c, project, ack, now, f)) && ForeignSame(w, v)
  }

  predicate Listed(list: seq<Binding>, f: string) {
    exists b <- list :: b.functionName == f
  }

  // After part of the listing: those in it are swept, the others untouched.
  ghost predicate PartlySwept(
    w: World, v: World, c: Config, list: seq<Binding>, project: string, ack: nat, now: int)
  {
    && Inv(v, c) && ForeignSame(w, v)
    && forall f: string ::
         if Listed(list, f) then SweptAt(w, v, c, project, ack, now, f) else SameAt(w, v, f)
  }

  // One item of an honest sweep, its binding and subscription not yet touched by it.
  lemma SweepOneHonest(w: World, u: World, c: Config, b: Binding, project: string, ack: nat, now: int, a: Attempt)
    requires Inv(w, c) && Inv(u, c) && Honest(a)
    requires b.functionName in w.bindings && w.bindings[b.functionName] == b && SameAt(w, u, b.functionName)
    ensures var v := SweepOne(u, c, b, project, ack, now, a);
            && Inv(v, c)
            && SweptAt(w, v, c, project, ack, now, b.functionName)
            && v.bindings - {b.functionName} == u.bindings - {b.functionName}
            && v.remote - {SubscriptionName(b.functionName)} == u.remote - {SubscriptionName(b.functionName)}
  {
    var f := b.functionName;
    if ToRetry(w, f, now) {
      if b.state == Pending {
        StepKeeps(u, c, Bind(DesiredOf(b, project, ack), a));
        HonestBind(u, c, DesiredOf(b, project, ack), a);
      } else {
        StepKeeps(u, c, Unbind(f, a));
        HonestUnbind(u, c, f, a);
      }
    }
  }

  lemma SameElsewhere(u: World, v: World, f: string, g: string)
    requires f != g
    requires v.bindings - {f} == u.bindings - {f}
    requires v.remote - {SubscriptionName(f)} == u.remote - {SubscriptionName(f)}
    ensures SameAt(u, v, g)
  {
    assert SubscriptionName(f)[15..] == f && SubscriptionName(g)[15..] == g;
    var id := SubscriptionName(g);
    assert g in v.bindings <==> g in v.bindings - {f};
    assert g in u.bindings <==> g in u.bindings - {f};
    assert id in v.remote <==> id in v.remote - {SubscriptionName(f)};
    assert id in u.remote <==> id in u.remote - {SubscriptionName(f)};
    assert g in v.bindings ==> v.bindings[g] == (v.bindings - {f})[g];
    assert g in u.bindings ==> u.bindings[g] == (u.bindings - {f})[g];
    assert id in v.remote ==> v.remote[id] == (v.remote - {SubscriptionName(f)})[id];
    assert id in u.remote ==> u.remote[id] == (u.remote - {SubscriptionName(f)})[id];
  }

  lemma ForeignElsewhere(u: World, v: World, f: string)
    requires v.remote - {SubscriptionName(f)} == u.remote - {SubscriptionName(f)}
    ensures ForeignSame(u, v)
  {
    forall id | (forall g: string :: id != SubscriptionName(g))
      ensures id in v.remote <==> id in u.remote
      ensures id in v.remote && id in u.remote ==> v.remote[id] == u.remote[id]
    {
      assert id in v.remote <==> id in v.remote - {SubscriptionName(f)};
      assert id in u.remote <==> id in u.remote - {SubscriptionName(f)};
      assert id in v.remote ==> v.remote[id] == (v.remote - {SubscriptionName(f)})[id];
      assert id in u.remote ==> u.remote[id] == (u.remote - {SubscriptionName(f)})[id];
    }
  }

  lemma {:induction false} SweepPart(
    w: World, c: Config, list: seq<Binding>, project: string, ack: nat, now: int, attempts: seq<Attempt>)
    requires Inv(w, c) && Listing(w, list) && |attempts| == |list| && forall a <- attempts :: Honest(a)
    ensures PartlySwept(w, Sweep(w, c, list, project, ack, now, attempts), c, list, project, ack, now)
    decreases list
  {
    if list != [] {
      var n := |list| - 1;
      var f := list[n].functionName;
      SweepPart(w, c, list[..n], project, ack, now, attempts[..n]);
      var u := Sweep(w, c, list[..n], project, ack, now, attempts[..n]);
      var v := SweepOne(u, c, list[n], project, ack, now, attempts[n]);
      assert !Listed(list[..n], f);
      SweepOneHonest(w, u, c, list[n], project, ack, now, attempts[n]);
      ForeignElsewhere(u, v, f);
      forall g: string
        ensures if Listed(list, g) then SweptAt(w, v, c, project, ack, now, g) else SameAt(w, v, g)
      {
        ListedSnoc(list, g);
        if g != f {
          SameElsewhere(u, v, f, g);
        }
      }
    }
  }

  lemma ListedSnoc(list: seq<Binding>, g: string)
    requires list != []
    ensures Listed(list, g) <==> Listed(list[..|list| - 1], g) || list[|list| - 1].functionName == g
  {
    assert list == list[..|list| - 1] + [list[|list| - 1]];
  }

  // One uninterrupted sweep over an honest server settles everything that is due.
  lemma HonestSweep(
    w: World, c: Config, list: seq<Binding>, project: string, ack: nat, now: int, attempts: seq<Attempt>)
    requires Inv(w, c) && Complete(w, list) && |attempts| == |list| && forall a <- attempts :: Honest(a)
    ensures var v := Sweep(w, c, list, project, ack, now, attempts);
            Inv(v, c) && Swept(w, v, c, project, ack, now)
  {
    SweepPart(w, c, list, project, ack, now, attempts);
    var v := Sweep(w, c, list, project, ack, now, attempts);
    forall f: string ensures SweptAt(w, v, c, project, ack, now, f) {
      if ToRetry(w, f, now) {
        assert w.bindings[f] in list && w.bindings[f].functionName == f;
      }
    }
  }

  lemma SweptOnlyOneWay(w: World, u: World, v: World, c: Config, project: string, ack: nat, now: int)
    requires Swept(w, u, c, project, ack, now) && Swept(w, v, c, project, ack, now)
    ensures u == v
  {
    forall f: string
      ensures f in u.bindings <==> f in v.bindings
      ensures f in u.bindings && f in v.bindings ==> u.bindings[f] == v.bindings[f]
    {
      assert SweptAt(w, u, c, project, ack, now, f) && SweptAt(w, v, c, project, ack, now, f);
    }
    forall id: string
      ensures id in u.remote <==> id in v.remote
      ensures id in u.remote && id in v.remote ==> u.remote[id] == v.remote[id]
    {
      if f: string :| id == SubscriptionName(f) {
        assert SweptAt(w, u, c, project, ack, now, f) && SweptAt(w, v, c, project, ack, now, f);
      }
    }
    assert u.bindings == v.bindings && u.remote == v.remote;
  }

  // The order in which the store lists its bindings makes no difference.
  lemma SweepIgnoresOrder(
    w: World, c: Config, list: seq<Binding>, other: seq<Binding>, project: string, ack: nat, now: int,
    attempts: seq<Attempt>, others: seq<Attempt>)
    requires Inv(w, c) && Complete(w, list) && Complete(w, other) && |attempts| == |list| && |others| == |other|
    requires (forall a <- attempts :: Honest(a)) && (forall a <- others :: Honest(a))
    ensures Sweep(w, c, list, project, ack, now, attempts) == Sweep(w, c, other, project, ack, now, others)
  {
    HonestSweep(w, c, list, project, ack, now, attempts);
    HonestSweep(w, c, other, project, ack, now, others);
    SweptOnlyOneWay(w, Sweep(w, c, list, project, ack, now, attempts),
                    Sweep(w, c, other, project, ack, now, others), c, project, ack, now);
  }

  // Nothing is left to retry, every pending binding is bound, and nothing else is new or gone.
  ghost predicate AllSettled(w: World, v: World, project: string) {
    && (forall f <- v.bindings :: !Retrying(v.bindings[f]) && v.bindings[f].nextRetryAt.None?)
    && (forall f <- v.bindings :: f in w.bindings && w.bindings[f].state != Unbinding)
    && (forall f <- w.bindings :: w.bindings[f].state == Pending ==> BoundOnServer(v, f, w.bindings[f], project))
  }

  predicate BoundOnServer(v: World, f: string, b: Binding, project: string) {
    var id := SubscriptionName(f);
    && f in v.bindings && v.bindings[f].state == Bound
    && id in v.remote
    && v.remote[id].topic == "projects/" + project + "/topics/" + b.topic
    && v.remote[id].pushEndpoint == Some(b.pushEndpoint)
  }

  lemma SettledAt(w: World, v: World, c: Config, project: string, ack: nat, now: int, f: string)
    requires Inv(w, c) && SweptAt(w, v, c, project, ack, now, f) && (f in w.bindings ==> Due(w.bindings[f], now))
    ensures f in v.bindings ==>
              && !Retrying(v.bindings[f]) && v.bindings[f].nextRetryAt.None?
              && f in w.bindings && w.bindings[f].state != Unbinding
    ensures f in w.bindings && w.bindings[f].state == Pending ==> BoundOnServer(v, f, w.bindings[f], project)
  {
    assert f in w.bindings ==> Kept(f, w.bindings[f]);
  }

  /**
   Whatever a run of registrations, deletions and sweeps with failing calls left behind, one honest sweep
   at a time when every retry is due leaves nothing pending or unbinding.
   */
  lemma SweepConverges(
    remote: Remote, c: Config, steps: seq<Step>, list: seq<Binding>, project: string, ack: nat, now: int,
    attempts: seq<Attempt>)
    requires WellNamed(remote, c.project) && forall s <- steps :: '/' !in NameOf(s)
    requires Complete(Run(World(map[], remote), c, steps), list) && forall b <- list :: Due(b, now)
    requires |attempts| == |list| && forall a <- attempts :: Honest(a)
    ensures var w := Run(World(map[], remote), c, steps);
            var v := Sweep(w, c, list, project, ack, now, attempts);
            Swept(w, v, c, project, ack, now) && AllSettled(w, v, project)
  {
    RunKeeps(World(map[], remote), c, steps);
    var w := Run(World(map[], remote), c, steps);
    HonestSweep(w, c, list, project, ack, now, attempts);
    var v := Sweep(w, c, list, project, ack, now, attempts);
    forall f: string
      ensures f in v.bindings ==>
                && !Retrying(v.bindings[f]) && v.bindings[f].nextRetryAt.None?
                && f in w.bindings && w.bindings[f].state != Unbinding
      ensures f in w.bindings && w.bindings[f].state == Pending ==> BoundOnServer(v, f, w.bindings[f], project)
    {
      assert f in w.bindings ==> w.bindings[f] in list;
      assert SweptAt(w, v, c, project, ack, now, f);
      SettledAt(w, v, c, project, ack, now, f);
    }
  }

  // However its calls fail, a sweep leaves every binding alone that it has no reason to retry, and the
  // subscription of such a binding too.  A subscription lost behind a bound binding is not noticed.
  lemma {:induction false} SweepLeavesAlone(
    w: World, c: Config, list: seq<Binding>, project: string, ack: nat, now: int, attempts: seq<Attempt>, f: string)
    requires Inv(w, c) && Listing(w, list) && |attempts| == |list| && !ToRetry(w, f, now)
    ensures var v := Sweep(w, c, list, project, ack, now, attempts); Inv(v, c) && SameAt(w, v, f)
    decreases list
  {
    if list != [] {
      var n := |list| - 1;
      var b := list[n];
      SweepLeavesAlone(w, c, list[..n], project, ack, now, attempts[..n], f);
      var u := Sweep(w, c, list[..n], project, ack, now, attempts[..n]);
      if Due(b, now) && Retrying(b) {
        var s := if b.state == Pending then Bind(DesiredOf(b, project, ack), attempts[n])
                 else Unbind(b.functionName, attempts[n]);
        assert Kept(b.functionName, b);
        StepKeeps(u, c, s);
        SameElsewhere(u, Apply(u, c, s), b.functionName, f);
      }
    }
  }

  lemma SweepNext(
    w: World, c: Config, list: seq<Binding>, project: string, ack: nat, now: int, attempts: seq<Attempt>, n: nat)
    requires |attempts| == |list| && n < |list|
    ensures Sweep(w, c, list[..n + 1], project, ack, now, attempts[..n + 1])
         == SweepOne(Sweep(w, c, list[..n], project, ack, now, attempts[..n]),
                     c, list[n], project, ack, now, attempts[n])
  {
    assert list[..n + 1][..n] == list[..n] && attempts[..n + 1][..n] == attempts[..n];
  }

  lemma {:induction false} RunConcat(w: World, c: Config, xs: seq<Step>, ys: seq<Step>)
    ensures Run(w, c, xs + ys) == Run(Run(w, c, xs), c, ys)
    decreases xs
  {
    if xs == [] {
      assert xs + ys == ys;
    } else {
      assert (xs + ys)[1..] == xs[1..] + ys;
      RunConcat(Apply(w, c, xs[0]), c, xs[1..], ys);
    }
  }

  function StepOf(b: Binding, project: string, ack: nat, now: int, a: Attempt): seq<Step> {
    if !Due(b, now) || !Retrying(b) then []
    else if b.state == Pending then [Bind(DesiredOf(b, project, ack), a)]
    else [Unbind(b.functionName, a)]
  }

  function StepsOf(list: seq<Binding>, project: string, ack: nat, now: int, attempts: seq<Attempt>): seq<Step>
    requires |attempts| == |list|
    decreases list
  {
    if list == [] then []
    else
      var n := |list| - 1;
      StepsOf(list[..n], project, ack, now, attempts[..n]) + StepOf(list[n], project, ack, now, attempts[n])
  }

  // So every sweep, of whatever listing and however its calls fail, is a run.
  lemma {:induction false} SweepIsRun(
    w: World, c: Config, list: seq<Binding>, project: string, ack: nat, now: int, attempts: seq<Attempt>)
    requires |attempts| == |list|
    ensures Sweep(w, c, list, project, ack, now, attempts) == Run(w, c, StepsOf(list, project, ack, now, attempts))
    decreases list
  {
    if list != [] {
      var n := |list| - 1;
      SweepIsRun(w, c, list[..n], project, ack, now, attempts[..n]);
      var u := Sweep(w, c, list[..n], project, ack, now, attempts[..n]);
      var step := StepOf(list[n], project, ack, now, attempts[n]);
      RunConcat(w, c, StepsOf(list[..n], project, ack, now, attempts[..n]), step);
      if step != [] {
        assert step[1..] == [];
      }
    }
  }

  lemma SweepEffects(
    w: World, c: Config, list: seq<Binding>, project: string, ack: nat, now: int, attempts: seq<Attempt>)
    requires Inv(w, c) && Complete(w, list) && |attempts| == |list|
    ensures var v := Sweep(w, c, list, project, ack, now, attempts);
            && ((forall a <- attempts :: Honest(a)) ==> Swept(w, v, c, project, ack, now))
            && (forall f: string :: !ToRetry(w, f, now) ==> SameAt(w, v, f))
  {
    if forall a <- attempts :: Honest(a) {
      HonestSweep(w, c, list, project, ack, now, attempts);
    }
    forall f: string | !ToRetry(w, f, now)
      ensures SameAt(w, Sweep(w, c, list, project, ack, now, attempts), f)
    {
      SweepLeavesAlone(w, c, list, project, ack, now, attempts, f);
    }
  }

  // ---------- Waits ----------

  predicate IsRetrying(w: World, f: string) {
    f in w.bindings && Retrying(w.bindings[f])
  }

  // How long a failed attempt waits.
  function WaitFor(w: World, c: Config, f: string): int {
    if f in w.bindings && w.bindings[f].nextRetryAt.Some?
    then if c.initialBackoff * 2 <= c.maxBackoff then c.initialBackoff * 2 else c.maxBackoff
    else c.initialBackoff
  }

  // An attempt that leaves its binding to be retried, be it a bind or an unbind that failed, however it
  // failed and whatever the binding was: the next retry is twice the initial wait or the maximum away if
  // one was set before, else the initial wait.
  lemma FailedAttemptWaits(w: World, c: Config, s: Step)
    requires Inv(w, c) && IsRetrying(Apply(w, c, s), NameOf(s))
    ensures var f := NameOf(s);
            Apply(w, c, s).bindings[f].nextRetryAt == Some(s.attempt.at + WaitFor(w, c, f))
  {
    var f := NameOf(s);
    assert f in w.bindings ==> Kept(f, w.bindings[f]);
  }

  // A binding whose next retry is at `t` is left alone by every sweep before `t`, however its calls fail.
  lemma NotBeforeItsTime(
    w: World, c: Config, list: seq<Binding>, project: string, ack: nat, now: int, attempts: seq<Attempt>, f: string,
    t: int)
    requires Inv(w, c) && Listing(w, list) && |attempts| == |list|
    requires f in w.bindings && w.bindings[f].nextRetryAt == Some(t) && now < t
    ensures SameAt(w, Sweep(w, c, list, project, ack, now, attempts), f)
  {
    SweepLeavesAlone(w, c, list, project, ack, now, attempts, f);
  }

  // What was pending is bound, with its topic and endpoint on the server; what was to be unbound is gone.
  predicate SettledFrom(b: Binding, v: World, project: string) {
    match b.state
    case Pending => BoundOnServer(v, b.functionName, b, project)
    case Unbinding => b.functionName !in v.bindings && SubscriptionName(b.functionName) !in v.remote
    case _ => false
  }

  // From `t` on every honest sweep settles it.
  lemma FromItsTimeOn(
    w: World, c: Config, list: seq<Binding>, project: string, ack: nat, now: int, attempts: seq<Attempt>, f: string,
    t: int)
    requires Inv(w, c) && Complete(w, list) && |attempts| == |list| && forall a <- attempts :: Honest(a)
    requires f in w.bindings && w.bindings[f].nextRetryAt == Some(t) && now >= t
    ensures SettledFrom(w.bindings[f], Sweep(w, c, list, project, ack, now, attempts), project)
    ensures var v, id := Sweep(w, c, list, project, ack, now, attempts), SubscriptionName(f);
            w.bindings[f].state == Pending && id !in w.remote ==> id in v.remote && v.remote[id].ackDeadline == ack
  {
    var v := Sweep(w, c, list, project, ack, now, attempts);
    assert Kept(f, w.bindings[f]);
    HonestSweep(w, c, list, project, ack, now, attempts);
    assert SweptAt(w, v, c, project, ack, now, f);
    SettledAt(w, v, c, project, ack, now, f);
  }

  // So a sweep at `now`, by the clock alone.
  ghost predicate InTime(w: World, v: World, now: int, honest: bool, project: string) {
    forall f <- w.bindings | w.bindings[f].nextRetryAt.Some? ::
      var t := w.bindings[f].nextRetryAt.value;
      && (now < t ==> SameAt(w, v, f))
      && (now >= t && honest ==> SettledFrom(w.bindings[f], v, project))
  }

  lemma SweepInTime(
    w: World, c: Config, list: seq<Binding>, project: string, ack: nat, now: int, attempts: seq<Attempt>)
    requires Inv(w, c) && Complete(w, list) && |attempts| == |list|
    ensures InTime(w, Sweep(w, c, list, project, ack, now, attempts), now, forall a <- attempts :: Honest(a), project)
  {
    forall f <- w.bindings | w.bindings[f].nextRetryAt.Some?
      ensures var v, t := Sweep(w, c, list, project, ack, now, attempts), w.bindings[f].nextRetryAt.value;
              && (now < t ==> SameAt(w, v, f))
              && (now >= t && (forall a <- attempts :: Honest(a)) ==> SettledFrom(w.bindings[f], v, project))
    {
      if now < w.bindings[f].nextRetryAt.value {
        NotBeforeItsTime(w, c, list, project, ack, now, attempts, f, w.bindings[f].nextRetryAt.value);
      } else if forall a <- attempts :: Honest(a) {
        FromItsTimeOn(w, c, list, project, ack, now, attempts, f, w.bindings[f].nextRetryAt.value);
      }
    }
  }

  // No sweep before `t` touches `f`'s binding or subscription, whatever becomes of its calls; every honest one
  // from `t` on settles it.
  ghost predicate RetriedFrom(v: World, c: Config, f: string, t: int, project: string) {
    && f in v.bindings
    && forall list: seq<Binding>, ack: nat, now: int, attempts: seq<Attempt>
         | Complete(v, list) && |attempts| == |list| ::
         var v' := Sweep(v, c, list, project, ack, now, attempts);
         && (now < t ==> SameAt(v, v', f))
         && (now >= t && (forall a <- attempts :: Honest(a)) ==> SettledFrom(v.bindings[f], v', project))
  }

  lemma RetriedAtItsTime(v: World, c: Config, f: string, t: int, project: string)
    requires Inv(v, c) && f in v.bindings && v.bindings[f].nextRetryAt == Some(t)
    ensures RetriedFrom(v, c, f, t, project)
  {
    forall list: seq<Binding>, ack: nat, now: int, attempts: seq<Attempt>
      | Complete(v, list) && |attempts| == |list|
      ensures var v' := Sweep(v, c, list, project, ack, now, attempts);
              && (now < t ==> SameAt(v, v', f))
              && (now >= t && (forall a <- attempts :: Honest(a)) ==> SettledFrom(v.bindings[f], v', project))
    {
      if now < t {
        NotBeforeItsTime(v, c, list, project, ack, now, attempts, f, t);
      } else if forall a <- attempts :: Honest(a) {
        FromItsTimeOn(v, c, list, project, ack, now, attempts, f, t);
      }
    }
  }

  lemma RetriedForAll(c: Config)
    ensures forall v, f, t, project :: WaitsUntil(v, c, f, t) ==> RetriedFrom(v, c, f, t, project)
  {
    forall v, f, t, project | WaitsUntil(v, c, f, t) ensures RetriedFrom(v, c, f, t, project) {
      RetriedAtItsTime(v, c, f, t, project);
    }
  }

  ghost predicate WaitsUntil(v: World, c: Config, f: string, t: int) {
    Inv(v, c) && f in v.bindings && v.bindings[f].nextRetryAt == Some(t)
  }

  lemma StepWaits(w: World, c: Config, s: Step)
    requires Inv(w, c) && '/' !in NameOf(s) && IsRetrying(Apply(w, c, s), NameOf(s))
    ensures WaitsUntil(Apply(w, c, s), c, NameOf(s), s.attempt.at + WaitFor(w, c, NameOf(s)))
  {
    StepKeeps(w, c, s);
    FailedAttemptWaits(w, c, s);
  }

  /** After a failed attempt the binding is retried when its wait is over, not before and not later. */
  lemma RetriedInItsTime(w: World, c: Config, s: Step)
    requires Inv(w, c) && '/' !in NameOf(s) && IsRetrying(Apply(w, c, s), NameOf(s))
    ensures var t := s.attempt.at + WaitFor(w, c, NameOf(s));
            forall project: string :: RetriedFrom(Apply(w, c, s), c, NameOf(s), t, project)
  {
    StepWaits(w, c, s);
    RetriedForAll(c);
  }

  // The subscription the server has after the create was answered with a conflict, if it has one.
  function AfterConflict(
    remote: Remote, project: string, id: string, req: Request, create: Fate): Option<Subscription>
  {
    if id in remote then Some(remote[id])
    else if create.Answered? && create.applied then Some(NewSubscription(project, id, req))
    else None
  }

  // What the calls' answers come to: a create that is not in conflict decides; then a lookup that fails, or
  // finds nothing, or finds what is wanted; then a delete that fails; and then the second create.
  lemma EnsureAnswers(remote: Remote, project: string, id: string, req: Request, a: Attempt)
    requires '/' !in id
    ensures var r := Ensure(remote, project, id, req, a).result;
            var there := AfterConflict(remote, project, id, req, a.create);
            if a.create.Lost? then r == Err(Unreachable)
            else if a.create.Answered? && a.create.status != 409 then r == Err(Http(a.create.status))
            else if a.create.Served? && id !in remote then r == Ok(NewSubscription(project, id, req))
            else if a.get.Lost? then r == Err(Unreachable)
            else if a.get.Answered? && a.get.status != 404 then r == Err(Http(a.get.status))
            else if a.get.Answered? || there.None? then r == Err(Http(409))
            else if there.value.topic == req.topic && there.value.pushEndpoint == Some(req.pushEndpoint)
            then r == Ok(there.value)
            else if a.delete.Lost? then r == Err(Unreachable)
            else if a.delete.Answered? && a.delete.status != 404 && !(200 <= a.delete.status <= 299)
            then r == Err(Http(a.delete.status))
            else if a.again.Lost? then r == Err(Unreachable)
            else if a.again.Answered? then r == Err(Http(a.again.status))
            else if a.delete.Answered? && !a.delete.applied then r == Err(Http(409))
            else r == Ok(NewSubscription(project, id, req))
  {
    IdOfId(id);
  }

  // What an attempt makes of its answer: an unreachable server, a conflict and a status from 500 to 599 are
  // tried again; any other status is final; both keep the error, and what was wanted.
  lemma AnswersDecide(w: World, c: Config, d: Desired, a: Attempt)
    ensures var answer := Ensure(w.remote, c.project, SubscriptionName(d.functionName), RequestOf(d), a).result;
            var v := TryBind(w, c, d, a);
            && d.functionName in v.bindings
            && var b := v.bindings[d.functionName];
               && b.topic == d.topic && b.pushEndpoint == d.pushEndpoint && b.functionName == d.functionName
               && (b.state == Bound <==> answer.Ok?)
               && (b.state == Pending <==>
                     answer.Err? && (answer.error.Unreachable? || answer.error.status == 409 ||
                                     500 <= answer.error.status <= 599))
               && (b.state == Error <==> b.state != Bound && b.state != Pending)
               && (answer.Err? ==>
                     b.lastError == Some(answer.error) && b.subscription == "open-functions-" + d.functionName)
               && (answer.Ok? ==> b.lastError.None? && b.subscription == answer.value.name)
  {
  }

  // An unbind is done when the delete is answered with success or with 404; otherwise the binding stays to be
  // unbound, and keeps what it was for.
  lemma DeletesDecide(w: World, c: Config, f: string, a: Attempt)
    ensures var v, status := TryUnbind(w, c, f, a), if a.delete.Answered? then a.delete.status else 0;
            && (f in v.bindings <==> a.delete.Lost? || (a.delete.Answered? && !(200 <= status <= 299) && status != 404))
            && (f in v.bindings ==>
                  var b := v.bindings[f];
                  && b.state == Unbinding && b.functionName == f
                  && b.lastError == Some(if a.delete.Lost? then Unreachable else Http(status))
                  && b.subscription == (if f in w.bindings then w.bindings[f].subscription else "open-functions-" + f)
                  && b.topic == (if f in w.bindings then w.bindings[f].topic else "")
                  && b.pushEndpoint == (if f in w.bindings then w.bindings[f].pushEndpoint else ""))
  {
  }

  // The attempt is for `f` and fails.
  predicate FailsAt(w: World, c: Config, f: string, steps: seq<Step>, i: nat)
    requires i < |steps|
  {
    NameOf(steps[i]) == f && IsRetrying(Run(w, c, steps[..i + 1]), f)
  }

  predicate KeepsFailing(w: World, c: Config, f: string, steps: seq<Step>) {
    forall i | 0 <= i < |steps| :: FailsAt(w, c, f, steps, i)
  }

  // The documented backoff: double the last wait, up to the maximum.
  function Documented(c: Config, k: nat): int
    requires k >= 1
  {
    if k == 1 then c.initialBackoff else Min(2 * Documented(c, k - 1), c.maxBackoff)
  }

  function Wait(c: Config, k: nat): int
    requires k >= 1
  {
    if k == 1 then c.initialBackoff else Min(c.initialBackoff * 2, c.maxBackoff)
  }

  // `already` attempts failed before this one.
  lemma WaitOnce(w: World, c: Config, s: Step, already: nat)
    requires Inv(w, c) && IsRetrying(Apply(w, c, s), NameOf(s)) && (IsRetrying(w, NameOf(s)) <==> already > 0)
    ensures Apply(w, c, s).bindings[NameOf(s)].nextRetryAt == Some(s.attempt.at + Wait(c, already + 1))
  {
    FailedAttemptWaits(w, c, s);
    assert NameOf(s) in w.bindings ==> Kept(NameOf(s), w.bindings[NameOf(s)]);
  }

  lemma RunLast(w: World, c: Config, before: seq<Step>, s: Step)
    ensures Run(w, c, before + [s]) == Apply(Run(w, c, before), c, s)
  {
    RunConcat(w, c, before, [s]);
    assert [s][1..] == [];
  }

  // `before` failed throughout, and so does `s`.
  lemma WaitAtLast(w: World, c: Config, f: string, before: seq<Step>, s: Step)
    requires Inv(w, c) && '/' !in f && NameOf(s) == f && forall t <- before :: NameOf(t) == f
    requires IsRetrying(Run(w, c, before), f) <==> |before| > 0
    requires IsRetrying(Run(w, c, before + [s]), f)
    ensures Run(w, c, before + [s]).bindings[f].nextRetryAt == Some(s.attempt.at + Wait(c, |before| + 1))
  {
    RunKeeps(w, c, before);
    RunLast(w, c, before, s);
    WaitOnce(Run(w, c, before), c, s, |before|);
  }

  lemma FailsUpTo(w: World, c: Config, f: string, steps: seq<Step>, n: nat)
    requires KeepsFailing(w, c, f, steps) && 0 < n <= |steps|
    ensures IsRetrying(Run(w, c, steps[..n]), f)
  {
    assert FailsAt(w, c, f, steps, n - 1);
  }

  lemma AllFor(w: World, c: Config, f: string, steps: seq<Step>)
    requires KeepsFailing(w, c, f, steps)
    ensures forall t <- steps :: NameOf(t) == f
  {
    forall t <- steps ensures NameOf(t) == f {
      var i :| 0 <= i < |steps| && steps[i] == t;
      assert FailsAt(w, c, f, steps, i);
    }
  }

  // The wait after the k-th failure in a row is the initial backoff, then for ever twice that or the maximum.
  lemma WaitAfterFailures(w: World, c: Config, f: string, before: seq<Step>, s: Step)
    requires Inv(w, c) && '/' !in f && !IsRetrying(w, f) && KeepsFailing(w, c, f, before + [s])
    ensures var v := Run(w, c, before + [s]);
            f in v.bindings && v.bindings[f].nextRetryAt == Some(s.attempt.at + Wait(c, |before| + 1))
  {
    var steps := before + [s];
    var n := |before|;
    assert steps[..n] == before && steps[..n + 1] == steps && s in steps;
    FailsUpTo(w, c, f, steps, n + 1);
    if n > 0 {
      FailsUpTo(w, c, f, steps, n);
    }
    AllFor(w, c, f, steps);
    WaitAtLast(w, c, f, before, s);
  }

  lemma {:induction false} DocumentedBelow(c: Config, k: nat)
    requires k >= 2 && (c.maxBackoff <= 2 * c.initialBackoff || c.initialBackoff == 0)
    ensures Documented(c, k) == Wait(c, k)
    decreases k
  {
    if k > 2 {
      DocumentedBelow(c, k - 1);
    }
  }

  // So the documented exponential backoff is what happens exactly if one doubling reaches the maximum
  // (or there is no backoff at all); with the default 5 s and 60 s it is not.
  lemma BackoffIsAsDocumented(c: Config)
    ensures (forall k: nat | k >= 1 :: Wait(c, k) == Documented(c, k))
       <==> c.maxBackoff <= 2 * c.initialBackoff || c.initialBackoff == 0
  {
    if c.maxBackoff <= 2 * c.initialBackoff || c.initialBackoff == 0 {
      forall k: nat | k >= 1 ensures Wait(c, k) == Documented(c, k) {
        if k >= 2 {
          DocumentedBelow(c, k);
        }
      }
    } else {
      assert Documented(c, 2) == 2 * c.initialBackoff;
      assert Documented(c, 3) != Wait(c, 3);
    }
  }
}
