/**
 An attempt of the reconciler cut by a crash: its calls change the server one by one, and the binding is
 stored after the last of them.  What the sweeps after a restart make of every cut.
 */
module PubSubCrashes {
  import opened Wrappers
  import opened PubSub
  import opened PubSubRuns

  // ---------- Cutting an attempt ----------

  // The server after each call that may change it.
  function EnsureStates(remote: Remote, project: string, name: string, req: Request, a: Attempt): seq<Remote> {
    var created := Create(remote, project, name, req, a.create);
    var found := Get(created.remote, name, a.get);
    if created.result == Err(Http(409)) && found.Ok? && found.value.Some? && !Matches(found.value.value, req) then
      var deleted := Delete(created.remote, name, a.delete);
      [created.remote, deleted.remote]
      + if deleted.result.Err? then [] else [Create(deleted.remote, project, name, req, a.again).remote]
    else
      [created.remote]
  }

  function RemoteStates(w: World, c: Config, s: Step): seq<Remote> {
    match s
    case Bind(d, a) => EnsureStates(w.remote, c.project, SubscriptionName(d.functionName), RequestOf(d), a)
    case Unbind(f, a) => [Delete(w.remote, UnbindName(w, f), a.delete).remote]
  }

  // An attempt that is not cut leaves the server in the last of these states.
  lemma StatesEnd(w: World, c: Config, s: Step)
    ensures var states := RemoteStates(w, c, s);
            states != [] && states[|states| - 1] == Apply(w, c, s).remote
  {
  }

  // The process died after `k` of these calls, and nothing was stored.
  function Died(w: World, c: Config, s: Step, k: nat): World
    requires k <= |RemoteStates(w, c, s)|
  {
    if k == 0 then w else World(w.bindings, RemoteStates(w, c, s)[k - 1])
  }

  lemma StatesKeep(remote: Remote, project: string, name: string, req: Request, a: Attempt)
    requires WellNamed(remote, project)
    ensures forall v <- EnsureStates(remote, project, name, req, a) ::
              WellNamed(v, project) && v - {SubscriptionId(name)} == remote - {SubscriptionId(name)}
  {
    var id := SubscriptionId(name);
    CreateKeeps(remote, project, name, req, a.create);
    var created := Create(remote, project, name, req, a.create).remote;
    DeleteKeeps(created, project, name, a.delete);
    CreateKeeps(Delete(created, name, a.delete).remote, project, name, req, a.again);
  }

  lemma DiedKeeps(w: World, c: Config, s: Step, k: nat)
    requires Inv(w, c) && '/' !in NameOf(s) && k <= |RemoteStates(w, c, s)|
    ensures var v, id := Died(w, c, s, k), SubscriptionName(NameOf(s));
            Inv(v, c) && v.bindings == w.bindings && v.remote - {id} == w.remote - {id}
  {
    match s {
      case Bind(d, a) =>
        OwnId(d.functionName, d.functionName);
        StatesKeep(w.remote, c.project, SubscriptionName(d.functionName), RequestOf(d), a);
      case Unbind(f, a) =>
        UnbindNameIsOwn(w, f);
        DeleteKeeps(w.remote, c.project, UnbindName(w, f), a.delete);
    }
  }

  // ---------- Agreement ----------

  predicate Serves(w: World, f: string, project: string) {
    var id := SubscriptionName(f);
    && f in w.bindings && id in w.remote
    && w.remote[id].topic == TopicName(project, w.bindings[f].topic)
    && w.remote[id].pushEndpoint == Some(w.bindings[f].pushEndpoint)
  }

  // Store and server agree on `f`: a bound binding has the subscription it says, no binding means no
  // subscription, and of any other binding the store says itself that it is not settled.
  predicate Agrees(w: World, f: string, project: string) {
    if f !in w.bindings then SubscriptionName(f) !in w.remote
    else w.bindings[f].state == Bound ==> Serves(w, f, project)
  }

  predicate Applied(fate: Fate) {
    fate.Served? || fate.applied
  }

  // None of the `k` calls made changed the subscription: with no binding there is none to delete, and a
  // bound one is there to be created again only once it was deleted.
  predicate NothingApplied(w: World, s: Step, k: nat) {
    || k == 0
    || match s
       case Bind(d, a) => if d.functionName in w.bindings then k == 1 || !Applied(a.delete) else !Applied(a.create)
       case Unbind(f, a) => f !in w.bindings || !Applied(a.delete)
  }

  // What the crash can be repaired from: a stored binding that does not claim to be settled, or nothing to
  // repair.
  predicate Survives(w: World, s: Step, k: nat) {
    || (NameOf(s) in w.bindings && w.bindings[NameOf(s)].state != Bound)
    || NothingApplied(w, s, k)
  }

  lemma BindDied(w: World, c: Config, d: Desired, a: Attempt, k: nat, project: string)
    requires var s := Bind(d, a);
             Inv(w, c) && '/' !in d.functionName && Agrees(w, d.functionName, project) && k <= |RemoteStates(w, c, s)|
    ensures Agrees(Died(w, c, Bind(d, a), k), d.functionName, project) <==> Survives(w, Bind(d, a), k)
  {
    OwnId(d.functionName, d.functionName);
  }

  lemma UnbindDied(w: World, c: Config, f: string, a: Attempt, k: nat, project: string)
    requires Inv(w, c) && '/' !in f && Agrees(w, f, project) && k <= |RemoteStates(w, c, Unbind(f, a))|
    ensures Agrees(Died(w, c, Unbind(f, a), k), f, project) <==> Survives(w, Unbind(f, a), k)
  {
    UnbindNameIsOwn(w, f);
  }

  lemma DiedAgrees(w: World, c: Config, s: Step, k: nat, project: string)
    requires Inv(w, c) && '/' !in NameOf(s) && Agrees(w, NameOf(s), project) && k <= |RemoteStates(w, c, s)|
    ensures Agrees(Died(w, c, s, k), NameOf(s), project) <==> Survives(w, s, k)
  {
    match s {
      case Bind(d, a) => BindDied(w, c, d, a, k, project);
      case Unbind(f, a) => UnbindDied(w, c, f, a, k, project);
    }
  }

  // A server that answers a deletion as done without doing it.
  predicate Lied(w: World, s: Step) {
    && s.Unbind? && s.attempt.delete.Answered? && !s.attempt.delete.applied
    && (Success(s.attempt.delete.status) || s.attempt.delete.status == 404)
    && SubscriptionName(s.functionName) in w.remote
  }

  lemma EnsuredAgrees(remote: Remote, project: string, id: string, req: Request, a: Attempt)
    requires SubscriptionId(id) == id
    ensures var reply := Ensure(remote, project, id, req, a);
            reply.result.Ok? ==> id in reply.remote && Matches(reply.remote[id], req)
  {
  }

  lemma BindDone(w: World, c: Config, d: Desired, a: Attempt)
    requires '/' !in d.functionName
    ensures Agrees(TryBind(w, c, d, a), d.functionName, d.project)
  {
    OwnId(d.functionName, d.functionName);
    EnsuredAgrees(w.remote, c.project, SubscriptionName(d.functionName), RequestOf(d), a);
  }

  lemma UnbindDone(w: World, c: Config, f: string, a: Attempt, project: string)
    requires Inv(w, c) && '/' !in f
    ensures Agrees(TryUnbind(w, c, f, a), f, project) <==> !Lied(w, Unbind(f, a))
  {
    UnbindNameIsOwn(w, f);
  }

  // An attempt that is not cut ends in agreement whatever it found and however its calls fail.
  lemma DoneAgrees(w: World, c: Config, s: Step, project: string)
    requires Inv(w, c) && '/' !in NameOf(s) && (s.Bind? ==> s.desired.project == project)
    ensures Agrees(Apply(w, c, s), NameOf(s), project) <==> !Lied(w, s)
  {
    match s {
      case Bind(d, a) => BindDone(w, c, d, a);
      case Unbind(f, a) => UnbindDone(w, c, f, a, project);
    }
  }

  // ---------- The sweeps after a restart ----------

  // An honest sweep keeps agreement and disagreement.
  lemma SweepAgrees(
    w: World, v: World, c: Config, project: string, ack: nat, now: int, f: string)
    requires Inv(w, c) && SweptAt(w, v, c, project, ack, now, f)
    ensures Agrees(v, f, project) <==> Agrees(w, f, project)
  {
  }

  lemma SameFromDied(w: World, u: World, v: World, c: Config, project: string, ack: nat, now: int, f: string, g: string)
    requires f != g && u.bindings == w.bindings && u.remote - {SubscriptionName(f)} == w.remote - {SubscriptionName(f)}
    requires SweptAt(u, v, c, project, ack, now, g)
    ensures SweptAt(w, v, c, project, ack, now, g)
  {
    SameElsewhere(w, u, f, g);
  }

  /**
   An attempt for `f` cut anywhere, the process started again, and an honest sweep: store and server agree on
   `f` exactly if the stored binding does not claim to be settled, or nothing had been applied.  Every other
   function ends as if the attempt had not been made.  An attempt that is not cut ends in agreement, always
   but when the server lies about a deletion.
   */
  lemma CrashedAttempt(
    w: World, c: Config, s: Step, k: nat, list: seq<Binding>, project: string, ack: nat, now: int,
    attempts: seq<Attempt>)
    requires Inv(w, c) && '/' !in NameOf(s) && Agrees(w, NameOf(s), project) && k <= |RemoteStates(w, c, s)|
    requires Complete(Died(w, c, s, k), list) && |attempts| == |list| && forall a <- attempts :: Honest(a)
    requires s.Bind? ==> s.desired.project == project
    ensures var v, f := Sweep(Died(w, c, s, k), c, list, project, ack, now, attempts), NameOf(s);
            && Inv(v, c)
            && (Agrees(v, f, project) <==> Survives(w, s, k))
            && (forall g: string | g != f :: SweptAt(w, v, c, project, ack, now, g))
            && (Agrees(Apply(w, c, s), f, project) <==> !Lied(w, s))
  {
    var u, f := Died(w, c, s, k), NameOf(s);
    var v := Sweep(u, c, list, project, ack, now, attempts);
    DiedKeeps(w, c, s, k);
    HonestSweep(u, c, list, project, ack, now, attempts);
    assert SweptAt(u, v, c, project, ack, now, f);
    SweepAgrees(u, v, c, project, ack, now, f);
    DiedAgrees(w, c, s, k, project);
    DoneAgrees(w, c, s, project);
    forall g: string | g != f ensures SweptAt(w, v, c, project, ack, now, g) {
      assert SweptAt(u, v, c, project, ack, now, g);
      SameFromDied(w, u, v, c, project, ack, now, f, g);
    }
  }

  lemma CreateEnsured(remote: Remote, project: string, id: string, req: Request, fate: Fate)
    requires SubscriptionId(id) == id
    ensures Ensured(Create(remote, project, id, req, fate).remote, project, id, req)
         == Ensured(remote, project, id, req)
  {
  }

  lemma DeleteEnsured(remote: Remote, project: string, id: string, req: Request, fate: Fate)
    requires SubscriptionId(id) == id && id in remote && !Matches(remote[id], req)
    ensures Ensured(Delete(remote, id, fate).remote, project, id, req) == Ensured(remote, project, id, req)
  {
  }

  lemma EnsuredAfterDeath(remote: Remote, project: string, id: string, req: Request, a: Attempt, v: Remote)
    requires SubscriptionId(id) == id && v in EnsureStates(remote, project, id, req, a)
    ensures Ensured(v, project, id, req) == Ensured(remote, project, id, req)
  {
    var created := Create(remote, project, id, req, a.create).remote;
    CreateEnsured(remote, project, id, req, a.create);
    if v != created {
      var deleted := Delete(created, id, a.delete).remote;
      DeleteEnsured(created, project, id, req, a.delete);
      CreateEnsured(deleted, project, id, req, a.again);
    }
  }

  // The retries a sweep makes are safe to cut: a later honest sweep ends as if the retry had not begun.
  lemma RetrySurvives(
    w: World, c: Config, f: string, a: Attempt, k: nat, list: seq<Binding>, project: string, ack: nat, now: int,
    attempts: seq<Attempt>)
    requires Inv(w, c) && ToRetry(w, f, now)
    requires var s := StepOf(w.bindings[f], project, ack, now, a)[0];
             && k <= |RemoteStates(w, c, s)| && Complete(Died(w, c, s, k), list)
    requires |attempts| == |list| && forall a <- attempts :: Honest(a)
    ensures var s := StepOf(w.bindings[f], project, ack, now, a)[0];
            SweptAt(w, Sweep(Died(w, c, s, k), c, list, project, ack, now, attempts), c, project, ack, now, f)
  {
    var s := StepOf(w.bindings[f], project, ack, now, a)[0];
    assert Kept(f, w.bindings[f]);
    var u := Died(w, c, s, k);
    DiedKeeps(w, c, s, k);
    HonestSweep(u, c, list, project, ack, now, attempts);
    assert SweptAt(u, Sweep(u, c, list, project, ack, now, attempts), c, project, ack, now, f);
    if w.bindings[f].state == Pending && k > 0 {
      OwnId(f, f);
      EnsuredAfterDeath(w.remote, c.project, SubscriptionName(f), RequestOf(s.desired), a, u.remote);
    }
  }

  // ---------- What is lost for good ----------

  datatype SweepRun = SweepRun(list: seq<Binding>, ack: nat, now: int, attempts: seq<Attempt>)

  function SweptOnce(w: World, c: Config, project: string, r: SweepRun): World
    requires |r.attempts| == |r.list|
  {
    Sweep(w, c, r.list, project, r.ack, r.now, r.attempts)
  }

  ghost predicate CanSweep(w: World, c: Config, project: string, runs: seq<SweepRun>)
    decreases runs
  {
    runs == [] ||
    (|runs[0].attempts| == |runs[0].list| && Listing(w, runs[0].list)
     && CanSweep(SweptOnce(w, c, project, runs[0]), c, project, runs[1..]))
  }

  function SweptAll(w: World, c: Config, project: string, runs: seq<SweepRun>): World
    requires CanSweep(w, c, project, runs)
    decreases runs
  {
    if runs == [] then w else SweptAll(SweptOnce(w, c, project, runs[0]), c, project, runs[1..])
  }

  lemma {:induction false} Stranded(w: World, c: Config, project: string, runs: seq<SweepRun>, f: string)
    requires Inv(w, c) && CanSweep(w, c, project, runs) && !Agrees(w, f, project)
    ensures !Agrees(SweptAll(w, c, project, runs), f, project)
    decreases runs
  {
    if runs != [] {
      var r := runs[0];
      SweepLeavesAlone(w, c, r.list, project, r.ack, r.now, r.attempts, f);
      Stranded(SweptOnce(w, c, project, r), c, project, runs[1..], f);
    }
  }

  // A crash that is not survived is never repaired: however many sweeps follow, and whatever becomes of
  // their calls, store and server keep disagreeing.
  lemma NeverRepaired(w: World, c: Config, s: Step, k: nat, project: string, runs: seq<SweepRun>)
    requires Inv(w, c) && '/' !in NameOf(s) && Agrees(w, NameOf(s), project) && k <= |RemoteStates(w, c, s)|
    requires CanSweep(Died(w, c, s, k), c, project, runs)
    ensures Agrees(SweptAll(Died(w, c, s, k), c, project, runs), NameOf(s), project) ==> Survives(w, s, k)
  {
    DiedKeeps(w, c, s, k);
    DiedAgrees(w, c, s, k, project);
    if !Survives(w, s, k) {
      Stranded(Died(w, c, s, k), c, project, runs, NameOf(s));
    }
  }

  // A first bind whose process dies once the subscription is made: nothing stored knows of it.
  lemma FirstBindLost(c: Config, d: Desired, a: Attempt)
    requires '/' !in d.functionName && Honest(a)
    ensures var w, s := World(map[], map[]), Bind(d, a);
            && Agrees(w, d.functionName, d.project) && |RemoteStates(w, c, s)| == 1
            && var v := Died(w, c, s, 1);
               d.functionName !in v.bindings && SubscriptionName(d.functionName) in v.remote
  {
    OwnId(d.functionName, d.functionName);
  }

  // A new trigger for a bound function whose process dies between deletion and creation: the binding stays
  // bound, to a subscription that is gone.
  lemma RebindLost(c: Config, d: Desired, d': Desired, a: Attempt)
    requires '/' !in d.functionName && d'.functionName == d.functionName && Honest(a)
    requires d'.project == d.project && (d'.topic != d.topic || d'.pushEndpoint != d.pushEndpoint)
    ensures var f, id := d.functionName, SubscriptionName(d.functionName);
            var w := World(map[f := BoundBinding(c, d)], map[id := NewSubscription(c.project, id, RequestOf(d))]);
            && Agrees(w, f, d.project) && |RemoteStates(w, c, Bind(d', a))| == 3
            && var v := Died(w, c, Bind(d', a), 2);
               v.bindings == w.bindings && id !in v.remote
  {
    OwnId(d.functionName, d.functionName);
    var prefix := "projects/" + d.project + "/topics/";
    assert TopicName(d.project, d.topic)[|prefix|..] == d.topic;
    assert TopicName(d.project, d'.topic)[|prefix|..] == d'.topic;
  }
}
