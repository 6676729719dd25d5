/**
 Pub/Sub trigger bindings: the stored bindings, the subscriptions of the Pub/Sub server, the client's
 calls on them under every way a call can fail, and the reconciler's attempts and sweeps.
 */
module PubSub {
  import opened Wrappers
  import opened Numbers

  datatype BindingState = Pending | Bound | Unbinding | Error

  datatype PubSubError = Unreachable | Http(status: nat)

  // Instants and durations are milliseconds.
  datatype Binding = Binding(
    functionName: string,
    subscription: string,
    topic: string,
    pushEndpoint: string,
    state: BindingState,
    lastError: Option<PubSubError>,
    nextRetryAt: Option<int>)

  datatype Request = Request(topic: string, pushEndpoint: string, ackDeadline: nat)

  datatype Subscription = Subscription(name: string, topic: string, pushEndpoint: Option<string>, ackDeadline: nat)

  // The server's subscriptions by id.
  type Remote = map<string, Subscription>

  // What becomes of one call: the server serves it; the connection is lost before or after the server
  // acts; or an answer comes with a status and without a usable body, again before or after it acts.
  datatype Fate = Served | Lost(applied: bool) | Answered(status: nat, applied: bool)

  predicate Success(status: nat) {
    200 <= status < 300
  }

  // ---------- Names ----------

  function SubscriptionName(functionName: string): string {
    "open-functions-" + functionName
  }

  // The bare id of a subscription given by id or by full resource name: what follows the last '/'.
  function SubscriptionId(name: string): string {
    if name == "" || name[|name| - 1] == '/' then ""
    else SubscriptionId(name[..|name| - 1]) + [name[|name| - 1]]
  }

  function ResourcePrefix(project: string): string {
    "projects/" + project + "/subscriptions/"
  }

  function ResourceName(project: string, id: string): string {
    ResourcePrefix(project) + id
  }

  lemma PrefixEnds(project: string)
    ensures ResourcePrefix(project) != "" && ResourcePrefix(project)[|ResourcePrefix(project)| - 1] == '/'
  {
    var prefix, last := "projects/" + project, "/subscriptions/";
    assert last[|last| - 1] == '/';
    assert ResourcePrefix(project) == prefix + last;
  }

  function TopicName(project: string, topic: string): string {
    "projects/" + project + "/topics/" + topic
  }

  // Either form of a name gives the id back.
  lemma {:induction false} IdOfEitherForm(prefix: string, id: string)
    requires '/' !in id && (prefix == "" || prefix[|prefix| - 1] == '/')
    ensures SubscriptionId(prefix + id) == id
    decreases |id|
  {
    var name := prefix + id;
    if id == "" {
      assert name == prefix;
    } else {
      var init, last := id[..|id| - 1], id[|id| - 1];
      assert name[..|name| - 1] == prefix + init && name[|name| - 1] == last;
      assert last in id && forall c <- init :: c in id;
      IdOfEitherForm(prefix, init);
      assert id == init + [last];
    }
  }

  lemma IdOfId(id: string)
    requires '/' !in id
    ensures SubscriptionId(id) == id
  {
    IdOfEitherForm("", id);
    assert "" + id == id;
  }

  lemma IdOfResourceName(project: string, id: string)
    requires '/' !in id
    ensures SubscriptionId(ResourceName(project, id)) == id && SubscriptionId(id) == id
  {
    PrefixEnds(project);
    IdOfEitherForm(ResourcePrefix(project), id);
    IdOfId(id);
  }

  // Function names hold no '/'; for such names the id is the short name, and different functions have
  // different ids.
  lemma OwnId(f: string, g: string)
    requires '/' !in f && '/' !in g
    ensures SubscriptionId(SubscriptionName(f)) == SubscriptionName(f)
    ensures SubscriptionName(f) == SubscriptionName(g) ==> f == g
  {
    IdOfId(SubscriptionName(f));
    assert SubscriptionName(f)[15..] == f && SubscriptionName(g)[15..] == g;
  }

  // ---------- The client's calls ----------

  function NewSubscription(project: string, id: string, req: Request): Subscription {
    Subscription(ResourceName(project, id), req.topic, Some(req.pushEndpoint), req.ackDeadline)
  }

  // What a served PUT leaves: it never changes a subscription that is already there.
  function WithCreated(remote: Remote, project: string, id: string, req: Request): Remote {
    if id in remote then remote else remote[id := NewSubscription(project, id, req)]
  }

  datatype Reply<T> = Reply(remote: Remote, result: Result<T, PubSubError>)

  function Create(remote: Remote, project: string, name: string, req: Request, fate: Fate): Reply<Subscription> {
    var id := SubscriptionId(name);
    var after := WithCreated(remote, project, id, req);
    match fate
    case Served =>
      if id in remote then Reply(remote, Err(Http(409))) else Reply(after, Ok(after[id]))
    case Lost(applied) => Reply(if applied then after else remote, Err(Unreachable))
    case Answered(status, applied) => Reply(if applied then after else remote, Err(Http(status)))
  }

  function Get(remote: Remote, name: string, fate: Fate): Result<Option<Subscription>, PubSubError> {
    var id := SubscriptionId(name);
    match fate
    case Served => Ok(if id in remote then Some(remote[id]) else None)
    case Lost(_) => Err(Unreachable)
    case Answered(status, _) => if status == 404 then Ok(None) else Err(Http(status))
  }

  // An answer of 404 counts as deleted.
  function Delete(remote: Remote, name: string, fate: Fate): Reply<()> {
    var after := remote - {SubscriptionId(name)};
    match fate
    case Served => Reply(after, Ok(()))
    case Lost(applied) => Reply(if applied then after else remote, Err(Unreachable))
    case Answered(status, applied) =>
      Reply(if applied then after else remote,
            if Success(status) || status == 404 then Ok(()) else Err(Http(status)))
  }

  // ---------- The reconciler ----------

  // `at` is the time an attempt ends; the fates are those of the calls it may make.
  datatype Attempt = Attempt(at: int, create: Fate, get: Fate, delete: Fate, again: Fate)

  datatype Config = Config(project: string, initialBackoff: nat, maxBackoff: nat)

  datatype Desired = Desired(
    functionName: string, project: string, topic: string, pushEndpoint: string, ackDeadline: nat)

  datatype World = World(bindings: map<string, Binding>, remote: Remote)

  function NextBackoff(c: Config, previous: Option<Binding>): int {
    if previous.Some? && (previous.value.state == Pending || previous.value.state == Unbinding)
    then Min(c.initialBackoff * 2, c.maxBackoff)
    else c.initialBackoff
  }

  function Previous(w: World, f: string): Option<Binding> {
    if f in w.bindings then Some(w.bindings[f]) else None
  }

  function RequestOf(d: Desired): Request {
    Request(TopicName(d.project, d.topic), d.pushEndpoint, d.ackDeadline)
  }

  predicate Matches(s: Subscription, req: Request) {
    s.topic == req.topic && s.pushEndpoint == Some(req.pushEndpoint)
  }

  function Recreate(remote: Remote, project: string, name: string, req: Request, a: Attempt): Reply<Subscription> {
    var deleted := Delete(remote, name, a.delete);
    if deleted.result.Err? then Reply(deleted.remote, Err(deleted.result.error))
    else Create(deleted.remote, project, name, req, a.again)
  }

  // Create; on a conflict keep what is there if it is as desired, else delete and create anew.
  function Ensure(remote: Remote, project: string, name: string, req: Request, a: Attempt): Reply<Subscription> {
    var created := Create(remote, project, name, req, a.create);
    if created.result == Err(Http(409)) then
      match Get(created.remote, name, a.get)
      case Ok(Some(existing)) =>
        if Matches(existing, req) then Reply(created.remote, Ok(existing))
        else Recreate(created.remote, project, name, req, a)
      case Ok(None) => Reply(created.remote, Err(Http(409)))
      case Err(e) => Reply(created.remote, Err(e))
    else created
  }

  predicate Transient(e: PubSubError) {
    e.Unreachable? || 500 <= e.status < 600 || e.status == 409
  }

  function BindingFor(d: Desired, outcome: Result<Subscription, PubSubError>, retryAt: int): Binding {
    match outcome
    case Ok(sub) => Binding(d.functionName, sub.name, d.topic, d.pushEndpoint, Bound, None, None)
    case Err(e) =>
      var name := SubscriptionName(d.functionName);
      if Transient(e) then Binding(d.functionName, name, d.topic, d.pushEndpoint, Pending, Some(e), Some(retryAt))
      else Binding(d.functionName, name, d.topic, d.pushEndpoint, Error, Some(e), None)
  }

  function TryBind(w: World, c: Config, d: Desired, a: Attempt): World {
    var reply := Ensure(w.remote, c.project, SubscriptionName(d.functionName), RequestOf(d), a);
    var binding := BindingFor(d, reply.result, a.at + NextBackoff(c, Previous(w, d.functionName)));
    World(w.bindings[d.functionName := binding], reply.remote)
  }

  function UnbindName(w: World, f: string): string {
    if f in w.bindings then w.bindings[f].subscription else SubscriptionName(f)
  }

  function StillUnbinding(w: World, c: Config, f: string, e: PubSubError, at: int): Binding {
    var previous := Previous(w, f);
    Binding(f, UnbindName(w, f),
            if previous.Some? then previous.value.topic else "",
            if previous.Some? then previous.value.pushEndpoint else "",
            Unbinding, Some(e), Some(at + NextBackoff(c, previous)))
  }

  // Only the `delete` fate matters here.
  function TryUnbind(w: World, c: Config, f: string, a: Attempt): World {
    var reply := Delete(w.remote, UnbindName(w, f), a.delete);
    if reply.result.Ok? then World(w.bindings - {f}, reply.remote)
    else World(w.bindings[f := StillUnbinding(w, c, f, reply.result.error, a.at)], reply.remote)
  }

  predicate Due(b: Binding, now: int) {
    b.nextRetryAt.None? || b.nextRetryAt.value <= now
  }

  function DesiredOf(b: Binding, project: string, ack: nat): Desired {
    Desired(b.functionName, project, b.topic, b.pushEndpoint, ack)
  }

  // `b` is the binding as the sweep's listing had it.
  function SweepOne(w: World, c: Config, b: Binding, project: string, ack: nat, now: int, a: Attempt): World {
    if !Due(b, now) then w
    else match b.state
      case Pending => TryBind(w, c, DesiredOf(b, project, ack), a)
      case Unbinding => TryUnbind(w, c, b.functionName, a)
      case _ => w
  }

  function Sweep(
    w: World, c: Config, list: seq<Binding>, project: string, ack: nat, now: int, attempts: seq<Attempt>): World
    requires |attempts| == |list|
    decreases list
  {
    if list == [] then w
    else
      var n := |list| - 1;
      SweepOne(Sweep(w, c, list[..n], project, ack, now, attempts[..n]), c, list[n], project, ack, now, attempts[n])
  }
}
