/**
 What the registry keeps: the store's tables, the artifact directories and the in-memory pool map;
 the single writes its operations are made of; and the operations themselves as the lists of writes
 they perform, so that a crash is a prefix of such a list.
 */
module RegistryModel {
  import opened Wrappers

  type Name = string
  type BuildId = string
  type RevisionKey = (Name, nat)

  datatype FunctionState = Building | Ready | Failed | Deleting

  datatype Runtime = Rust | Python314

  datatype Source = Dir(path: string) | Image(reference: string)

  datatype LastError = BuildError(message: string) | InterruptedByRestart

  // `settings` stands for the execution limits a pool is configured with.
  datatype Function = Function(
    name: Name,
    source: Source,
    runtime: Option<Runtime>,
    settings: nat,
    state: FunctionState,
    currentRevision: Option<nat>,
    lastError: Option<LastError>)

  datatype BuildMode = Host | Container

  datatype BuildStatus = Running | Succeeded | BuildFailed

  datatype Build = Build(id: BuildId, functionName: Name, revision: nat, status: BuildStatus)

  // `artifactPath` is the directory an artifact lives in.
  datatype Revision = Revision(
    functionName: Name,
    number: nat,
    artifactPath: Option<RevisionKey>,
    buildMode: Option<BuildMode>,
    snapshot: Function,
    artifactPruned: bool)

  datatype Driver = ProcessDriver | ContainerDriver

  // A pool is made once with settings and a driver; `template` is the revision new instances run.
  datatype PoolEntry = PoolEntry(template: nat, settings: nat, driver: Driver)

  datatype World = World(
    functions: map<Name, Function>,
    revisions: map<RevisionKey, Revision>,
    builds: map<BuildId, Build>,
    dirs: set<RevisionKey>,
    pools: map<Name, PoolEntry>)

  datatype Write =
    | PutFunction(record: Function)
    | DropFunction(name: Name)
    | PutRevision(revision: Revision)
    | PutBuild(build: Build)
    | MakeDir(key: RevisionKey)
    | RemoveDir(key: RevisionKey)
    | SetPool(name: Name, entry: PoolEntry)
    | RemovePool(name: Name)

  function KeyOf(r: Revision): RevisionKey {
    (r.functionName, r.number)
  }

  function Do(w: World, x: Write): World {
    match x
    case PutFunction(f) => w.(functions := w.functions[f.name := f])
    case DropFunction(n) => w.(functions := w.functions - {n})
    case PutRevision(r) => w.(revisions := w.revisions[KeyOf(r) := r])
    case PutBuild(b) => w.(builds := w.builds[b.id := b])
    case MakeDir(k) => w.(dirs := w.dirs + {k})
    case RemoveDir(k) => w.(dirs := w.dirs - {k})
    case SetPool(n, e) => w.(pools := w.pools[n := e])
    case RemovePool(n) => w.(pools := w.pools - {n})
  }

  function DoAll(w: World, xs: seq<Write>): World
    decreases xs
  {
    if xs == [] then w else DoAll(Do(w, xs[0]), xs[1..])
  }

  lemma {:induction false} DoAllConcat(w: World, xs: seq<Write>, ys: seq<Write>)
    ensures DoAll(w, xs + ys) == DoAll(DoAll(w, xs), ys)
    decreases xs
  {
    if xs == [] {
      assert xs + ys == ys;
    } else {
      assert (xs + ys)[1..] == xs[1..] + ys;
      DoAllConcat(Do(w, xs[0]), xs[1..], ys);
    }
  }

  lemma DoAllShort(w: World, x: Write, y: Write)
    ensures DoAll(w, [x]) == Do(w, x)
    ensures DoAll(w, [x, y]) == Do(Do(w, x), y)
  {
    assert [x, y][1..] == [y];
    assert DoAll(Do(w, x), [y]) == DoAll(Do(Do(w, x), y), []);
  }

  // A process that dies loses its pools and nothing else.
  function Crash(w: World): World {
    w.(pools := map[])
  }

  // ---------- Activation and pruning ----------

  function DriverFor(r: Revision): Driver {
    match (r.snapshot.source, r.snapshot.runtime)
    case (Image(_), _) => ContainerDriver
    case (Dir(_), Some(Python314)) => if r.buildMode == Some(Container) then ContainerDriver else ProcessDriver
    case (Dir(_), _) => ProcessDriver
  }

  // An existing pool keeps its settings and driver; only the template is swapped.
  function Activated(pools: map<Name, PoolEntry>, r: Revision, name: Name): PoolEntry {
    if name in pools then pools[name].(template := r.number)
    else PoolEntry(r.number, r.snapshot.settings, DriverFor(r))
  }

  function Prunable(w: World, key: RevisionKey, stuck: set<RevisionKey>): bool {
    && key in w.revisions
    && !w.revisions[key].artifactPruned
    && w.revisions[key].buildMode.Some?
    && key !in stuck
  }

  function PrunedRecord(r: Revision): Revision {
    r.(artifactPruned := true, artifactPath := None)
  }

  // `stuck` are the directories whose removal fails.
  function PruneOne(w: World, key: RevisionKey, stuck: set<RevisionKey>): seq<Write> {
    if Prunable(w, key, stuck)
    then [RemoveDir(key), PutRevision(PrunedRecord(w.revisions[key]))]
    else []
  }

  function PruneWrites(w: World, name: Name, from: nat, end: nat, stuck: set<RevisionKey>): seq<Write>
    decreases end
  {
    if end <= from then []
    else
      var before := PruneWrites(w, name, from, end - 1, stuck);
      before + PruneOne(DoAll(w, before), (name, end - 1), stuck)
  }

  function Activate(f: Function, number: nat): Function {
    f.(currentRevision := Some(number), state := Ready, lastError := None)
  }

  function SwitchWrites(w: World, name: Name, r: Revision): seq<Write> {
    [SetPool(name, Activated(w.pools, r, name))]
    + if name in w.functions then [PutFunction(Activate(w.functions[name], r.number))] else []
  }

  function ActivateWrites(w: World, name: Name, r: Revision, stuck: set<RevisionKey>): seq<Write> {
    var switch := SwitchWrites(w, name, r);
    switch
    + if r.number < 2 then []
      else PruneWrites(DoAll(w, switch), name, 1, r.number - 1, stuck)
  }

  // ---------- Registration ----------

  datatype Request = Request(name: Name, source: Source, runtime: Option<Runtime>, settings: nat)

  datatype BuildOutcome = Built | NotBuilt(message: string, dirMade: bool)

  function CurrentNumber(w: World, name: Name): nat {
    if name in w.functions && w.functions[name].currentRevision.Some?
    then w.functions[name].currentRevision.value
    else 0
  }

  function NextNumber(w: World, name: Name): nat {
    CurrentNumber(w, name) + 1
  }

  function FunctionRecord(w: World, req: Request): Function {
    Function(req.name, req.source, req.runtime, req.settings, Building,
             if req.name in w.functions then w.functions[req.name].currentRevision else None, None)
  }

  // A build that fails leaves a function that was ready ready, and any other one failed.
  function AfterFailedBuild(w: World, req: Request, message: string): Function {
    FunctionRecord(w, req).(
      state := if req.name in w.functions && w.functions[req.name].state == Ready then Ready else Failed,
      lastError := Some(BuildError(message)))
  }

  function SourceRevision(w: World, req: Request, mode: BuildMode): Revision {
    var number := NextNumber(w, req.name);
    Revision(req.name, number, Some((req.name, number)), Some(mode),
             FunctionRecord(w, req).(state := Ready, currentRevision := Some(number)), false)
  }

  // Everything up to the finished Build record.
  function BuildWrites(w: World, req: Request, id: BuildId, outcome: BuildOutcome): seq<Write> {
    var number := NextNumber(w, req.name);
    [PutFunction(FunctionRecord(w, req)), PutBuild(Build(id, req.name, number, Running))]
    + (if outcome.Built? || outcome.dirMade then [MakeDir((req.name, number))] else [])
    + [PutBuild(Build(id, req.name, number, if outcome.Built? then Succeeded else BuildFailed))]
  }

  function SourceWrites(
    w: World, req: Request, id: BuildId, mode: BuildMode, outcome: BuildOutcome, stuck: set<RevisionKey>): seq<Write>
  {
    var build := BuildWrites(w, req, id, outcome);
    match outcome
    case Built =>
      var r := SourceRevision(w, req, mode);
      var stored := build + [PutRevision(r)];
      stored + ActivateWrites(DoAll(w, stored), req.name, r, stuck)
    case NotBuilt(message, _) =>
      build + [PutFunction(AfterFailedBuild(w, req, message))]
  }

  function ImageFunction(w: World, req: Request): Function {
    FunctionRecord(w, req).(state := Ready, currentRevision := Some(NextNumber(w, req.name)))
  }

  function ImageRevision(w: World, req: Request): Revision {
    Revision(req.name, NextNumber(w, req.name), None, None, ImageFunction(w, req), false)
  }

  // The function record names the new revision before the revision is stored.
  function ImageWrites(w: World, req: Request, stuck: set<RevisionKey>): seq<Write> {
    var stored := [PutFunction(ImageFunction(w, req)), PutRevision(ImageRevision(w, req))];
    stored + ActivateWrites(DoAll(w, stored), req.name, ImageRevision(w, req), stuck)
  }

  // ---------- Deletion ----------

  function RemoveDirs(keys: seq<RevisionKey>): seq<Write> {
    if keys == [] then [] else RemoveDirs(keys[..|keys| - 1]) + [RemoveDir(keys[|keys| - 1])]
  }

  // Removing the function's directory tree is best effort: `gone` are the directories it gets rid of.
  function DeleteWrites(w: World, name: Name, gone: seq<RevisionKey>): seq<Write> {
    if name in w.functions
    then [PutFunction(w.functions[name].(state := Deleting)), RemovePool(name), DropFunction(name)] + RemoveDirs(gone)
    else []
  }

  // ---------- Restore ----------

  function Backfilled(f: Function): Function {
    if f.runtime.None? && f.source.Dir? then f.(runtime := Some(Rust)) else f
  }

  function BackfillOne(w: World, name: Name): seq<Write> {
    if name in w.functions && Backfilled(w.functions[name]) != w.functions[name]
    then [PutFunction(Backfilled(w.functions[name]))]
    else []
  }

  function BackfillWrites(w: World, names: seq<Name>): seq<Write>
    decreases names
  {
    if names == [] then []
    else
      var before := BackfillWrites(w, names[..|names| - 1]);
      before + BackfillOne(DoAll(w, before), names[|names| - 1])
  }

  function Marked(f: Function): Function {
    f.(lastError := Some(InterruptedByRestart), state := if f.currentRevision.Some? then Ready else Failed)
  }

  function InterruptOne(w: World, id: BuildId): seq<Write> {
    if id in w.builds && w.builds[id].status == Running then
      var name := w.builds[id].functionName;
      [PutBuild(w.builds[id].(status := BuildFailed))]
      + if name in w.functions then [PutFunction(Marked(w.functions[name]))] else []
    else []
  }

  function InterruptWrites(w: World, ids: seq<BuildId>): seq<Write>
    decreases ids
  {
    if ids == [] then []
    else
      var before := InterruptWrites(w, ids[..|ids| - 1]);
      before + InterruptOne(DoAll(w, before), ids[|ids| - 1])
  }

  // The revision a restart serves `name` from, if any.
  function Serving(w: World, name: Name): Option<Revision> {
    if name in w.functions && w.functions[name].state == Ready && w.functions[name].currentRevision.Some?
       && (name, w.functions[name].currentRevision.value) in w.revisions
    then Some(w.revisions[(name, w.functions[name].currentRevision.value)])
    else None
  }

  // Activation clears `lastError`; a marker set before it is written back.
  function RepoolOne(w: World, name: Name, stuck: set<RevisionKey>): seq<Write> {
    if Serving(w, name).None? then []
    else
      var activate := ActivateWrites(w, name, Serving(w, name).value, stuck);
      var lastError := w.functions[name].lastError;
      var after := DoAll(w, activate);
      activate
      + if lastError.Some? && name in after.functions
        then [PutFunction(after.functions[name].(lastError := lastError))]
        else []
  }

  function RepoolWrites(w: World, names: seq<Name>, stuck: set<RevisionKey>): seq<Write>
    decreases names
  {
    if names == [] then []
    else
      var before := RepoolWrites(w, names[..|names| - 1], stuck);
      before + RepoolOne(DoAll(w, before), names[|names| - 1], stuck)
  }

  // `names` and `ids` are what the store lists.
  function RestoreWrites(w: World, names: seq<Name>, ids: seq<BuildId>, stuck: set<RevisionKey>): seq<Write> {
    var backfill := BackfillWrites(w, names);
    var w1 := DoAll(w, backfill);
    var interrupt := InterruptWrites(w1, ids);
    var w2 := DoAll(w1, interrupt);
    backfill + interrupt + RepoolWrites(w2, names, stuck)
  }
}
