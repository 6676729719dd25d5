/**
 The registry service: its methods change the tables, the directories and the pool map write by write.
 `journal` is the history of those writes; every method performs exactly the list its operation is
 specified by, so what `RegistryOperations` proves about prefixes of that list holds at every point of
 the method's run.
 */
module Registry {
  import opened Wrappers
  import opened Sequences
  import opened RegistryModel
  import opened RegistryRestore

  datatype RegisterError = BuildInProgress | SourceNotFound | InvalidRuntime | Unsupported | Invalid

  // What the surroundings answer during a registration: whether the source directory exists, which
  // runtime it resolves to, the build mode that is available, the build's result, whether the Docker
  // daemon is there, and whether the assembled record passes validation.
  datatype Surroundings = Surroundings(
    sourceExists: bool,
    runtime: Option<Runtime>,
    mode: Option<BuildMode>,
    dockerAvailable: bool,
    valid: bool,
    id: BuildId,
    outcome: BuildOutcome,
    stuck: set<RevisionKey>)

  datatype RestoreReport = RestoreReport(buildsMarkedInterrupted: nat, functionsRestored: nat)

  class RegistryService {
    var functions: map<Name, Function>
    var revisions: map<RevisionKey, Revision>
    var builds: map<BuildId, Build>
    var dirs: set<RevisionKey>
    var pools: map<Name, PoolEntry>
    var building: set<Name>
    ghost var journal: seq<Write>

    ghost function State(): World
      reads this
    {
      World(functions, revisions, builds, dirs, pools)
    }

    // Since `w` and `j`, exactly the writes `xs` were done.
    ghost predicate Did(w: World, j: seq<Write>, xs: seq<Write>)
      reads this
    {
      State() == DoAll(w, xs) && journal == j + xs
    }

    // Writes `xs` led to `v` and `i`, and since then `ys` were done.
    lemma DidThen(w: World, j: seq<Write>, xs: seq<Write>, v: World, i: seq<Write>, ys: seq<Write>)
      requires v == DoAll(w, xs) && i == j + xs && Did(v, i, ys)
      ensures Did(w, j, xs + ys)
    {
      DoAllConcat(w, xs, ys);
    }

    // ---------- Single writes ----------

    method Put(f: Function)
      modifies this`functions, this`journal
      ensures Did(old(State()), old(journal), [PutFunction(f)])
      ensures functions == old(functions)[f.name := f]
    {
      DoAllShort(State(), PutFunction(f), PutFunction(f));
      functions := functions[f.name := f];
      journal := journal + [PutFunction(f)];
    }

    method StoreRevision(r: Revision)
      modifies this`revisions, this`journal
      ensures Did(old(State()), old(journal), [PutRevision(r)])
      ensures revisions == old(revisions)[(r.functionName, r.number) := r]
    {
      DoAllShort(State(), PutRevision(r), PutRevision(r));
      revisions := revisions[KeyOf(r) := r];
      journal := journal + [PutRevision(r)];
    }

    method StoreBuild(b: Build)
      modifies this`builds, this`journal
      ensures Did(old(State()), old(journal), [PutBuild(b)])
      ensures builds == old(builds)[b.id := b]
    {
      DoAllShort(State(), PutBuild(b), PutBuild(b));
      builds := builds[b.id := b];
      journal := journal + [PutBuild(b)];
    }

    method CreateDir(key: RevisionKey)
      modifies this`dirs, this`journal
      ensures Did(old(State()), old(journal), [MakeDir(key)])
      ensures dirs == old(dirs) + {key}
    {
      DoAllShort(State(), MakeDir(key), MakeDir(key));
      dirs := dirs + {key};
      journal := journal + [MakeDir(key)];
    }

    method DeleteDir(key: RevisionKey)
      modifies this`dirs, this`journal
      ensures Did(old(State()), old(journal), [RemoveDir(key)])
      ensures dirs == old(dirs) - {key}
    {
      DoAllShort(State(), RemoveDir(key), RemoveDir(key));
      dirs := dirs - {key};
      journal := journal + [RemoveDir(key)];
    }

    method InsertPool(name: Name, entry: PoolEntry)
      modifies this`pools, this`journal
      ensures Did(old(State()), old(journal), [SetPool(name, entry)])
      ensures pools == old(pools)[name := entry]
    {
      DoAllShort(State(), SetPool(name, entry), SetPool(name, entry));
      pools := pools[name := entry];
      journal := journal + [SetPool(name, entry)];
    }

    // ---------- Activation ----------

    // Directory first, record second; a directory that cannot be removed leaves its record as it is.
    method PruneRevision(key: RevisionKey, stuck: set<RevisionKey>)
      modifies this`revisions, this`dirs, this`journal
      ensures Did(old(State()), old(journal), PruneOne(old(State()), key, stuck))
    {
      if key !in revisions || revisions[key].artifactPruned || revisions[key].buildMode.None? {
        return;
      }
      if key in stuck {
        return;
      }
      ghost var w, j := State(), journal;
      var pruned := revisions[key].(artifactPruned := true, artifactPath := None);
      DeleteDir(key);
      ghost var v, i := State(), journal;
      StoreRevision(pruned);
      DidThen(w, j, [RemoveDir(key)], v, i, [PutRevision(pruned)]);
    }

    // Walks every revision below the one before `current`.
    method PruneOldArtifacts(name: Name, current: nat, stuck: set<RevisionKey>)
      modifies this`revisions, this`dirs, this`journal
      ensures Did(old(State()), old(journal),
                  if current < 2 then [] else PruneWrites(old(State()), name, 1, current - 1, stuck))
    {
      if current < 2 {
        return;
      }
      ghost var w, j := State(), journal;
      var number := 1;
      while number < current - 1
        invariant 1 <= number <= current - 1 || (number == 1 && current == 2)
        invariant Did(w, j, PruneWrites(w, name, 1, number, stuck))
      {
        ghost var v, i := State(), journal;
        PruneRevision((name, number), stuck);
        DidThen(w, j, PruneWrites(w, name, 1, number, stuck), v, i, PruneOne(v, (name, number), stuck));
        number := number + 1;
      }
    }

    // Image revisions run in containers, and so does Python built in one; everything else runs as a process.
    method ChooseDriver(r: Revision) returns (driver: Driver)
      ensures driver == ContainerDriver <==>
                || r.snapshot.source.Image?
                || (r.snapshot.runtime == Some(Python314) && r.buildMode == Some(Container))
      ensures driver == DriverFor(r)
    {
      match (r.snapshot.source, r.snapshot.runtime) {
        case (Image(_), _) => driver := ContainerDriver;
        case (Dir(_), Some(Python314)) =>
          if r.buildMode == Some(Container) {
            driver := ContainerDriver;
          } else {
            driver := ProcessDriver;
          }
        case (Dir(_), _) => driver := ProcessDriver;
      }
    }

    // The pool is switched to the revision, or made for it; then the record names it.
    method Switch(name: Name, r: Revision)
      modifies this`functions, this`pools, this`journal
      ensures Did(old(State()), old(journal), SwitchWrites(old(State()), name, r))
      ensures name in old(pools) ==> pools == old(pools)[name := old(pools)[name].(template := r.number)]
      ensures name !in old(pools) ==>
                && name in pools && pools == old(pools)[name := pools[name]]
                && pools[name].template == r.number && pools[name].settings == r.snapshot.settings
                && (pools[name].driver == ContainerDriver <==>
                      || r.snapshot.source.Image?
                      || (r.snapshot.runtime == Some(Python314) && r.buildMode == Some(Container)))
      ensures name in old(functions) ==>
                var f := old(functions)[name];
                functions == old(functions)[f.name := f.(currentRevision := Some(r.number), state := Ready,
                                                         lastError := None)]
      ensures name !in old(functions) ==> functions == old(functions)
    {
      ghost var w, j := State(), journal;
      var driver := ChooseDriver(r);
      var entry := if name in pools then pools[name].(template := r.number)
                   else PoolEntry(r.number, r.snapshot.settings, driver);
      InsertPool(name, entry);
      if name in functions {
        var f := functions[name].(currentRevision := Some(r.number), state := Ready, lastError := None);
        ghost var v, i := State(), journal;
        Put(f);
        DidThen(w, j, [SetPool(name, entry)], v, i, [PutFunction(f)]);
      } else {
        assert SwitchWrites(w, name, r) == [SetPool(name, entry)];
      }
    }

    method ActivateRevision(name: Name, r: Revision, stuck: set<RevisionKey>)
      modifies this`functions, this`revisions, this`dirs, this`pools, this`journal
      ensures Did(old(State()), old(journal), ActivateWrites(old(State()), name, r, stuck))
      ensures name in old(pools) ==> pools == old(pools)[name := old(pools)[name].(template := r.number)]
      ensures name !in old(pools) ==>
                && name in pools && pools == old(pools)[name := pools[name]]
                && pools[name].template == r.number && pools[name].settings == r.snapshot.settings
                && (pools[name].driver == ContainerDriver <==>
                      || r.snapshot.source.Image?
                      || (r.snapshot.runtime == Some(Python314) && r.buildMode == Some(Container)))
      ensures name in old(functions) ==>
                var f := old(functions)[name];
                functions == old(functions)[f.name := f.(currentRevision := Some(r.number), state := Ready,
                                                         lastError := None)]
      ensures name !in old(functions) ==> functions == old(functions)
    {
      ghost var w, j := State(), journal;
      Switch(name, r);
      ghost var v, i := State(), journal;
      PruneOldArtifacts(name, r.number, stuck);
      DidThen(w, j, SwitchWrites(w, name, r), v, i,
              if r.number < 2 then [] else PruneWrites(v, name, 1, r.number - 1, stuck));
    }

    // ---------- Registration ----------

    method RegisterSource(
      req: Request, id: BuildId, mode: BuildMode, outcome: BuildOutcome, stuck: set<RevisionKey>) returns (number: nat)
      modifies this`functions, this`revisions, this`builds, this`dirs, this`pools, this`journal
      ensures number == NextNumber(old(State()), req.name)
      ensures Did(old(State()), old(journal), SourceWrites(old(State()), req, id, mode, outcome, stuck))
    {
      ghost var w, j := State(), journal;
      var existing := if req.name in functions then Some(functions[req.name]) else None;
      number := 1 + if existing.Some? && existing.value.currentRevision.Some?
                    then existing.value.currentRevision.value else 0;
      var function' := Function(req.name, req.source, req.runtime, req.settings, Building,
                                if existing.Some? then existing.value.currentRevision else None, None);
      assert function' == FunctionRecord(w, req);
      RunBuild(req, id, number, function', outcome);
      ghost var build := BuildWrites(w, req, id, outcome);
      ghost var v, i := State(), journal;
      match outcome {
        case Built =>
          var snapshot := function'.(state := Ready, currentRevision := Some(number));
          var r := Revision(req.name, number, Some((req.name, number)), Some(mode), snapshot, false);
          StoreRevision(r);
          DidThen(w, j, build, v, i, [PutRevision(r)]);
          ghost var stored, i' := State(), journal;
          ActivateRevision(req.name, r, stuck);
          DidThen(w, j, build + [PutRevision(r)], stored, i', ActivateWrites(stored, req.name, r, stuck));
        case NotBuilt(message, _) =>
          var wasReady := existing.Some? && existing.value.state == Ready;
          var f := function'.(state := if wasReady then Ready else Failed, lastError := Some(BuildError(message)));
          Put(f);
          DidThen(w, j, build, v, i, [PutFunction(f)]);
      }
    }

    // The part common to both source runtimes: announce the function, record and run the build.
    method RunBuild(req: Request, id: BuildId, number: nat, f: Function, outcome: BuildOutcome)
      requires number == NextNumber(State(), req.name) && f == FunctionRecord(State(), req)
      modifies this`functions, this`builds, this`dirs, this`journal
      ensures Did(old(State()), old(journal), BuildWrites(old(State()), req, id, outcome))
    {
      ghost var w, j := State(), journal;
      var running := Build(id, req.name, number, Running);
      Put(f);
      ghost var v, i := State(), journal;
      StoreBuild(running);
      DidThen(w, j, [PutFunction(f)], v, i, [PutBuild(running)]);
      ghost var done := [PutFunction(f)] + [PutBuild(running)];
      if outcome.Built? || outcome.dirMade {
        v, i := State(), journal;
        CreateDir((req.name, number));
        DidThen(w, j, done, v, i, [MakeDir((req.name, number))]);
        done := done + [MakeDir((req.name, number))];
      }
      var finished := running.(status := if outcome.Built? then Succeeded else BuildFailed);
      v, i := State(), journal;
      StoreBuild(finished);
      DidThen(w, j, done, v, i, [PutBuild(finished)]);
      assert done + [PutBuild(finished)] == BuildWrites(w, req, id, outcome);
    }

    // The record goes straight to ready, naming a revision that is stored only afterwards.
    method RegisterImage(req: Request, stuck: set<RevisionKey>) returns (number: nat)
      modifies this`functions, this`revisions, this`dirs, this`pools, this`journal
      ensures number == NextNumber(old(State()), req.name)
      ensures Did(old(State()), old(journal), ImageWrites(old(State()), req, stuck))
    {
      ghost var w, j := State(), journal;
      number := 1 + if req.name in functions && functions[req.name].currentRevision.Some?
                    then functions[req.name].currentRevision.value else 0;
      var f := Function(req.name, req.source, req.runtime, req.settings, Ready, Some(number), None);
      assert f == ImageFunction(w, req);
      Put(f);
      var r := Revision(req.name, number, None, None, f, false);
      ghost var v, i := State(), journal;
      StoreRevision(r);
      DidThen(w, j, [PutFunction(f)], v, i, [PutRevision(r)]);
      ghost var first := [PutFunction(f)] + [PutRevision(r)];
      assert first == [PutFunction(f), PutRevision(r)];
      v, i := State(), journal;
      ActivateRevision(req.name, r, stuck);
      DidThen(w, j, first, v, i, ActivateWrites(v, req.name, r, stuck));
    }

    // Each check has its error, and the first one to fail decides.  A rejected registration writes nothing;
    // an accepted one does all its operation's writes.
    method Register(req: Request, s: Surroundings) returns (result: Result<nat, RegisterError>)
      modifies this
      ensures building == old(building)
      ensures result.Err? ==> State() == old(State()) && journal == old(journal)
      ensures result == Err(BuildInProgress) <==> req.name in old(building)
      ensures req.name !in old(building) && req.source.Dir? ==>
                && (result == Err(SourceNotFound) <==> !s.sourceExists)
                && (result == Err(InvalidRuntime) <==> s.sourceExists && s.runtime.None?)
                && (result == Err(Unsupported) <==> s.sourceExists && s.runtime.Some? && s.mode.None?)
                && (result == Err(Invalid) <==> s.sourceExists && s.runtime.Some? && s.mode.Some? && !s.valid)
      ensures req.name !in old(building) && req.source.Image? ==>
                && result != Err(SourceNotFound) && result != Err(InvalidRuntime)
                && (result == Err(Unsupported) <==> !s.dockerAvailable)
                && (result == Err(Invalid) <==> s.dockerAvailable && !s.valid)
      ensures result.Ok? ==> result.value == NextNumber(old(State()), req.name)
      ensures result.Ok? && req.source.Dir? ==>
                Did(old(State()), old(journal),
                    SourceWrites(old(State()), req.(runtime := s.runtime), s.id, s.mode.value, s.outcome, s.stuck))
      ensures result.Ok? && req.source.Image? ==>
                Did(old(State()), old(journal), ImageWrites(old(State()), req, s.stuck))
    {
      if req.name in building {
        return Err(BuildInProgress);
      }
      ghost var inProgress := building;
      building := building + {req.name};
      match req.source {
        case Dir(_) =>
          if !s.sourceExists {
            result := Err(SourceNotFound);
          } else if s.runtime.None? {
            result := Err(InvalidRuntime);
          } else if s.mode.None? {
            result := Err(Unsupported);
          } else if !s.valid {
            result := Err(Invalid);
          } else {
            var number := RegisterSource(req.(runtime := s.runtime), s.id, s.mode.value, s.outcome, s.stuck);
            result := Ok(number);
          }
        case Image(_) =>
          if !s.dockerAvailable {
            result := Err(Unsupported);
          } else if !s.valid {
            result := Err(Invalid);
          } else {
            var number := RegisterImage(req, s.stuck);
            result := Ok(number);
          }
      }
      building := building - {req.name};
      assert building == inProgress;
    }

    // ---------- Deletion ----------

    // `false`: there is no such function.  Revision and Build records stay.
    method Delete(name: Name, gone: seq<RevisionKey>) returns (found: bool)
      requires KeysMatch(State())
      modifies this`functions, this`dirs, this`pools, this`journal
      ensures found <==> name in old(functions)
      ensures Did(old(State()), old(journal), DeleteWrites(old(State()), name, gone))
    {
      if name !in functions {
        return false;
      }
      ghost var w, j := State(), journal;
      var deleting := functions[name].(state := Deleting);
      Put(deleting);
      ghost var v, i := State(), journal;
      DoAllShort(v, RemovePool(name), DropFunction(name));
      pools := pools - {name};
      functions := functions - {name};
      journal := journal + [RemovePool(name), DropFunction(name)];
      DidThen(w, j, [PutFunction(deleting)], v, i, [RemovePool(name), DropFunction(name)]);
      ghost var first := [PutFunction(deleting)] + [RemovePool(name), DropFunction(name)];
      assert first == [PutFunction(deleting), RemovePool(name), DropFunction(name)];
      v, i := State(), journal;
      RemoveTree(gone);
      DidThen(w, j, first, v, i, RemoveDirs(gone));
      found := true;
    }

    method RemoveTree(gone: seq<RevisionKey>)
      modifies this`dirs, this`journal
      ensures Did(old(State()), old(journal), RemoveDirs(gone))
    {
      ghost var w, j := State(), journal;
      var n := 0;
      while n < |gone|
        invariant 0 <= n <= |gone|
        invariant Did(w, j, RemoveDirs(gone[..n]))
      {
        ghost var v, i := State(), journal;
        DeleteDir(gone[n]);
        DidThen(w, j, RemoveDirs(gone[..n]), v, i, [RemoveDir(gone[n])]);
        assert gone[..n + 1][..n] == gone[..n];
        n := n + 1;
      }
      assert gone[..n] == gone;
    }

    // ---------- Restore ----------

    lemma BackfillThen(w: World, j: seq<Write>, names: seq<Name>, name: Name, v: World, i: seq<Write>)
      requires v == DoAll(w, BackfillWrites(w, names)) && i == j + BackfillWrites(w, names)
      requires Did(v, i, BackfillOne(v, name))
      ensures Did(w, j, BackfillWrites(w, names + [name]))
    {
      BackfillWritesStep(w, names, name);
      DidThen(w, j, BackfillWrites(w, names), v, i, BackfillOne(v, name));
    }

    method BackfillRuntime(names: seq<Name>)
      modifies this`functions, this`journal
      ensures Did(old(State()), old(journal), BackfillWrites(old(State()), names))
    {
      ghost var w, j := State(), journal;
      var n := 0;
      while n < |names|
        invariant 0 <= n <= |names|
        invariant Did(w, j, BackfillWrites(w, names[..n]))
      {
        ghost var v, i := State(), journal;
        if names[n] in functions && functions[names[n]].runtime.None? && functions[names[n]].source.Dir? {
          Put(functions[names[n]].(runtime := Some(Rust)));
        }
        BackfillThen(w, j, names[..n], names[n], v, i);
        assert names[..n + 1] == names[..n] + [names[n]];
        n := n + 1;
      }
      assert names[..n] == names;
    }

    method InterruptBuild(id: BuildId) returns (marked: bool)
      modifies this`functions, this`builds, this`journal
      ensures Did(old(State()), old(journal), InterruptOne(old(State()), id))
      ensures marked <==> id in old(builds) && old(builds)[id].status == Running
    {
      if id !in builds || builds[id].status != Running {
        return false;
      }
      ghost var w, j := State(), journal;
      var updated := builds[id].(status := BuildFailed);
      StoreBuild(updated);
      if updated.functionName in functions {
        var f := functions[updated.functionName];
        var state := if f.currentRevision.Some? then Ready else Failed;
        var f' := f.(lastError := Some(InterruptedByRestart), state := state);
        ghost var v, i := State(), journal;
        Put(f');
        DidThen(w, j, [PutBuild(updated)], v, i, [PutFunction(f')]);
      } else {
        assert InterruptOne(w, id) == [PutBuild(updated)];
      }
      marked := true;
    }

    lemma InterruptThen(w: World, j: seq<Write>, ids: seq<BuildId>, id: BuildId, v: World, i: seq<Write>)
      requires v == DoAll(w, InterruptWrites(w, ids)) && i == j + InterruptWrites(w, ids)
      requires Did(v, i, InterruptOne(v, id))
      ensures Did(w, j, InterruptWrites(w, ids + [id]))
    {
      InterruptWritesStep(w, ids, id);
      DidThen(w, j, InterruptWrites(w, ids), v, i, InterruptOne(v, id));
    }

    // One more build of the listing, `seen` being those before.
    method InterruptNext(id: BuildId, ghost w: World, ghost j: seq<Write>, ghost seen: seq<BuildId>)
      returns (marked: bool)
      requires KeysMatch(w) && NoDuplicates(seen) && id !in seen && Did(w, j, InterruptWrites(w, seen))
      modifies this`functions, this`builds, this`journal
      ensures Did(w, j, InterruptWrites(w, seen + [id]))
      ensures |RunningAmong(w, ToSet(seen + [id]))| == |RunningAmong(w, ToSet(seen))| + if marked then 1 else 0
    {
      ghost var v, i := State(), journal;
      OneMoreRunning(w, seen, id);
      marked := InterruptBuild(id);
      InterruptThen(w, j, seen, id, v, i);
    }

    method ReconcileInterruptedBuilds(ids: seq<BuildId>) returns (marked: nat)
      requires KeysMatch(State()) && NoDuplicates(ids)
      modifies this`functions, this`builds, this`journal
      ensures Did(old(State()), old(journal), InterruptWrites(old(State()), ids))
      ensures marked == |RunningAmong(old(State()), ToSet(ids))|
    {
      ghost var w, j := State(), journal;
      marked := 0;
      var n := 0;
      assert ids[..0] == [] && RunningAmong(w, {}) == {};
      while n < |ids|
        invariant 0 <= n <= |ids|
        invariant Did(w, j, InterruptWrites(w, ids[..n]))
        invariant marked == |RunningAmong(w, ToSet(ids[..n]))|
      {
        NextDistinct(ids, n);
        var was := InterruptNext(ids[n], w, j, ids[..n]);
        if was {
          marked := marked + 1;
        }
        n := n + 1;
      }
      assert ids[..n] == ids;
    }

    method RepoolFunction(name: Name, stuck: set<RevisionKey>) returns (restored: bool)
      modifies this`functions, this`revisions, this`dirs, this`pools, this`journal
      ensures Did(old(State()), old(journal), RepoolOne(old(State()), name, stuck))
      ensures restored <==> Serving(old(State()), name).Some?
    {
      ghost var w, j := State(), journal;
      if name !in functions || functions[name].state != Ready || functions[name].currentRevision.None? {
        return false;
      }
      var key := (name, functions[name].currentRevision.value);
      if key !in revisions {
        return false;
      }
      var lastError := functions[name].lastError;
      var r := revisions[key];
      ActivateRevision(name, r, stuck);
      if lastError.Some? && name in functions {
        ghost var v, i := State(), journal;
        var f := functions[name].(lastError := lastError);
        Put(f);
        DidThen(w, j, ActivateWrites(w, name, r, stuck), v, i, [PutFunction(f)]);
      } else {
        assert RepoolOne(w, name, stuck) == ActivateWrites(w, name, r, stuck);
      }
      restored := true;
    }

    lemma RepoolThen(
      w: World, j: seq<Write>, names: seq<Name>, name: Name, stuck: set<RevisionKey>, v: World, i: seq<Write>)
      requires v == DoAll(w, RepoolWrites(w, names, stuck)) && i == j + RepoolWrites(w, names, stuck)
      requires Did(v, i, RepoolOne(v, name, stuck))
      ensures Did(w, j, RepoolWrites(w, names + [name], stuck))
    {
      RepoolWritesStep(w, names, name, stuck);
      DidThen(w, j, RepoolWrites(w, names, stuck), v, i, RepoolOne(v, name, stuck));
    }

    // One more function of the listing, `seen` being those before.
    method RepoolNext(
      name: Name, stuck: set<RevisionKey>, ghost w: World, ghost j: seq<Write>, ghost seen: seq<Name>)
      returns (restored: bool)
      requires KeysMatch(w) && NoDuplicates(seen) && name !in seen && Did(w, j, RepoolWrites(w, seen, stuck))
      modifies this`functions, this`revisions, this`dirs, this`pools, this`journal
      ensures Did(w, j, RepoolWrites(w, seen + [name], stuck))
      ensures |ServedAmong(w, ToSet(seen + [name]))| == |ServedAmong(w, ToSet(seen))| + if restored then 1 else 0
    {
      ghost var v, i := State(), journal;
      ServedGrows(w, seen, name);
      StillServed(w, seen, name, stuck);
      restored := RepoolFunction(name, stuck);
      RepoolThen(w, j, seen, name, stuck, v, i);
    }

    method RestoreReadyFunctionPools(names: seq<Name>, stuck: set<RevisionKey>) returns (restored: nat)
      requires KeysMatch(State()) && NoDuplicates(names)
      modifies this`functions, this`revisions, this`dirs, this`pools, this`journal
      ensures Did(old(State()), old(journal), RepoolWrites(old(State()), names, stuck))
      ensures restored == |ServedAmong(old(State()), ToSet(names))|
    {
      ghost var w, j := State(), journal;
      restored := 0;
      var n := 0;
      assert names[..0] == [] && ServedAmong(w, {}) == {};
      while n < |names|
        invariant 0 <= n <= |names|
        invariant Did(w, j, RepoolWrites(w, names[..n], stuck))
        invariant restored == |ServedAmong(w, ToSet(names[..n]))|
      {
        NextDistinct(names, n);
        var ok := RepoolNext(names[n], stuck, w, j, names[..n]);
        if ok {
          restored := restored + 1;
        }
        n := n + 1;
      }
      assert names[..n] == names;
    }

    // `names` and `ids` are the store's listings, in whatever order it gives them.
    method Restore(names: seq<Name>, ids: seq<BuildId>, stuck: set<RevisionKey>) returns (report: RestoreReport)
      requires KeysMatch(State())
      requires NoDuplicates(names) && ToSet(names) == functions.Keys
      requires NoDuplicates(ids) && ToSet(ids) == builds.Keys
      modifies this`functions, this`revisions, this`builds, this`dirs, this`pools, this`journal
      ensures State() == Restored(old(State()), stuck)
      ensures Did(old(State()), old(journal), RestoreWrites(old(State()), names, ids, stuck))
      ensures report.buildsMarkedInterrupted == |RunningAmong(old(State()), old(builds).Keys)|
      ensures report.functionsRestored == |ServedAmong(Restored(old(State()), stuck), old(functions).Keys)|
    {
      ghost var w, j := State(), journal;
      ghost var w1 := DoAll(w, BackfillWrites(w, names));
      ghost var w2 := DoAll(w1, InterruptWrites(w1, ids));
      RestoreStages(w, w1, w2, names, ids, stuck);
      BackfillRuntime(names);
      ghost var j1 := journal;
      var marked := ReconcileInterruptedBuilds(ids);
      ghost var j2 := journal;
      DidThen(w, j, BackfillWrites(w, names), w1, j1, InterruptWrites(w1, ids));
      var restored := RestoreReadyFunctionPools(names, stuck);
      DidThen(w, j, BackfillWrites(w, names) + InterruptWrites(w1, ids), w2, j2, RepoolWrites(w2, names, stuck));
      RestoreIgnoresOrder(w, names, ids, stuck);
      report := RestoreReport(marked, restored);
    }

    // ---------- Listing ----------

    // Every stored revision from 1 to `upTo`, in order.
    method ListRevisionsFor(name: Name, upTo: nat) returns (list: seq<Revision>)
      requires KeysMatch(State())
      ensures forall r <- list :: KeyOf(r) in revisions && revisions[KeyOf(r)] == r && r.functionName == name
      ensures forall k :: 1 <= k <= upTo && (name, k) in revisions ==> revisions[(name, k)] in list
      ensures forall i, j :: 0 <= i < j < |list| ==> list[i].number < list[j].number <= upTo
    {
      list := [];
      var number := 1;
      while number <= upTo
        invariant 1 <= number <= upTo + 1
        invariant forall r <- list :: KeyOf(r) in revisions && revisions[KeyOf(r)] == r && r.functionName == name
        invariant forall r <- list :: r.number < number
        invariant forall k :: 1 <= k < number && (name, k) in revisions ==> revisions[(name, k)] in list
        invariant forall i, j :: 0 <= i < j < |list| ==> list[i].number < list[j].number
      {
        if (name, number) in revisions {
          assert KeyOf(revisions[(name, number)]) == (name, number);
          list := list + [revisions[(name, number)]];
        }
        number := number + 1;
      }
    }
  }
}
