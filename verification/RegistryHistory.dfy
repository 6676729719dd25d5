/**
 Image registrations and deletions cut short, and whole histories of completed operations.
 */
module RegistryHistory {
  import opened Wrappers
  import opened Sequences
  import opened RegistryModel
  import opened RegistryRestore
  import opened RegistryCrash
  import opened RegistrySlices
  import opened RegistryOperations

  // ---------- Image registration ----------

  function Named(w: World, req: Request): World {
    w.(functions := w.functions[req.name := ImageFunction(w, req)])
  }

  function ImageStored(w: World, req: Request): World {
    var v := Named(w, req);
    v.(revisions := v.revisions[(req.name, NextNumber(w, req.name)) := ImageRevision(w, req)])
  }

  lemma ImageStoredResult(w: World, req: Request)
    ensures DoAll(w, [PutFunction(ImageFunction(w, req)), PutRevision(ImageRevision(w, req))]) == ImageStored(w, req)
  {
    DoAllShort(w, PutFunction(ImageFunction(w, req)), PutRevision(ImageRevision(w, req)));
  }

  lemma ImagePrefix(w: World, req: Request, stuck: set<RevisionKey>, k: nat)
    requires KeysMatch(w) && k <= |ImageWrites(w, req, stuck)|
    ensures var v := DoAll(w, ImageWrites(w, req, stuck)[..k]);
            var stored := ImageStored(w, req);
            var r := ImageRevision(w, req);
            && KeysMatch(stored)
            && (k == 0 ==> v == w)
            && (k == 1 ==> v == Named(w, req))
            && (2 <= k <= 3 ==> v == stored.(pools := v.pools))
            && (k >= 4 ==> PrunedPartly(Switched(stored, req.name, r), v, req.name, 1, PruneEnd(r.number), stuck))
  {
    var first := [PutFunction(ImageFunction(w, req)), PutRevision(ImageRevision(w, req))];
    var stored := ImageStored(w, req);
    var r := ImageRevision(w, req);
    ImageStoredResult(w, req);
    PrefixOfConcat(w, first, ActivateWrites(stored, req.name, r, stuck), k);
    assert first[..0] == [] && first[..1] == [first[0]] && first[..2] == first;
    DoAllShort(w, first[0], first[1]);
    if 2 <= k <= 3 {
      SwitchPrefix(stored, req.name, r, stuck, k - 2);
    } else if k >= 4 {
      ActivatePrefix(stored, req.name, r, stuck, k - 2);
    }
  }

  lemma ImageOwned(w: World, req: Request, stuck: set<RevisionKey>)
    requires KeysMatch(w)
    ensures Own(ImageWrites(w, req, stuck), req.name, None)
    ensures OwnedBy(ImageWrites(w, req, stuck), req.name) && OwnBuilds(w, ImageWrites(w, req, stuck))
  {
    var first := [PutFunction(ImageFunction(w, req)), PutRevision(ImageRevision(w, req))];
    ImageStoredResult(w, req);
    ActivateOwned(ImageStored(w, req), req.name, ImageRevision(w, req), stuck, None);
    OwnConcat(first, ActivateWrites(ImageStored(w, req), req.name, ImageRevision(w, req), stuck), req.name, None);
    OwnIsOwned(w, ImageWrites(w, req, stuck), req.name, None);
  }

  // The revision an image registration is about to name, left over from an earlier life of the name.
  predicate Leftover(w: World, n: Name) {
    var key := (n, NextNumber(w, n));
    key in w.revisions && !w.revisions[key].artifactPruned
  }

  lemma TornWhole(w: World, req: Request)
    requires Whole(w, req.name)
    ensures Whole(Named(w, req), req.name) <==> Leftover(w, req.name)
  {
    var n, v := req.name, Named(w, req);
    if Leftover(w, n) {
      forall k: nat | 1 <= k <= CurrentNumber(v, n) ensures (n, k) in v.revisions && Retained(v, n, k) {
        assert k <= CurrentNumber(w, n) ==> (n, k) in w.revisions && Retained(w, n, k);
      }
    } else {
      assert CurrentNumber(v, n) == NextNumber(w, n);
      assert !((n, NextNumber(w, n)) in v.revisions && Retained(v, n, NextNumber(w, n)));
    }
  }

  ghost predicate ImageCut(w: World, req: Request, k: nat, v: World) {
    && KeysMatch(v) && v.builds == w.builds
    && (k == 0 ==> v == w)
    && (k >= 1 ==> req.name in v.functions && v.functions[req.name] == ImageFunction(w, req))
    && (k == 1 ==> v == Named(w, req))
    && (k >= 2 ==> (req.name, NextNumber(w, req.name)) in v.revisions)
    && (Whole(w, req.name) ==> (Whole(v, req.name) <==> k != 1 || Leftover(w, req.name)))
  }

  lemma ImageCutState(w: World, req: Request, stuck: set<RevisionKey>, k: nat)
    requires KeysMatch(w) && k <= |ImageWrites(w, req, stuck)|
    ensures ImageCut(w, req, k, DoAll(w, ImageWrites(w, req, stuck)[..k]))
  {
    var v := DoAll(w, ImageWrites(w, req, stuck)[..k]);
    ImagePrefix(w, req, stuck, k);
    if k == 1 {
      if Whole(w, req.name) {
        TornWhole(w, req);
      }
    } else if k >= 2 {
      var stored, r := ImageStored(w, req), ImageRevision(w, req);
      assert 2 <= k <= 3 ==> PrunedPartly(v, v, req.name, 1, PruneEnd(r.number), stuck);
      ImageStoredCut(w, if k <= 3 then v else Switched(stored, req.name, r), v, req, stuck);
    }
  }

  // From when the revision is stored; `u` differs from what was stored in pools only, or is switched to it.
  lemma ImageStoredCut(w: World, u: World, v: World, req: Request, stuck: set<RevisionKey>)
    requires KeysMatch(w) && KeysMatch(ImageStored(w, req))
    requires u == ImageStored(w, req).(pools := u.pools)
          || u == Switched(ImageStored(w, req), req.name, ImageRevision(w, req))
    requires PrunedPartly(u, v, req.name, 1, PruneEnd(NextNumber(w, req.name)), stuck)
    ensures KeysMatch(v) && v.builds == w.builds && (Whole(w, req.name) ==> Whole(v, req.name))
    ensures req.name in v.functions && v.functions[req.name] == ImageFunction(w, req)
    ensures (req.name, NextNumber(w, req.name)) in v.revisions
  {
    assert u.functions == ImageStored(w, req).functions;
    PartlyKeepsKeys(u, v, req.name, 1, PruneEnd(NextNumber(w, req.name)), stuck);
    if Whole(w, req.name) {
      WholeAfter(w, u, v, req.name, ImageRevision(w, req), stuck);
    }
  }

  ghost predicate ImageVerdict(w: World, n: Name, k: nat, v: World) {
    && (Settled(v, n) <==> if k == 0 then Settles(w, n) else Whole(v, n))
    && (Whole(w, n) ==> (Whole(v, n) <==> k != 1 || Leftover(w, n)))
    && CurrentNumber(v, n) == CurrentNumber(w, n) + (if k >= 1 then 1 else 0)
    && (k >= 1 ==> n in v.functions && v.functions[n].state == Ready)
    && (k >= 1 ==> (n in v.pools <==> k != 1 || (n, NextNumber(w, n)) in w.revisions))
  }

  /**
   An image registration cut anywhere, then a restart, whatever earlier crashes left.  The function record
   names the new revision before that revision is stored.  A cut in between leaves the function ready, and
   without a pool unless a revision with that number is left over from before the name was last deleted:
   then that one is served.  At every other cut what is stored stays whole, and the function is settled.
   */
  lemma ImageCrashRecovery(w: World, req: Request, stuck: set<RevisionKey>, k: nat, stuckLater: set<RevisionKey>)
    requires KeysMatch(w) && k <= |ImageWrites(w, req, stuck)|
    ensures var v := Restarted(DoAll(w, ImageWrites(w, req, stuck)[..k]), stuckLater);
            && KeysMatch(v)
            && (forall m :: !HasRunningBuild(v, m) && (m != req.name ==> OtherVerdict(w, v, m)))
            && ImageVerdict(w, req.name, k, v)
  {
    var n := req.name;
    var xs := ImageWrites(w, req, stuck);
    var cut := DoAll(w, xs[..k]);
    ImageCutState(w, req, stuck, k);
    ImageOwned(w, req, stuck);
    OthersAfterCut(w, xs, n, k, stuckLater);
    ImageAfterCut(w, req, k, cut, stuckLater);
    RestartedAt(cut, n, stuckLater);
  }

  lemma ImageAfterCut(w: World, req: Request, k: nat, cut: World, stuck: set<RevisionKey>)
    requires ImageCut(w, req, k, cut)
    ensures ImageVerdict(w, req.name, k, Restarted(cut, stuck))
  {
    var n := req.name;
    RestartedPool(cut, n, stuck);
    RestartKeepsNumber(cut, n, stuck);
    RestartKeepsWhole(cut, n, stuck);
    RestartedAt(cut, n, stuck);
    RestartSettles(cut, n, stuck);
  }

  // ---------- Deletion ----------

  lemma {:induction false} RemoveDirsResult(w: World, gone: seq<RevisionKey>)
    ensures DoAll(w, RemoveDirs(gone)) == w.(dirs := w.dirs - ToSet(gone))
    ensures |RemoveDirs(gone)| == |gone|
    ensures forall k :: 0 <= k <= |gone| ==> RemoveDirs(gone)[..k] == RemoveDirs(gone[..k])
  {
    if gone == [] {
      assert w.dirs - {} == w.dirs;
    } else {
      var init, last := gone[..|gone| - 1], gone[|gone| - 1];
      RemoveDirsResult(w, init);
      DoAllConcat(w, RemoveDirs(init), [RemoveDir(last)]);
      DoAllShort(DoAll(w, RemoveDirs(init)), RemoveDir(last), RemoveDir(last));
      assert w.dirs - ToSet(init) - {last} == w.dirs - ToSet(gone) by {
        assert gone == init + [last];
      }
      forall k | 0 <= k < |gone| ensures RemoveDirs(gone)[..k] == RemoveDirs(gone[..k]) {
        assert gone[..k] == init[..k];
      }
      assert gone[..|gone|] == gone;
    }
  }

  lemma DeleteFirst(w: World, n: Name)
    requires n in w.functions && w.functions[n].name == n
    ensures var xs := [PutFunction(w.functions[n].(state := Deleting)), RemovePool(n), DropFunction(n)];
            var deleting := w.(functions := w.functions[n := w.functions[n].(state := Deleting)]);
            && DoAll(w, xs[..1]) == deleting
            && DoAll(w, xs[..2]) == deleting.(pools := w.pools - {n})
            && DoAll(w, xs) == w.(functions := w.functions - {n}, pools := w.pools - {n})
  {
    var f := w.functions[n];
    var put, unpool, drop := PutFunction(f.(state := Deleting)), RemovePool(n), DropFunction(n);
    var xs := [put, unpool, drop];
    assert xs[..1] == [put] && xs[..2] == [put, unpool] && xs == [put, unpool] + [drop];
    DoAllShort(w, put, unpool);
    DoAllConcat(w, [put, unpool], [drop]);
    DoAllShort(DoAll(w, [put, unpool]), drop, drop);
    assert w.functions[n := f.(state := Deleting)] - {n} == w.functions - {n};
  }

  lemma DeletePrefix(w: World, n: Name, gone: seq<RevisionKey>, k: nat)
    requires n in w.functions && k <= |DeleteWrites(w, n, gone)| && KeysMatch(w)
    ensures var v := DoAll(w, DeleteWrites(w, n, gone)[..k]);
            && KeysMatch(v) && v.builds == w.builds && v.revisions == w.revisions && v.dirs <= w.dirs
            && (k == 0 ==> v == w)
            && (1 <= k <= 2 ==>
                  v == w.(functions := w.functions[n := w.functions[n].(state := Deleting)], pools := v.pools))
            && (k >= 3 ==> v == w.(functions := w.functions - {n}, pools := w.pools - {n}, dirs := v.dirs))
  {
    var first := [PutFunction(w.functions[n].(state := Deleting)), RemovePool(n), DropFunction(n)];
    PrefixOfConcat(w, first, RemoveDirs(gone), k);
    DeleteFirst(w, n);
    assert first[..0] == [] && first[..3] == first;
    if k >= 3 {
      RemoveDirsResult(w, gone);
      RemoveDirsResult(DoAll(w, first), gone[..k - 3]);
    }
  }

  lemma {:induction false} RemoveDirsOwned(gone: seq<RevisionKey>, n: Name)
    requires forall key <- gone :: key.0 == n
    ensures Own(RemoveDirs(gone), n, None)
  {
    if gone != [] {
      RemoveDirsOwned(gone[..|gone| - 1], n);
    }
  }

  ghost predicate DeleteVerdict(w: World, n: Name, k: nat, v: World) {
    && (Settled(v, n) <==> if k == 0 then Settles(w, n) else k >= 3)
    && (Whole(w, n) ==> Whole(v, n))
    && (n in v.functions <==> k < 3)
    && (k < 3 ==> CurrentNumber(v, n) == CurrentNumber(w, n))
    && (1 <= k <= 2 ==> v.functions[n].state == Deleting && n !in v.pools)
  }

  lemma DeletedWhole(w: World, v: World, n: Name, k: nat)
    requires n in w.functions && v.revisions == w.revisions && v.dirs <= w.dirs
    requires k <= 2 ==> n in v.functions && v.functions[n].currentRevision == w.functions[n].currentRevision
    requires k >= 3 ==> n !in v.functions
    ensures Whole(w, n) ==> Whole(v, n)
  {
    if Whole(w, n) && k <= 2 {
      forall i: nat | 1 <= i <= CurrentNumber(v, n) ensures (n, i) in v.revisions && Retained(v, n, i) {
        assert (n, i) in w.revisions && Retained(w, n, i);
      }
    }
  }

  // A deletion cut anywhere, then a restart, whatever earlier crashes left: between announcing it and
  // dropping the record the function is left `Deleting`; from then on the name is free.
  lemma DeleteCrashRecovery(w: World, n: Name, gone: seq<RevisionKey>, k: nat, stuckLater: set<RevisionKey>)
    requires KeysMatch(w) && n in w.functions && !HasRunningBuild(w, n) && (forall key <- gone :: key.0 == n)
    requires k <= |DeleteWrites(w, n, gone)|
    ensures var v := Restarted(DoAll(w, DeleteWrites(w, n, gone)[..k]), stuckLater);
            && KeysMatch(v)
            && (forall m :: !HasRunningBuild(v, m) && (m != n ==> OtherVerdict(w, v, m)))
            && DeleteVerdict(w, n, k, v)
  {
    DeletePrefixCut(w, n, gone, k);
    DeleteIsOwned(w, n, gone);
    OthersAfterCut(w, DeleteWrites(w, n, gone), n, k, stuckLater);
    DeleteAfterCut(w, n, k, DoAll(w, DeleteWrites(w, n, gone)[..k]), stuckLater);
  }

  ghost predicate DeleteCut(w: World, n: Name, k: nat, v: World) {
    && n in w.functions && KeysMatch(v) && v.builds == w.builds && v.revisions == w.revisions && v.dirs <= w.dirs
    && (k == 0 ==> v == w)
    && (1 <= k <= 2 ==> n in v.functions && v.functions[n] == w.functions[n].(state := Deleting))
    && (k >= 3 ==> n !in v.functions)
  }

  lemma DeletePrefixCut(w: World, n: Name, gone: seq<RevisionKey>, k: nat)
    requires KeysMatch(w) && n in w.functions && k <= |DeleteWrites(w, n, gone)|
    ensures DeleteCut(w, n, k, DoAll(w, DeleteWrites(w, n, gone)[..k]))
  {
    DeletePrefix(w, n, gone, k);
  }

  lemma DeleteIsOwned(w: World, n: Name, gone: seq<RevisionKey>)
    requires KeysMatch(w) && (forall key <- gone :: key.0 == n)
    ensures Own(DeleteWrites(w, n, gone), n, None)
    ensures OwnedBy(DeleteWrites(w, n, gone), n) && OwnBuilds(w, DeleteWrites(w, n, gone))
  {
    RemoveDirsOwned(gone, n);
    OwnIsOwned(w, DeleteWrites(w, n, gone), n, None);
  }

  lemma DeleteAfterCut(w: World, n: Name, k: nat, cut: World, stuck: set<RevisionKey>)
    requires DeleteCut(w, n, k, cut) && !HasRunningBuild(w, n)
    ensures KeysMatch(Restarted(cut, stuck))
    ensures DeleteVerdict(w, n, k, Restarted(cut, stuck))
  {
    DeletedWhole(w, cut, n, k);
    RestartedAt(cut, n, stuck);
    RestartedPool(cut, n, stuck);
    RestartSettles(cut, n, stuck);
    RestartKeepsWhole(cut, n, stuck);
  }

  // ---------- Completed operations ----------

  datatype Op =
    | Deploy(req: Request, id: BuildId, mode: BuildMode, outcome: BuildOutcome, stuck: set<RevisionKey>)
    | DeployImage(req: Request, stuck: set<RevisionKey>)
    | Reject
    | Remove(name: Name, gone: seq<RevisionKey>)
    | Restart(stuck: set<RevisionKey>)

  function WritesOf(w: World, op: Op): seq<Write> {
    match op
    case Deploy(req, id, mode, outcome, stuck) => SourceWrites(w, req, id, mode, outcome, stuck)
    case DeployImage(req, stuck) => ImageWrites(w, req, stuck)
    case Reject => []
    case Remove(n, gone) => DeleteWrites(w, n, gone)
    case Restart(_) => []
  }

  // A new build has a new id; a directory registration has its runtime resolved by now.
  predicate CanDo(w: World, op: Op) {
    match op
    case Deploy(req, id, _, _, _) => id !in w.builds && req.runtime.Some?
    case DeployImage(req, _) => req.source.Image?
    case Reject => true
    case Remove(n, gone) => forall key <- gone :: key.0 == n
    case Restart(_) => true
  }

  function Perform(w: World, op: Op): World {
    if op.Restart? then Restarted(w, op.stuck) else DoAll(w, WritesOf(w, op))
  }

  lemma SettledSlice(w: World, v: World, n: Name)
    requires Settled(w, n) && SameSlice(w, v, n)
    ensures Settled(v, n)
  {
    SliceOfWhole(w, v, n);
  }

  lemma BuiltComplete(w: World, req: Request, id: BuildId, mode: BuildMode, stuck: set<RevisionKey>)
    requires KeysMatch(w) && id !in w.builds && req.runtime.Some?
    requires Whole(w, req.name) && !HasRunningBuild(w, req.name)
    ensures var v := DoAll(w, SourceWrites(w, req, id, mode, Built, stuck));
            KeysMatch(v) && Settled(v, req.name) && CurrentNumber(v, req.name) == NextNumber(w, req.name)
  {
    var v := DoAll(w, SourceWrites(w, req, id, mode, Built, stuck));
    BuiltCut(w, req, id, mode, stuck);
    BuiltWorld(w, req, id, mode, stuck);
    assert v.pools == Switched(Stored(w, req, id, mode), req.name, SourceRevision(w, req, mode)).pools;
  }

  lemma BuiltCut(w: World, req: Request, id: BuildId, mode: BuildMode, stuck: set<RevisionKey>)
    requires KeysMatch(w) && id !in w.builds && !HasRunningBuild(w, req.name)
    ensures var v := DoAll(w, SourceWrites(w, req, id, mode, Built, stuck));
            && KeysMatch(v) && (Whole(w, req.name) ==> Whole(v, req.name)) && !HasRunningBuild(v, req.name)
            && req.name in v.functions
            && v.functions[req.name] == Activate(FunctionRecord(w, req), NextNumber(w, req.name))
  {
    var xs := SourceWrites(w, req, id, mode, Built, stuck);
    BuiltSplit(w, req, id, mode, stuck);
    ActivateSplit(Stored(w, req, id, mode), req.name, SourceRevision(w, req, mode), stuck);
    SwitchResult(Stored(w, req, id, mode), req.name, SourceRevision(w, req, mode));
    assert |xs| >= 7 && xs[..|xs|] == xs;
    BuiltCutState(w, req, id, mode, stuck, |xs|);
  }

  // A redeploy whose build fails changes neither state, revision, stored revisions nor pool.
  lemma FailedComplete(
    w: World, req: Request, id: BuildId, mode: BuildMode, outcome: BuildOutcome, stuck: set<RevisionKey>)
    requires KeysMatch(w) && Settled(w, req.name) && id !in w.builds && req.runtime.Some? && outcome.NotBuilt?
    ensures var v := DoAll(w, SourceWrites(w, req, id, mode, outcome, stuck));
            var n := req.name;
            && KeysMatch(v) && Settled(v, n)
            && v.revisions == w.revisions && v.pools == w.pools
            && CurrentNumber(v, n) == CurrentNumber(w, n)
            && n in v.functions && v.functions[n].lastError == Some(BuildError(outcome.message))
            && (n in w.functions ==>
                  && v.functions[n].state == w.functions[n].state
                  && v.functions[n].currentRevision == w.functions[n].currentRevision)
            && (n !in w.functions ==> v.functions[n].state == Failed)
  {
    var xs := SourceWrites(w, req, id, mode, outcome, stuck);
    BuildPrefix(w, req, id, outcome, BuildLength(outcome));
    assert xs[..|xs|] == xs;
    SettledIsWhole(w, req.name);
    FailedPrefix(w, req, id, mode, outcome, stuck, |xs|);
    FailedCutState(w, req, id, mode, outcome, stuck, |xs|);
  }

  // The state an image registration ends in.
  lemma ImageWorld(w: World, req: Request, stuck: set<RevisionKey>)
    requires KeysMatch(w)
    ensures var v := DoAll(w, ImageWrites(w, req, stuck));
            && v == Deployed(ImageStored(w, req), req.name, ImageRevision(w, req), stuck)
            && KeysMatch(ImageStored(w, req)) && KeysMatch(v) && v.builds == w.builds
            && (Whole(w, req.name) ==> Whole(v, req.name))
            && req.name in v.functions && v.functions[req.name] == ImageFunction(w, req)
  {
    var n, xs := req.name, ImageWrites(w, req, stuck);
    var stored, r := ImageStored(w, req), ImageRevision(w, req);
    ImageStoredResult(w, req);
    ImagePrefix(w, req, stuck, 0);
    ActivateSplit(stored, n, r, stuck);
    SwitchResult(stored, n, r);
    assert |xs| >= 4 && xs[..|xs|] == xs;
    ImageCutState(w, req, stuck, |xs|);
    ActivateResult(stored, n, r, stuck);
    DoAllConcat(w, [PutFunction(ImageFunction(w, req)), PutRevision(r)], ActivateWrites(stored, n, r, stuck));
  }

  lemma ImageComplete(w: World, req: Request, stuck: set<RevisionKey>)
    requires KeysMatch(w) && req.source.Image? && Whole(w, req.name) && !HasRunningBuild(w, req.name)
    ensures var v := DoAll(w, ImageWrites(w, req, stuck));
            KeysMatch(v) && Settled(v, req.name) && CurrentNumber(v, req.name) == NextNumber(w, req.name)
  {
    ImageWorld(w, req, stuck);
  }

  lemma RemoveComplete(w: World, n: Name, gone: seq<RevisionKey>)
    requires KeysMatch(w) && !HasRunningBuild(w, n) && (n !in w.functions ==> n !in w.pools)
    ensures var v := DoAll(w, DeleteWrites(w, n, gone));
            && KeysMatch(v) && Settled(v, n) && n !in v.functions
            && v.revisions == w.revisions && v.builds == w.builds
  {
    var xs := DeleteWrites(w, n, gone);
    if n in w.functions {
      RemoveDirsResult(w, gone);
      assert xs[..|xs|] == xs;
      DeletePrefix(w, n, gone, |xs|);
    }
  }

  // What an operation makes of the number of successful activations.
  function Counted(op: Op, n: Name, count: nat): nat {
    match op
    case Deploy(req, _, _, outcome, _) => if req.name == n && outcome.Built? then count + 1 else count
    case DeployImage(req, _) => if req.name == n then count + 1 else count
    case Remove(m, _) => if m == n then 0 else count
    case _ => count
  }

  function OpName(op: Op): Name
    requires op.Deploy? || op.DeployImage? || op.Remove?
  {
    if op.Remove? then op.name else op.req.name
  }

  function OpBuild(op: Op): Option<BuildId> {
    if op.Deploy? then Some(op.id) else None
  }

  // An operation on one name writes for that name only, and puts no build but its own.
  lemma OpOwn(w: World, op: Op)
    requires KeysMatch(w) && CanDo(w, op) && (op.Deploy? || op.DeployImage? || op.Remove?)
    ensures Own(WritesOf(w, op), OpName(op), OpBuild(op))
  {
    match op {
      case Deploy(req, id, mode, outcome, stuck) => SourceOwned(w, req, id, mode, outcome, stuck);
      case DeployImage(req, stuck) => ImageOwned(w, req, stuck);
      case Remove(m, gone) => DeleteIsOwned(w, m, gone);
    }
  }

  // Whatever the registry was like.
  lemma CompletedKeys(w: World, op: Op)
    requires KeysMatch(w) && CanDo(w, op) && (op.Deploy? || op.DeployImage? || op.Remove?)
    ensures KeysMatch(Perform(w, op))
    ensures OwnedBy(WritesOf(w, op), OpName(op)) && OwnBuilds(w, WritesOf(w, op))
  {
    KeysAfter(w, WritesOf(w, op));
    OpOwn(w, op);
    OwnIsOwned(w, WritesOf(w, op), OpName(op), OpBuild(op));
  }

  lemma OwnComplete(w: World, op: Op)
    requires AllSettled(w) && CanDo(w, op) && (op.Deploy? || op.DeployImage? || op.Remove?)
    ensures var v, n := Perform(w, op), OpName(op);
            && KeysMatch(v) && Settled(v, n) && CurrentNumber(v, n) == Counted(op, n, CurrentNumber(w, n))
            && OwnedBy(WritesOf(w, op), n) && OwnBuilds(w, WritesOf(w, op))
  {
    var n := OpName(op);
    assert Settled(w, n);
    SettledIsWhole(w, n);
    CompletedKeys(w, op);
    match op {
      case Deploy(req, id, mode, outcome, stuck) =>
        if outcome.Built? {
          BuiltComplete(w, req, id, mode, stuck);
        } else {
          FailedComplete(w, req, id, mode, outcome, stuck);
        }
      case DeployImage(req, stuck) => ImageComplete(w, req, stuck);
      case Remove(m, gone) => RemoveComplete(w, m, gone);
    }
  }

  lemma OtherSettles(w: World, op: Op, n: Name)
    requires AllSettled(w) && CanDo(w, op) && (op.Deploy? || op.DeployImage? || op.Remove?) && n != OpName(op)
    ensures Settled(Perform(w, op), n) && CurrentNumber(Perform(w, op), n) == CurrentNumber(w, n)
  {
    assert Settled(w, n);
    CompletedKeys(w, op);
    OthersUntouched(w, WritesOf(w, op), OpName(op), n);
    SettledSlice(w, Perform(w, op), n);
    SliceOfWhole(w, Perform(w, op), n);
  }

  lemma RestartKeepsSettled(w: World, n: Name, stuck: set<RevisionKey>)
    requires AllSettled(w)
    ensures var v := Restarted(w, stuck);
            KeysMatch(v) && Settled(v, n) && CurrentNumber(v, n) == CurrentNumber(w, n)
  {
    assert Settled(w, n);
    SettledIsWhole(w, n);
    RestartedAt(w, n, stuck);
    RestartSettles(w, n, stuck);
  }

  lemma OperationSettles(w: World, op: Op)
    requires AllSettled(w) && CanDo(w, op)
    ensures AllSettled(Perform(w, op))
    ensures forall n :: CurrentNumber(Perform(w, op), n) == Counted(op, n, CurrentNumber(w, n))
  {
    if op.Deploy? || op.DeployImage? || op.Remove? {
      OwnComplete(w, op);
      forall n | n != OpName(op)
        ensures Settled(Perform(w, op), n) && CurrentNumber(Perform(w, op), n) == CurrentNumber(w, n)
      {
        OtherSettles(w, op, n);
      }
    } else if op.Restart? {
      forall n
        ensures KeysMatch(Perform(w, op)) && Settled(Perform(w, op), n)
        ensures CurrentNumber(Perform(w, op), n) == CurrentNumber(w, n)
      {
        RestartKeepsSettled(w, n, op.stuck);
      }
    }
  }

  // ---------- Histories ----------

  const EMPTY_WORLD := World(map[], map[], map[], {}, map[])

  function After(ops: seq<Op>): World
    decreases ops
  {
    if ops == [] then EMPTY_WORLD else Perform(After(ops[..|ops| - 1]), ops[|ops| - 1])
  }

  predicate Possible(ops: seq<Op>)
    decreases ops
  {
    ops == [] || (Possible(ops[..|ops| - 1]) && CanDo(After(ops[..|ops| - 1]), ops[|ops| - 1]))
  }

  // Successful activations since `n` was last deleted.
  function Activations(ops: seq<Op>, n: Name): nat
    decreases ops
  {
    if ops == [] then 0 else Counted(ops[|ops| - 1], n, Activations(ops[..|ops| - 1], n))
  }

  /**
   After any sequence of completed operations: a function is ready, with a pool serving its current
   revision, exactly when it has one, and failed, without a pool, exactly when it has none; the number of
   that revision counts its activations since it was last deleted; every revision up to it is stored; no
   build is on record as running.
   */
  lemma {:induction false} RegistryAgreement(ops: seq<Op>)
    requires Possible(ops)
    ensures AllSettled(After(ops))
    ensures forall n :: CurrentNumber(After(ops), n) == Activations(ops, n)
    decreases ops
  {
    if ops != [] {
      var before := ops[..|ops| - 1];
      RegistryAgreement(before);
      OperationSettles(After(before), ops[|ops| - 1]);
    } else {
      forall n ensures Settled(EMPTY_WORLD, n) {
      }
    }
  }
}
