/**
 Everything the registry keeps belongs to one function name.  The writes of operations on different
 names may interleave in any way: each name sees its own writes only.
 */
module RegistrySlices {
  import opened Wrappers
  import opened RegistryModel
  import opened RegistryRestore

  function Owner(x: Write): Name {
    match x
    case PutFunction(f) => f.name
    case DropFunction(n) => n
    case PutRevision(r) => r.functionName
    case PutBuild(b) => b.functionName
    case MakeDir(k) => k.0
    case RemoveDir(k) => k.0
    case SetPool(n, _) => n
    case RemovePool(n) => n
  }

  predicate OwnsBuild(w: World, id: BuildId, n: Name) {
    id in w.builds && w.builds[id].functionName == n
  }

  // `w` and `v` hold the same for `n`.
  ghost predicate SameSlice(w: World, v: World, n: Name) {
    && (n in w.functions <==> n in v.functions)
    && (n in w.functions && n in v.functions ==> w.functions[n] == v.functions[n])
    && (n in w.pools <==> n in v.pools)
    && (n in w.pools && n in v.pools ==> w.pools[n] == v.pools[n])
    && (forall k: nat ::
          && ((n, k) in w.revisions <==> (n, k) in v.revisions)
          && ((n, k) in w.revisions && (n, k) in v.revisions ==> w.revisions[(n, k)] == v.revisions[(n, k)])
          && ((n, k) in w.dirs <==> (n, k) in v.dirs))
    && (forall id ::
          && (OwnsBuild(w, id, n) <==> OwnsBuild(v, id, n))
          && (OwnsBuild(w, id, n) && OwnsBuild(v, id, n) ==> w.builds[id] == v.builds[id]))
  }

  // A build id is used for one function only.
  predicate OwnBuild(w: World, x: Write) {
    x.PutBuild? && x.build.id in w.builds ==> w.builds[x.build.id].functionName == x.build.functionName
  }

  lemma WriteElsewhere(w: World, x: Write, n: Name)
    requires Owner(x) != n && OwnBuild(w, x)
    ensures SameSlice(w, Do(w, x), n)
  {
  }

  lemma WriteHere(w: World, v: World, x: Write, n: Name)
    requires SameSlice(w, v, n) && Owner(x) == n && OwnBuild(w, x) && OwnBuild(v, x)
    ensures SameSlice(Do(w, x), Do(v, x), n)
  {
  }

  lemma SameSliceTransitive(u: World, v: World, w: World, n: Name)
    requires SameSlice(u, v, n) && SameSlice(v, w, n)
    ensures SameSlice(u, w, n)
  {
  }

  // Build ids do not clash, neither with those stored nor with each other.
  ghost predicate OwnBuilds(w: World, xs: seq<Write>) {
    && (forall x <- xs :: OwnBuild(w, x))
    && (forall x <- xs, y <- xs :: x.PutBuild? && y.PutBuild? && x.build.id == y.build.id ==> Owner(x) == Owner(y))
  }

  lemma OwnBuildsStep(w: World, xs: seq<Write>)
    requires xs != [] && OwnBuilds(w, xs)
    ensures OwnBuild(w, xs[0]) && OwnBuilds(Do(w, xs[0]), xs[1..])
  {
    var x := xs[0];
    forall y | y in xs[1..] ensures y in xs && OwnBuild(Do(w, x), y) {
    }
  }

  function Only(xs: seq<Write>, n: Name): seq<Write> {
    if xs == [] then []
    else (if Owner(xs[0]) == n then [xs[0]] else []) + Only(xs[1..], n)
  }

  lemma {:induction false} OnlyMembers(xs: seq<Write>, n: Name)
    ensures forall x <- Only(xs, n) :: x in xs && Owner(x) == n
  {
    if xs != [] {
      OnlyMembers(xs[1..], n);
    }
  }

  lemma {:induction false} InOnly(xs: seq<Write>, x: Write)
    requires x in xs
    ensures x in Only(xs, Owner(x))
  {
    if xs[0] != x {
      InOnly(xs[1..], x);
    }
  }

  // However the writes for several names interleave, `n` ends up as if its own had been done alone.
  lemma {:induction false} NamesAreIndependent(w: World, v: World, xs: seq<Write>, n: Name)
    requires SameSlice(w, v, n) && OwnBuilds(w, xs) && OwnBuilds(v, Only(xs, n))
    ensures SameSlice(DoAll(w, xs), DoAll(v, Only(xs, n)), n)
    decreases xs
  {
    if xs != [] {
      var x := xs[0];
      OwnBuildsStep(w, xs);
      if Owner(x) == n {
        assert Only(xs, n)[1..] == Only(xs[1..], n);
        OwnBuildsStep(v, Only(xs, n));
        WriteHere(w, v, x, n);
        NamesAreIndependent(Do(w, x), Do(v, x), xs[1..], n);
      } else {
        assert Only(xs, n) == Only(xs[1..], n);
        WriteElsewhere(w, x, n);
        SameSliceTransitive(Do(w, x), w, v, n);
        NamesAreIndependent(Do(w, x), v, xs[1..], n);
      }
    }
  }

  ghost predicate OwnedBy(xs: seq<Write>, n: Name) {
    forall x <- xs :: Owner(x) == n
  }

  // An operation on one name changes nothing of another, at any point.
  lemma {:induction false} OthersUntouched(w: World, xs: seq<Write>, n: Name, other: Name)
    requires OwnedBy(xs, n) && other != n && OwnBuilds(w, xs)
    ensures SameSlice(w, DoAll(w, xs), other)
    decreases xs
  {
    if xs != [] {
      OwnBuildsStep(w, xs);
      WriteElsewhere(w, xs[0], other);
      assert OwnedBy(xs[1..], n);
      OthersUntouched(Do(w, xs[0]), xs[1..], n, other);
      SameSliceTransitive(w, Do(w, xs[0]), DoAll(w, xs), other);
    }
  }

  // ---------- Whose writes the operations are ----------

  // Writes for `n` that put no build but `id`.
  ghost predicate Own(xs: seq<Write>, n: Name, id: Option<BuildId>) {
    forall x <- xs :: Owner(x) == n && (x.PutBuild? ==> id == Some(x.build.id))
  }

  lemma OwnConcat(xs: seq<Write>, ys: seq<Write>, n: Name, id: Option<BuildId>)
    requires Own(xs, n, id) && Own(ys, n, id)
    ensures Own(xs + ys, n, id)
  {
  }

  lemma OwnIsOwned(w: World, xs: seq<Write>, n: Name, id: Option<BuildId>)
    requires Own(xs, n, id) && (id.Some? ==> id.value !in w.builds)
    ensures OwnedBy(xs, n) && OwnBuilds(w, xs)
  {
  }

  lemma PruneOneOwned(w: World, key: RevisionKey, stuck: set<RevisionKey>, id: Option<BuildId>)
    requires KeysMatch(w)
    ensures Own(PruneOne(w, key, stuck), key.0, id)
  {
  }

  lemma {:induction false} PruneOwned(
    w: World, n: Name, from: nat, end: nat, stuck: set<RevisionKey>, id: Option<BuildId>)
    requires KeysMatch(w)
    ensures Own(PruneWrites(w, n, from, end, stuck), n, id)
    decreases end
  {
    if from < end {
      var w1 := DoAll(w, PruneWrites(w, n, from, end - 1, stuck));
      PruneOwned(w, n, from, end - 1, stuck, id);
      assert KeysMatch(w1) by {
        PruneResult(w, n, from, end - 1, stuck);
        PrunedAllKeeps(w, Targets(w, n, from, end - 1, stuck));
      }
      PruneOneOwned(w1, (n, end - 1), stuck, id);
      OwnConcat(PruneWrites(w, n, from, end - 1, stuck), PruneOne(w1, (n, end - 1), stuck), n, id);
      PruneWritesStep(w, n, from, end, stuck, w1);
    }
  }

  lemma ActivateOwned(w: World, n: Name, r: Revision, stuck: set<RevisionKey>, id: Option<BuildId>)
    requires KeysMatch(w)
    ensures Own(ActivateWrites(w, n, r, stuck), n, id)
  {
    ActivateSplit(w, n, r, stuck);
    SwitchResult(w, n, r);
    PruneOwned(Switched(w, n, r), n, 1, PruneEnd(r.number), stuck, id);
    OwnConcat(SwitchWrites(w, n, r), PruneWrites(Switched(w, n, r), n, 1, PruneEnd(r.number), stuck), n, id);
  }
}
