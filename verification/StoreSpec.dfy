/**
 The registry's store as a set of calls, the state and the answers of the database and of the in-memory
 store, and the proof that no sequence of calls tells the two apart.
 */
module StoreSpec {
  import opened Wrappers
  import opened Numbers
  import opened Sequences
  import opened StoreKeys
  import opened RegistryModel
  import PubSub

  datatype Call =
    | GetFunction(name: string)
    | ListFunctions
    | PutFunction(function': Function)
    | DeleteFunction(name: string)
    | PutRevision(revision: Revision)
    | GetRevision(name: string, number: nat)
    | PutBuild(build: Build)
    | GetBuild(id: string)
    | ListBuilds
    | GetBinding(name: string)
    | PutBinding(binding: PubSub.Binding)
    | DeleteBinding(name: string)
    | ListBindings

  datatype Answer =
    | Done
    | FunctionAnswer(function': Option<Function>)
    | FunctionsAnswer(functions: seq<Function>)
    | RevisionAnswer(revision: Option<Revision>)
    | BuildAnswer(build: Option<Build>)
    | BuildsAnswer(builds: seq<Build>)
    | BindingAnswer(binding: Option<PubSub.Binding>)
    | BindingsAnswer(bindings: seq<PubSub.Binding>)

  // Only `revisions` differ: keyed by the encoded string, or by the pair.
  datatype Tables<!K> = Tables(
    functions: map<string, Function>,
    revisions: map<K, Revision>,
    builds: map<string, Build>,
    bindings: map<string, PubSub.Binding>)

  type RedbTables = Tables<string>
  type MemoryTables = Tables<RegistryModel.RevisionKey>

  // Numbers are 32 bits wide.
  predicate InRange(call: Call) {
    && (call.PutRevision? ==> call.revision.number < U32_LIMIT)
    && (call.GetRevision? ==> call.number < U32_LIMIT)
  }

  // `key` is what the call's revision goes by.
  function After<K>(t: Tables<K>, call: Call, key: K): Tables<K> {
    match call
    case PutFunction(f) => t.(functions := t.functions[f.name := f])
    case DeleteFunction(name) => t.(functions := t.functions - {name})
    case PutRevision(r) => t.(revisions := t.revisions[key := r])
    case PutBuild(b) => t.(builds := t.builds[b.id := b])
    case PutBinding(b) => t.(bindings := t.bindings[b.functionName := b])
    case DeleteBinding(name) => t.(bindings := t.bindings - {name})
    case _ => t
  }

  function Lookup<K, V>(m: map<K, V>, k: K): Option<V> {
    if k in m then Some(m[k]) else None
  }

  // ---------- Listings ----------

  ghost function ValuesOf<K, V>(m: map<K, V>): multiset<V> {
    if m.Keys == {} then multiset{}
    else
      var k := Pick(m.Keys);
      ValuesOf(m - {k}) + multiset{m[k]}
  }

  lemma {:induction false} ValuesSplit<K, V>(m: map<K, V>, k: K)
    requires k in m
    ensures ValuesOf(m) == ValuesOf(m - {k}) + multiset{m[k]}
    decreases |m|
  {
    var q := Pick(m.Keys);
    if k != q {
      assert m - {q} - {k} == m - {k} - {q};
      ValuesSplit(m - {q}, k);
      ValuesSplit(m - {k}, q);
    }
  }

  lemma {:induction false} ValueHasKey<K, V>(m: map<K, V>, v: V) returns (k: K)
    requires v in ValuesOf(m)
    ensures k in m && m[k] == v
    decreases |m|
  {
    var q := Pick(m.Keys);
    if m[q] == v {
      k := q;
    } else {
      k := ValueHasKey(m - {q}, v);
    }
  }

  predicate SortedByName(list: seq<Function>) {
    forall i, j | 0 <= i < j < |list| :: !Before(list[j].name, list[i].name)
  }

  ghost predicate OwnNames(functions: map<string, Function>) {
    forall n <- functions :: functions[n].name == n
  }

  // The functions of a store, sorted by name, make one list only.
  lemma {:induction false} SortedOnce(all: map<string, Function>, xs: seq<Function>, ys: seq<Function>)
    requires OwnNames(all) && SortedByName(xs) && SortedByName(ys)
    requires multiset(xs) == multiset(ys) <= ValuesOf(all)
    ensures xs == ys
    decreases |xs|
  {
    assert |multiset(xs)| == |xs| && |multiset(ys)| == |ys|;
    if xs != [] {
      SameHead(all, xs, ys);
      Uncons(xs);
      Uncons(ys);
      SortedOnce(all, xs[1..], ys[1..]);
    }
  }

  lemma Uncons(xs: seq<Function>)
    requires xs != []
    ensures xs == [xs[0]] + xs[1..] && multiset(xs[1..]) == multiset(xs) - multiset{xs[0]}
    ensures SortedByName(xs) ==> SortedByName(xs[1..])
  {
    assert xs == [xs[0]] + xs[1..];
  }

  lemma SameHead(all: map<string, Function>, xs: seq<Function>, ys: seq<Function>)
    requires OwnNames(all) && SortedByName(xs) && SortedByName(ys) && xs != [] && ys != []
    requires multiset(xs) == multiset(ys) <= ValuesOf(all)
    ensures xs[0] == ys[0]
  {
    HeadIsLeast(xs, ys);
    HeadIsLeast(ys, xs);
    BeforeIsTotal(xs[0].name, ys[0].name);
    assert xs[0] in multiset(xs) && ys[0] in multiset(ys);
    SameNameSameFunction(all, xs[0], ys[0]);
  }

  lemma HeadIsLeast(xs: seq<Function>, ys: seq<Function>)
    requires xs != [] && ys != [] && SortedByName(xs) && multiset(xs) == multiset(ys)
    ensures !Before(ys[0].name, xs[0].name)
  {
    assert ys[0] in multiset(xs);
    var i :| 0 <= i < |xs| && xs[i] == ys[0];
    BeforeIsTotal(xs[0].name, xs[0].name);
  }

  lemma SameNameSameFunction(all: map<string, Function>, f: Function, g: Function)
    requires OwnNames(all) && f in ValuesOf(all) && g in ValuesOf(all) && f.name == g.name
    ensures f == g
  {
    var k := ValueHasKey(all, f);
    var l := ValueHasKey(all, g);
  }

  // ---------- Answers ----------

  // What a store may answer.  Lists come in the table's order, except that functions are sorted by name.
  ghost predicate Answers<K>(t: Tables<K>, call: Call, key: K, a: Answer) {
    match call
    case GetFunction(name) => a == FunctionAnswer(Lookup(t.functions, name))
    case ListFunctions =>
      a.FunctionsAnswer? && multiset(a.functions) == ValuesOf(t.functions) && SortedByName(a.functions)
    case GetRevision(_, _) => a == RevisionAnswer(Lookup(t.revisions, key))
    case GetBuild(id) => a == BuildAnswer(Lookup(t.builds, id))
    case ListBuilds => a.BuildsAnswer? && multiset(a.builds) == ValuesOf(t.builds)
    case GetBinding(name) => a == BindingAnswer(Lookup(t.bindings, name))
    case ListBindings => a.BindingsAnswer? && multiset(a.bindings) == ValuesOf(t.bindings)
    case _ => a == Done
  }

  function RedbKey(call: Call): string {
    match call
    case PutRevision(r) => StoreKeys.RevisionKey(r.functionName, r.number)
    case GetRevision(name, number) => StoreKeys.RevisionKey(name, number)
    case _ => ""
  }

  function MemoryKey(call: Call): RegistryModel.RevisionKey {
    match call
    case PutRevision(r) => (r.functionName, r.number)
    case GetRevision(name, number) => (name, number)
    case _ => ("", 0)
  }

  ghost predicate RedbRun(t: RedbTables, calls: seq<Call>, answers: seq<Answer>)
    decreases calls
  {
    && |answers| == |calls|
    && (calls != [] ==>
          && Answers(t, calls[0], RedbKey(calls[0]), answers[0])
          && RedbRun(After(t, calls[0], RedbKey(calls[0])), calls[1..], answers[1..]))
  }

  ghost predicate MemoryRun(t: MemoryTables, calls: seq<Call>, answers: seq<Answer>)
    decreases calls
  {
    && |answers| == |calls|
    && (calls != [] ==>
          && Answers(t, calls[0], MemoryKey(calls[0]), answers[0])
          && MemoryRun(After(t, calls[0], MemoryKey(calls[0])), calls[1..], answers[1..]))
  }

  // ---------- Refinement ----------

  ghost predicate SameRevisions(r: map<string, Revision>, m: map<RegistryModel.RevisionKey, Revision>) {
    forall name: string, number: nat | number < U32_LIMIT ::
      Lookup(r, StoreKeys.RevisionKey(name, number)) == Lookup(m, (name, number))
  }

  ghost predicate Refines(r: RedbTables, m: MemoryTables) {
    && r.functions == m.functions && r.builds == m.builds && r.bindings == m.bindings
    && OwnNames(r.functions)
    && SameRevisions(r.revisions, m.revisions)
  }

  lemma PutRevisionRefines(r: map<string, Revision>, m: map<RegistryModel.RevisionKey, Revision>, revision: Revision)
    requires SameRevisions(r, m) && revision.number < U32_LIMIT
    ensures SameRevisions(r[StoreKeys.RevisionKey(revision.functionName, revision.number) := revision],
                          m[(revision.functionName, revision.number) := revision])
  {
    var f, k := revision.functionName, revision.number;
    forall name: string, number: nat | number < U32_LIMIT
      ensures Lookup(r[StoreKeys.RevisionKey(f, k) := revision], StoreKeys.RevisionKey(name, number))
           == Lookup(m[(f, k) := revision], (name, number))
    {
      KeyInjective(f, k, name, number);
      assert Lookup(r, StoreKeys.RevisionKey(name, number)) == Lookup(m, (name, number));
    }
  }

  lemma CallRefines(r: RedbTables, m: MemoryTables, call: Call)
    requires Refines(r, m) && InRange(call)
    ensures Refines(After(r, call, RedbKey(call)), After(m, call, MemoryKey(call)))
  {
    if call.PutRevision? {
      PutRevisionRefines(r.revisions, m.revisions, call.revision);
    }
  }

  // Equal answers, but for the order of builds and bindings.
  ghost predicate Agree(a: Answer, b: Answer) {
    match (a, b)
    case (BuildsAnswer(xs), BuildsAnswer(ys)) => multiset(xs) == multiset(ys)
    case (BindingsAnswer(xs), BindingsAnswer(ys)) => multiset(xs) == multiset(ys)
    case _ => a == b
  }

  lemma AnswersAgree(r: RedbTables, m: MemoryTables, call: Call, a: Answer, b: Answer)
    requires Refines(r, m) && InRange(call)
    requires Answers(r, call, RedbKey(call), a) && Answers(m, call, MemoryKey(call), b)
    ensures Agree(a, b)
  {
    if call.ListFunctions? {
      SortedOnce(r.functions, a.functions, b.functions);
    } else if call.GetRevision? {
      assert Lookup(r.revisions, StoreKeys.RevisionKey(call.name, call.number))
          == Lookup(m.revisions, (call.name, call.number));
    }
  }

  lemma {:induction false} RunsAgree(
    r: RedbTables, m: MemoryTables, calls: seq<Call>, xs: seq<Answer>, ys: seq<Answer>)
    requires Refines(r, m) && forall call <- calls :: InRange(call)
    requires RedbRun(r, calls, xs) && MemoryRun(m, calls, ys)
    ensures forall i | 0 <= i < |calls| :: Agree(xs[i], ys[i])
    decreases calls
  {
    if calls != [] {
      AnswersAgree(r, m, calls[0], xs[0], ys[0]);
      CallRefines(r, m, calls[0]);
      RunsAgree(After(r, calls[0], RedbKey(calls[0])), After(m, calls[0], MemoryKey(calls[0])),
                calls[1..], xs[1..], ys[1..]);
      forall i | 0 <= i < |calls| ensures Agree(xs[i], ys[i]) {
        if i > 0 {
          assert Agree(xs[1..][i - 1], ys[1..][i - 1]);
        }
      }
    }
  }

  // No sequence of calls, starting from new stores, tells the database from the in-memory store.
  lemma StoresAgree(calls: seq<Call>, xs: seq<Answer>, ys: seq<Answer>)
    requires forall call <- calls :: InRange(call)
    requires RedbRun(Tables(map[], map[], map[], map[]), calls, xs)
    requires MemoryRun(Tables(map[], map[], map[], map[]), calls, ys)
    ensures |xs| == |ys| == |calls| && forall i | 0 <= i < |calls| :: Agree(xs[i], ys[i])
  {
    RunsAgree(Tables(map[], map[], map[], map[]), Tables(map[], map[], map[], map[]), calls, xs, ys);
  }
}
