/**
 What the stores answer, over any sequence of calls: a lookup gives what was last put under its key, unless
 that was deleted since, and a list holds exactly what the lookups would give.
 */
module StoreHistory {
  import opened Wrappers
  import opened Numbers
  import opened Sequences
  import opened StoreKeys
  import opened StoreSpec
  import opened RegistryModel
  import PubSub

  // What a call puts, deletes or looks up.
  datatype Slot =
    | FunctionOf(name: string)
    | RevisionOf(name: string, number: nat)
    | BuildOf(id: string)
    | BindingOf(name: string)

  predicate LooksUp(call: Call, slot: Slot) {
    match call
    case GetFunction(name) => slot == FunctionOf(name)
    case GetRevision(name, number) => slot == RevisionOf(name, number)
    case GetBuild(id) => slot == BuildOf(id)
    case GetBinding(name) => slot == BindingOf(name)
    case _ => false
  }

  // The call writes the slot; `a` is what a lookup gives right after it.
  predicate Writes(call: Call, slot: Slot, a: Answer) {
    match call
    case PutFunction(f) => slot == FunctionOf(f.name) && a == FunctionAnswer(Some(f))
    case DeleteFunction(name) => slot == FunctionOf(name) && a == FunctionAnswer(None)
    case PutRevision(r) => slot == RevisionOf(r.functionName, r.number) && a == RevisionAnswer(Some(r))
    case PutBuild(b) => slot == BuildOf(b.id) && a == BuildAnswer(Some(b))
    case PutBinding(b) => slot == BindingOf(b.functionName) && a == BindingAnswer(Some(b))
    case DeleteBinding(name) => slot == BindingOf(name) && a == BindingAnswer(None)
    case _ => false
  }

  function Missing(slot: Slot): Answer {
    match slot
    case FunctionOf(_) => FunctionAnswer(None)
    case RevisionOf(_, _) => RevisionAnswer(None)
    case BuildOf(_) => BuildAnswer(None)
    case BindingOf(_) => BindingAnswer(None)
  }

  ghost predicate WritesTo(call: Call, slot: Slot) {
    exists a :: Writes(call, slot, a)
  }

  // The call numbered `k` is the last of `calls` to write the slot, and left `a` there.
  ghost predicate LastAt(calls: seq<Call>, slot: Slot, a: Answer, k: nat) {
    k < |calls| && Writes(calls[k], slot, a) && NotWritten(calls, slot, k + 1)
  }

  ghost predicate NotWritten(calls: seq<Call>, slot: Slot, from: nat) {
    forall i | from <= i < |calls| :: !WritesTo(calls[i], slot)
  }

  // The last call to write the slot left `a` there, or none wrote it and there is nothing.
  ghost predicate LastWritten(calls: seq<Call>, slot: Slot, a: Answer) {
    (a == Missing(slot) && NotWritten(calls, slot, 0)) || exists k: nat :: LastAt(calls, slot, a, k)
  }

  // ---------- The tables after a sequence of calls ----------

  const NEW_MEMORY: MemoryTables := Tables(map[], map[], map[], map[])
  const NEW_REDB: RedbTables := Tables(map[], map[], map[], map[])

  function StateAfter(calls: seq<Call>): MemoryTables
    decreases calls
  {
    if calls == [] then NEW_MEMORY
    else
      var last := calls[|calls| - 1];
      After(StateAfter(calls[..|calls| - 1]), last, MemoryKey(last))
  }

  function ValueAt(t: MemoryTables, slot: Slot): Answer {
    match slot
    case FunctionOf(name) => FunctionAnswer(Lookup(t.functions, name))
    case RevisionOf(name, number) => RevisionAnswer(Lookup(t.revisions, (name, number)))
    case BuildOf(id) => BuildAnswer(Lookup(t.builds, id))
    case BindingOf(name) => BindingAnswer(Lookup(t.bindings, name))
  }

  lemma OneWrite(t: MemoryTables, call: Call, slot: Slot)
    ensures var a := ValueAt(After(t, call, MemoryKey(call)), slot);
            if WritesTo(call, slot) then Writes(call, slot, a) else a == ValueAt(t, slot)
  {
    var a := ValueAt(After(t, call, MemoryKey(call)), slot);
    if !Writes(call, slot, a) {
      assert !WritesTo(call, slot);
    }
  }

  lemma {:induction false} StateIsLastWritten(calls: seq<Call>, slot: Slot)
    ensures LastWritten(calls, slot, ValueAt(StateAfter(calls), slot))
    decreases calls
  {
    if calls != [] {
      var n := |calls| - 1;
      StateIsLastWritten(calls[..n], slot);
      OneWrite(StateAfter(calls[..n]), calls[n], slot);
      LastWrittenSnoc(calls, slot, ValueAt(StateAfter(calls[..n]), slot), ValueAt(StateAfter(calls), slot));
    }
  }

  lemma LastWrittenSnoc(calls: seq<Call>, slot: Slot, before: Answer, a: Answer)
    requires calls != [] && LastWritten(calls[..|calls| - 1], slot, before)
    requires var call := calls[|calls| - 1];
             if WritesTo(call, slot) then Writes(call, slot, a) else a == before
    ensures LastWritten(calls, slot, a)
  {
    var n := |calls| - 1;
    var init := calls[..n];
    assert forall i | 0 <= i < n :: calls[i] == init[i];
    if WritesTo(calls[n], slot) {
      assert LastAt(calls, slot, a, n);
    } else if k: nat :| LastAt(init, slot, before, k) {
      assert LastAt(calls, slot, a, k);
    }
  }

  lemma LastAtOnce(calls: seq<Call>, slot: Slot, a: Answer, k: nat, b: Answer, l: nat)
    requires LastAt(calls, slot, a, k) && LastAt(calls, slot, b, l)
    ensures a == b
  {
    assert WritesTo(calls[k], slot) && WritesTo(calls[l], slot);
    assert k == l;
  }

  lemma LastAtIsWritten(calls: seq<Call>, slot: Slot, a: Answer, k: nat)
    requires LastAt(calls, slot, a, k)
    ensures !NotWritten(calls, slot, 0)
  {
    assert WritesTo(calls[k], slot);
  }

  lemma LastWrittenOnce(calls: seq<Call>, slot: Slot, a: Answer, b: Answer)
    requires LastWritten(calls, slot, a) && LastWritten(calls, slot, b)
    ensures a == b
  {
    if k: nat :| LastAt(calls, slot, a, k) {
      LastAtIsWritten(calls, slot, a, k);
      var l: nat :| LastAt(calls, slot, b, l);
      LastAtOnce(calls, slot, a, k, b, l);
    } else if l: nat :| LastAt(calls, slot, b, l) {
      LastAtIsWritten(calls, slot, b, l);
    }
  }

  // ---------- The answers in a run ----------

  lemma MemorySnoc(calls: seq<Call>, call: Call)
    ensures StateAfter(calls + [call]) == After(StateAfter(calls), call, MemoryKey(call))
  {
    assert (calls + [call])[..|calls|] == calls;
  }

  // `before` were the calls so far.
  lemma {:induction false} MemoryAnswer(before: seq<Call>, calls: seq<Call>, answers: seq<Answer>, i: nat)
    requires MemoryRun(StateAfter(before), calls, answers) && i < |calls|
    ensures |answers| == |calls|
    ensures Answers(StateAfter(before + calls[..i]), calls[i], MemoryKey(calls[i]), answers[i])
    decreases i
  {
    if i == 0 {
      assert before + calls[..0] == before;
    } else {
      MemorySnoc(before, calls[0]);
      MemoryAnswer(before + [calls[0]], calls[1..], answers[1..], i - 1);
      assert before + [calls[0]] + calls[1..][..i - 1] == before + calls[..i];
    }
  }

  // The database does `calls` after `before`, its tables being those of the in-memory store by then.
  ghost predicate RedbFrom(before: seq<Call>, calls: seq<Call>, answers: seq<Answer>) {
    exists r: RedbTables :: Refines(r, StateAfter(before)) && RedbRun(r, calls, answers)
  }

  ghost predicate RedbAnswers(before: seq<Call>, call: Call, a: Answer) {
    exists r: RedbTables :: Refines(r, StateAfter(before)) && Answers(r, call, RedbKey(call), a)
  }

  lemma RedbStep(before: seq<Call>, calls: seq<Call>, answers: seq<Answer>)
    requires calls != [] && RedbFrom(before, calls, answers) && InRange(calls[0])
    ensures |answers| == |calls| && RedbAnswers(before, calls[0], answers[0])
    ensures RedbFrom(before + [calls[0]], calls[1..], answers[1..])
  {
    var r: RedbTables :| Refines(r, StateAfter(before)) && RedbRun(r, calls, answers);
    CallRefines(r, StateAfter(before), calls[0]);
    MemorySnoc(before, calls[0]);
  }

  lemma RedbNext(calls: seq<Call>, answers: seq<Answer>, i: nat)
    requires i < |calls| == |answers| && InRange(calls[i]) && RedbFrom(calls[..i], calls[i..], answers[i..])
    ensures RedbFrom(calls[..i + 1], calls[i + 1..], answers[i + 1..])
    ensures RedbAnswers(calls[..i], calls[i], answers[i])
  {
    RedbStep(calls[..i], calls[i..], answers[i..]);
    assert calls[..i] + [calls[i..][0]] == calls[..i + 1];
    assert calls[i..][1..] == calls[i + 1..] && answers[i..][1..] == answers[i + 1..];
  }

  lemma {:induction false} RedbUpTo(calls: seq<Call>, answers: seq<Answer>, i: nat)
    requires RedbRun(NEW_REDB, calls, answers) && i <= |calls| && (forall call <- calls :: InRange(call))
    ensures |answers| == |calls| && RedbFrom(calls[..i], calls[i..], answers[i..])
    decreases i
  {
    if i == 0 {
      NewStores(calls, answers);
      assert calls[0..] == calls && answers[0..] == answers;
    } else {
      RedbUpTo(calls, answers, i - 1);
      RedbNext(calls, answers, i - 1);
    }
  }

  lemma RedbAnswer(calls: seq<Call>, answers: seq<Answer>, i: nat)
    requires RedbRun(NEW_REDB, calls, answers) && i < |calls| && (forall call <- calls :: InRange(call))
    ensures |answers| == |calls| && RedbAnswers(calls[..i], calls[i], answers[i])
  {
    RedbUpTo(calls, answers, i);
    RedbNext(calls, answers, i);
  }

  lemma SameLookup(before: seq<Call>, call: Call, a: Answer, slot: Slot)
    requires RedbAnswers(before, call, a) && LooksUp(call, slot) && InRange(call)
    ensures a == ValueAt(StateAfter(before), slot)
  {
  }

  lemma SameList(before: seq<Call>, call: Call, a: Answer)
    requires RedbAnswers(before, call, a) && (call.ListFunctions? || call.ListBuilds? || call.ListBindings?)
    ensures Answers(StateAfter(before), call, MemoryKey(call), a)
  {
  }

  lemma NewStores(calls: seq<Call>, answers: seq<Answer>)
    requires RedbRun(NEW_REDB, calls, answers)
    ensures RedbFrom([], calls, answers)
  {
    assert Refines(NEW_REDB, StateAfter([]));
  }

  // A run of either store, from a new one.
  ghost predicate StoreRun(calls: seq<Call>, answers: seq<Answer>) {
    && (forall call <- calls :: InRange(call))
    && (RedbRun(NEW_REDB, calls, answers) || MemoryRun(NEW_MEMORY, calls, answers))
  }

  lemma LookupAnswer(calls: seq<Call>, answers: seq<Answer>, i: nat, slot: Slot)
    requires StoreRun(calls, answers) && i < |calls| && LooksUp(calls[i], slot)
    ensures |answers| == |calls| && answers[i] == ValueAt(StateAfter(calls[..i]), slot)
  {
    assert [] + calls[..i] == calls[..i];
    if RedbRun(NEW_REDB, calls, answers) {
      RedbAnswer(calls, answers, i);
      SameLookup(calls[..i], calls[i], answers[i], slot);
    } else {
      MemoryAnswer([], calls, answers, i);
    }
  }

  /** Whichever store it is, a lookup answers with what was written last. */
  lemma LastWriteWins(calls: seq<Call>, answers: seq<Answer>, i: nat, slot: Slot)
    requires StoreRun(calls, answers) && i < |calls| && LooksUp(calls[i], slot)
    ensures |answers| == |calls| && LastWritten(calls[..i], slot, answers[i])
  {
    LookupAnswer(calls, answers, i, slot);
    StateIsLastWritten(calls[..i], slot);
  }

  // ---------- Lists ----------

  lemma {:induction false} ValueCount<K, V>(m: map<K, V>, key: K, v: V)
    requires forall k <- m :: m[k] == v ==> k == key
    ensures ValuesOf(m)[v] == if Lookup(m, key) == Some(v) then 1 else 0
    decreases |m|
  {
    if m.Keys != {} {
      var q := Pick(m.Keys);
      ValueCount(m - {q}, key, v);
    }
  }

  ghost predicate OwnKeys(t: MemoryTables) {
    && OwnNames(t.functions)
    && (forall id <- t.builds :: t.builds[id].id == id)
    && (forall f <- t.bindings :: t.bindings[f].functionName == f)
  }

  lemma OwnKeysAfter(t: MemoryTables, call: Call)
    requires OwnKeys(t)
    ensures OwnKeys(After(t, call, MemoryKey(call)))
  {
  }

  lemma {:induction false} StateOwnKeys(calls: seq<Call>)
    ensures OwnKeys(StateAfter(calls))
    decreases calls
  {
    if calls != [] {
      StateOwnKeys(calls[..|calls| - 1]);
      OwnKeysAfter(StateAfter(calls[..|calls| - 1]), calls[|calls| - 1]);
    }
  }

  // How often the list `a` holds what a lookup would give as `value`.
  function Times(a: Answer, value: Answer): nat {
    match (a, value)
    case (FunctionsAnswer(list), FunctionAnswer(Some(f))) => multiset(list)[f]
    case (BuildsAnswer(list), BuildAnswer(Some(b))) => multiset(list)[b]
    case (BindingsAnswer(list), BindingAnswer(Some(b))) => multiset(list)[b]
    case _ => 0
  }

  // `call` lists what is in slots such as `slot`, and `value` belongs in that one.
  predicate Lists(call: Call, slot: Slot, value: Answer) {
    match (slot, value)
    case (FunctionOf(name), FunctionAnswer(Some(f))) => call.ListFunctions? && f.name == name
    case (BuildOf(id), BuildAnswer(Some(b))) => call.ListBuilds? && b.id == id
    case (BindingOf(name), BindingAnswer(Some(b))) => call.ListBindings? && b.functionName == name
    case _ => false
  }

  lemma FunctionTimes(t: MemoryTables, a: Answer, name: string, f: Function)
    requires OwnKeys(t) && Answers(t, Call.ListFunctions, MemoryKey(Call.ListFunctions), a) && f.name == name
    ensures Times(a, FunctionAnswer(Some(f))) == if Lookup(t.functions, name) == Some(f) then 1 else 0
  {
    ValueCount(t.functions, name, f);
  }

  lemma BuildTimes(t: MemoryTables, a: Answer, id: string, b: Build)
    requires OwnKeys(t) && Answers(t, Call.ListBuilds, MemoryKey(Call.ListBuilds), a) && b.id == id
    ensures Times(a, BuildAnswer(Some(b))) == if Lookup(t.builds, id) == Some(b) then 1 else 0
  {
    ValueCount(t.builds, id, b);
  }

  lemma BindingTimes(t: MemoryTables, a: Answer, name: string, b: PubSub.Binding)
    requires OwnKeys(t) && Answers(t, Call.ListBindings, MemoryKey(Call.ListBindings), a) && b.functionName == name
    ensures Times(a, BindingAnswer(Some(b))) == if Lookup(t.bindings, name) == Some(b) then 1 else 0
  {
    ValueCount(t.bindings, name, b);
  }

  lemma ListAnswer(t: MemoryTables, call: Call, a: Answer, slot: Slot, value: Answer)
    requires OwnKeys(t) && Answers(t, call, MemoryKey(call), a) && Lists(call, slot, value)
    ensures Times(a, value) == if ValueAt(t, slot) == value then 1 else 0
  {
    match (slot, value) {
      case (FunctionOf(name), FunctionAnswer(Some(f))) => FunctionTimes(t, a, name, f);
      case (BuildOf(id), BuildAnswer(Some(b))) => BuildTimes(t, a, id, b);
      case (BindingOf(name), BindingAnswer(Some(b))) => BindingTimes(t, a, name, b);
    }
  }

  lemma ListAnswerInRun(calls: seq<Call>, answers: seq<Answer>, i: nat, slot: Slot, value: Answer)
    requires StoreRun(calls, answers) && i < |calls| && Lists(calls[i], slot, value)
    ensures |answers| == |calls| && Answers(StateAfter(calls[..i]), calls[i], MemoryKey(calls[i]), answers[i])
  {
    assert [] + calls[..i] == calls[..i];
    if RedbRun(NEW_REDB, calls, answers) {
      RedbAnswer(calls, answers, i);
      SameList(calls[..i], calls[i], answers[i]);
    } else {
      MemoryAnswer([], calls, answers, i);
    }
  }

  /** A list holds each function, build or binding that a lookup would give, once, and nothing else. */
  lemma ListsAreCurrent(calls: seq<Call>, answers: seq<Answer>, i: nat, slot: Slot, value: Answer)
    requires StoreRun(calls, answers) && i < |calls| && Lists(calls[i], slot, value)
    ensures |answers| == |calls|
    ensures Times(answers[i], value) == if LastWritten(calls[..i], slot, value) then 1 else 0
  {
    ListAnswerInRun(calls, answers, i, slot, value);
    StateOwnKeys(calls[..i]);
    ListAnswer(StateAfter(calls[..i]), calls[i], answers[i], slot, value);
    StateIsLastWritten(calls[..i], slot);
    if LastWritten(calls[..i], slot, value) {
      LastWrittenOnce(calls[..i], slot, value, ValueAt(StateAfter(calls[..i]), slot));
    }
  }
}
