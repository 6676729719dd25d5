/**
 The two stores as objects: the database with its tables ordered by key, and the in-memory store with
 its unordered maps.  Each method does and answers what `StoreSpec` says of its call.
 */
module Stores {
  import opened Wrappers
  import opened StoreKeys
  import opened StoreSpec
  import opened RegistryModel
  import PubSub

  // ---------- Reading out a table ----------

  lemma {:induction false} LeastExists(keys: set<string>) returns (k: string)
    requires keys != {}
    ensures k in keys && forall l <- keys :: !Before(l, k)
    decreases |keys|
  {
    var x :| x in keys;
    k := x;
    BeforeIsTotal(x, x);
    if keys - {x} != {} {
      var y := LeastExists(keys - {x});
      BeforeIsTotal(x, y);
      if Before(y, x) {
        k := y;
      } else {
        forall l <- keys ensures !Before(l, x) {
          if l != x && Before(l, x) {
            if x != y {
              BeforeIsTransitive(l, x, y);
            }
          }
        }
      }
    }
  }

  predicate Rising(keys: seq<string>) {
    forall i, j | 0 <= i < j < |keys| :: Before(keys[i], keys[j])
  }

  predicate ReadFrom<V(==)>(table: map<string, V>, keys: seq<string>, list: seq<V>) {
    |keys| == |list| && forall i | 0 <= i < |keys| :: keys[i] in table && table[keys[i]] == list[i]
  }

  predicate AllBelow(keys: seq<string>, k: string) {
    forall i | 0 <= i < |keys| :: Before(keys[i], k)
  }

  // `keys` and `list` are what was read of `table`; `rest` comes after it.
  predicate ReadUpTo<V(==)>(table: map<string, V>, rest: map<string, V>, keys: seq<string>, list: seq<V>) {
    && ReadFrom(table, keys, list) && Rising(keys)
    && (forall k <- rest.Keys :: k in table && rest[k] == table[k] && AllBelow(keys, k))
  }

  lemma ReadNext<V>(table: map<string, V>, rest: map<string, V>, keys: seq<string>, list: seq<V>, k: string)
    requires ReadUpTo(table, rest, keys, list)
    requires k in rest && (forall l <- rest.Keys :: !Before(l, k))
    ensures ReadUpTo(table, rest - {k}, keys + [k], list + [rest[k]])
  {
    forall l <- (rest - {k}).Keys ensures AllBelow(keys + [k], l) {
      assert AllBelow(keys, l);
      BeforeIsTotal(k, l);
    }
    assert AllBelow(keys, k);
  }

  lemma ValuesNext<V>(table: map<string, V>, rest: map<string, V>, list: seq<V>, k: string)
    requires k in rest && multiset(list) + ValuesOf(rest) == ValuesOf(table)
    ensures multiset(list + [rest[k]]) + ValuesOf(rest - {k}) == ValuesOf(table)
  {
    ValuesSplit(rest, k);
  }

  method LeastKey<V>(table: map<string, V>) returns (k: string)
    requires table.Keys != {}
    ensures k in table && forall l <- table.Keys :: !Before(l, k)
  {
    ghost var least := LeastExists(table.Keys);
    k :| k in table.Keys && forall l <- table.Keys :: !Before(l, k);
  }

  // In the order of keys, as the database reads its tables.
  method InKeyOrder<V(==)>(table: map<string, V>) returns (list: seq<V>, ghost keys: seq<string>)
    ensures multiset(list) == ValuesOf(table)
    ensures |keys| == |list| && forall i | 0 <= i < |keys| :: keys[i] in table && table[keys[i]] == list[i]
    ensures forall i, j | 0 <= i < j < |keys| :: Before(keys[i], keys[j])
  {
    var rest := table;
    list, keys := [], [];
    while rest.Keys != {}
      invariant multiset(list) + ValuesOf(rest) == ValuesOf(table)
      invariant ReadUpTo(table, rest, keys, list)
      decreases |rest|
    {
      var k := LeastKey(rest);
      ValuesNext(table, rest, list, k);
      ReadNext(table, rest, keys, list, k);
      list, keys := list + [rest[k]], keys + [k];
      rest := rest - {k};
    }
  }

  // In any order, as a hash map yields its values.
  method InAnyOrder<V>(table: map<string, V>) returns (list: seq<V>)
    ensures multiset(list) == ValuesOf(table)
  {
    var rest := table;
    list := [];
    while rest.Keys != {}
      invariant multiset(list) + ValuesOf(rest) == ValuesOf(table)
      decreases |rest|
    {
      var k :| k in rest.Keys;
      ValuesSplit(rest, k);
      list := list + [rest[k]];
      rest := rest - {k};
    }
  }

  method SortByName(list: seq<Function>) returns (sorted: seq<Function>)
    ensures multiset(sorted) == multiset(list) && SortedByName(sorted)
  {
    sorted := [];
    var n := 0;
    while n < |list|
      invariant 0 <= n <= |list|
      invariant multiset(sorted) == multiset(list[..n]) && SortedByName(sorted)
    {
      sorted := Insert(sorted, list[n]);
      assert list[..n + 1] == list[..n] + [list[n]];
      n := n + 1;
    }
    assert list[..n] == list;
  }

  // After every function whose name does not come after.
  method Insert(sorted: seq<Function>, f: Function) returns (list: seq<Function>)
    requires SortedByName(sorted)
    ensures multiset(list) == multiset(sorted) + multiset{f} && SortedByName(list)
  {
    var n := |sorted|;
    while n > 0 && Before(f.name, sorted[n - 1].name)
      invariant 0 <= n <= |sorted|
      invariant forall j | n <= j < |sorted| :: Before(f.name, sorted[j].name)
    {
      n := n - 1;
    }
    list := sorted[..n] + [f] + sorted[n..];
    assert sorted == sorted[..n] + sorted[n..];
    InsertedSorted(sorted, f, n);
  }

  lemma InsertedSorted(sorted: seq<Function>, f: Function, n: nat)
    requires SortedByName(sorted) && n <= |sorted|
    requires n > 0 ==> !Before(f.name, sorted[n - 1].name)
    requires forall l | n <= l < |sorted| :: Before(f.name, sorted[l].name)
    ensures SortedByName(sorted[..n] + [f] + sorted[n..])
  {
    var list := sorted[..n] + [f] + sorted[n..];
    forall i, j | 0 <= i < j < |list| ensures !Before(list[j].name, list[i].name) {
      InsertedInOrder(sorted, f, n, i, j);
    }
  }

  lemma InsertedInOrder(sorted: seq<Function>, f: Function, n: nat, i: nat, j: nat)
    requires SortedByName(sorted) && n <= |sorted| && i < j <= |sorted|
    requires n > 0 ==> !Before(f.name, sorted[n - 1].name)
    requires forall l | n <= l < |sorted| :: Before(f.name, sorted[l].name)
    ensures var list := sorted[..n] + [f] + sorted[n..]; !Before(list[j].name, list[i].name)
  {
    if i < n && j == n {
      if i < n - 1 && Before(f.name, sorted[i].name) {
        BeforeIsTotal(sorted[i].name, sorted[n - 1].name);
        if sorted[i].name != sorted[n - 1].name {
          BeforeIsTransitive(f.name, sorted[i].name, sorted[n - 1].name);
        }
      }
    } else if i == n {
      BeforeIsTotal(f.name, sorted[j - 1].name);
    }
  }

  // ---------- The database ----------

  class RedbStore {
    var functions: map<string, Function>
    var revisions: map<string, Revision>
    var builds: map<string, Build>
    var bindings: map<string, PubSub.Binding>

    ghost function Contents(): RedbTables
      reads this
    {
      Tables(functions, revisions, builds, bindings)
    }

    constructor ()
      ensures Contents() == Tables(map[], map[], map[], map[])
    {
      functions, revisions, builds, bindings := map[], map[], map[], map[];
    }

    // In one transaction what reading the function, changing it and putting it back would do; nothing if
    // there is no such function.
    method SetCurrentRevision(name: string, number: nat) returns (r: Result<(), string>)
      modifies this`functions
      ensures name !in old(functions) <==> r.Err?
      ensures r.Err? ==> r.error == name && Contents() == old(Contents())
      ensures r.Ok? ==>
                var f := old(functions)[name].(currentRevision := Some(number));
                Contents() == old(Contents()).(functions := old(functions)[name := f])
                && (f.name == name ==> Contents() == After(old(Contents()), Call.PutFunction(f), ""))
    {
      if name !in functions {
        return Err(name);
      }
      var f := functions[name].(currentRevision := Some(number));
      functions := functions[name := f];
      r := Ok(());
    }

    method GetFunction(name: string) returns (r: Option<Function>)
      ensures Answers(Contents(), Call.GetFunction(name), "", FunctionAnswer(r))
    {
      r := if name in functions then Some(functions[name]) else None;
    }

    method ListFunctions() returns (list: seq<Function>)
      ensures Answers(Contents(), Call.ListFunctions, "", FunctionsAnswer(list))
    {
      ghost var keys;
      list, keys := InKeyOrder(functions);
      list := SortByName(list);
    }

    method PutFunction(f: Function)
      modifies this`functions
      ensures Contents() == After(old(Contents()), Call.PutFunction(f), "")
    {
      functions := functions[f.name := f];
    }

    method DeleteFunction(name: string)
      modifies this`functions
      ensures Contents() == After(old(Contents()), Call.DeleteFunction(name), "")
    {
      functions := functions - {name};
    }

    method PutRevision(r: Revision)
      modifies this`revisions
      ensures Contents() == After(old(Contents()), Call.PutRevision(r), RedbKey(Call.PutRevision(r)))
    {
      var key := StoreKeys.RevisionKey(r.functionName, r.number);
      revisions := revisions[key := r];
    }

    method GetRevision(name: string, number: nat) returns (r: Option<Revision>)
      ensures Answers(Contents(), Call.GetRevision(name, number), RedbKey(Call.GetRevision(name, number)),
                      RevisionAnswer(r))
    {
      var key := StoreKeys.RevisionKey(name, number);
      r := if key in revisions then Some(revisions[key]) else None;
    }

    method PutBuild(b: Build)
      modifies this`builds
      ensures Contents() == After(old(Contents()), Call.PutBuild(b), "")
    {
      builds := builds[b.id := b];
    }

    method GetBuild(id: string) returns (r: Option<Build>)
      ensures Answers(Contents(), Call.GetBuild(id), "", BuildAnswer(r))
    {
      r := if id in builds then Some(builds[id]) else None;
    }

    method ListBuilds() returns (list: seq<Build>)
      ensures Answers(Contents(), Call.ListBuilds, "", BuildsAnswer(list))
    {
      ghost var keys;
      list, keys := InKeyOrder(builds);
    }

    method GetBinding(name: string) returns (r: Option<PubSub.Binding>)
      ensures Answers(Contents(), Call.GetBinding(name), "", BindingAnswer(r))
    {
      r := if name in bindings then Some(bindings[name]) else None;
    }

    method PutBinding(b: PubSub.Binding)
      modifies this`bindings
      ensures Contents() == After(old(Contents()), Call.PutBinding(b), "")
    {
      bindings := bindings[b.functionName := b];
    }

    method DeleteBinding(name: string)
      modifies this`bindings
      ensures Contents() == After(old(Contents()), Call.DeleteBinding(name), "")
    {
      bindings := bindings - {name};
    }

    method ListBindings() returns (list: seq<PubSub.Binding>)
      ensures Answers(Contents(), Call.ListBindings, "", BindingsAnswer(list))
    {
      ghost var keys;
      list, keys := InKeyOrder(bindings);
    }
  }

  // ---------- The in-memory store ----------

  class MemoryStore {
    var functions: map<string, Function>
    var revisions: map<RegistryModel.RevisionKey, Revision>
    var builds: map<string, Build>
    var bindings: map<string, PubSub.Binding>

    ghost function Contents(): MemoryTables
      reads this
    {
      Tables(functions, revisions, builds, bindings)
    }

    constructor ()
      ensures Contents() == Tables(map[], map[], map[], map[])
    {
      functions, revisions, builds, bindings := map[], map[], map[], map[];
    }

    method GetFunction(name: string) returns (r: Option<Function>)
      ensures Answers(Contents(), Call.GetFunction(name), ("", 0), FunctionAnswer(r))
    {
      r := if name in functions then Some(functions[name]) else None;
    }

    method ListFunctions() returns (list: seq<Function>)
      ensures Answers(Contents(), Call.ListFunctions, ("", 0), FunctionsAnswer(list))
    {
      list := InAnyOrder(functions);
      list := SortByName(list);
    }

    method PutFunction(f: Function)
      modifies this`functions
      ensures Contents() == After(old(Contents()), Call.PutFunction(f), ("", 0))
    {
      functions := functions[f.name := f];
    }

    method DeleteFunction(name: string)
      modifies this`functions
      ensures Contents() == After(old(Contents()), Call.DeleteFunction(name), ("", 0))
    {
      functions := functions - {name};
    }

    method PutRevision(r: Revision)
      modifies this`revisions
      ensures Contents() == After(old(Contents()), Call.PutRevision(r), MemoryKey(Call.PutRevision(r)))
    {
      revisions := revisions[(r.functionName, r.number) := r];
    }

    method GetRevision(name: string, number: nat) returns (r: Option<Revision>)
      ensures Answers(Contents(), Call.GetRevision(name, number), MemoryKey(Call.GetRevision(name, number)),
                      RevisionAnswer(r))
    {
      r := if (name, number) in revisions then Some(revisions[(name, number)]) else None;
    }

    method PutBuild(b: Build)
      modifies this`builds
      ensures Contents() == After(old(Contents()), Call.PutBuild(b), ("", 0))
    {
      builds := builds[b.id := b];
    }

    method GetBuild(id: string) returns (r: Option<Build>)
      ensures Answers(Contents(), Call.GetBuild(id), ("", 0), BuildAnswer(r))
    {
      r := if id in builds then Some(builds[id]) else None;
    }

    method ListBuilds() returns (list: seq<Build>)
      ensures Answers(Contents(), Call.ListBuilds, ("", 0), BuildsAnswer(list))
    {
      list := InAnyOrder(builds);
    }

    method GetBinding(name: string) returns (r: Option<PubSub.Binding>)
      ensures Answers(Contents(), Call.GetBinding(name), ("", 0), BindingAnswer(r))
    {
      r := if name in bindings then Some(bindings[name]) else None;
    }

    method PutBinding(b: PubSub.Binding)
      modifies this`bindings
      ensures Contents() == After(old(Contents()), Call.PutBinding(b), ("", 0))
    {
      bindings := bindings[b.functionName := b];
    }

    method DeleteBinding(name: string)
      modifies this`bindings
      ensures Contents() == After(old(Contents()), Call.DeleteBinding(name), ("", 0))
    {
      bindings := bindings - {name};
    }

    method ListBindings() returns (list: seq<PubSub.Binding>)
      ensures Answers(Contents(), Call.ListBindings, ("", 0), BindingsAnswer(list))
    {
      list := InAnyOrder(bindings);
    }
  }
}
