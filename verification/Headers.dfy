/**
 Header rewriting on the way to a function and back: hop-by-hop headers are stripped (section 6.1 of
 RFC 7230), the execution id is set, the forwarding headers are set or extended.  Names are lower-case
 tokens; a name's values are a list; characters stand for bytes.
 */
module Headers {
  import opened Letters
  import opened Wrappers

  type Entries = map<string, seq<string>>

  // What may stand in a value at all, and what a value must consist of to be read as text.
  predicate LegalChar(c: char) {
    (c >= ' ' && c != 127 as char) || c == '\t'
  }

  predicate Legal(value: string) {
    forall c <- value :: LegalChar(c)
  }

  predicate Readable(value: string) {
    forall c <- value :: ' ' <= c < 127 as char || c == '\t'
  }

  ghost predicate WellFormed(h: Entries) {
    forall n <- h :: h[n] != [] && forall v <- h[n] :: Legal(v)
  }

  // ---------- Names ----------

  const HOP_BY_HOP: set<string> :=
    {"connection", "keep-alive", "transfer-encoding", "te", "trailer",
     "proxy-authenticate", "proxy-authorization", "upgrade"}

  const EXECUTION_ID := "function-execution-id"
  const FORWARDED_FOR := "x-forwarded-for"
  const FORWARDED_PROTO := "x-forwarded-proto"
  const FORWARDED_HOST := "x-forwarded-host"

  // Section 3.2.6 of RFC 7230.
  predicate TokenChar(c: char) {
    'a' <= c <= 'z' || 'A' <= c <= 'Z' || '0' <= c <= '9' || c in "!#$%&'*+-.^_`|~"
  }

  function LowerChar(c: char): char {
    if 'A' <= c <= 'Z' then c - 'A' + 'a' else c
  }

  function LowerCase(s: string): string {
    if s == "" then "" else LowerCase(s[..|s| - 1]) + [LowerChar(s[|s| - 1])]
  }

  function ParseName(token: string): Option<string> {
    if token != "" && forall c <- token :: TokenChar(c) then Some(LowerCase(token)) else None
  }

  predicate Blank(c: char) {
    c == ' ' || c == '\t'
  }

  function TrimEnd(s: string): string {
    if s != "" && Blank(s[|s| - 1]) then TrimEnd(s[..|s| - 1]) else s
  }

  function Trim(s: string): string {
    if s != "" && Blank(s[0]) then Trim(s[1..]) else TrimEnd(s)
  }

  // ---------- What the characters are ----------

  const OTHERS := DIGITS + "!#$%&'*+-.^_`|~"

  // `d` stands in the lower-case name where `c` stands in the token.
  ghost predicate Lowers(c: char, d: char) {
    LowersIn(UPPER, LOWER, OTHERS, c, d)
  }

  ghost predicate LowersIn(upper: string, lower: string, others: string, c: char, d: char)
    requires |upper| == |lower|
  {
    || (exists k | 0 <= k < |upper| :: (c == upper[k] || c == lower[k]) && d == lower[k])
    || (c == d && c in others)
  }

  lemma LowersInExactly(upper: string, lower: string, others: string, c: char, d: char)
    requires |upper| == 26 && |lower| == 26
    requires forall k | 0 <= k < 26 :: upper[k] as int == 65 + k && lower[k] as int == 97 + k
    requires c in others <==> '0' <= c <= '9' || c in "!#$%&'*+-.^_`|~"
    ensures LowersIn(upper, lower, others, c, d) <==> TokenChar(c) && LowerChar(c) == d
  {
    if 'A' <= c <= 'Z' {
      assert upper[c as int - 65] == c;
    } else if 'a' <= c <= 'z' {
      assert lower[c as int - 97] == c;
    }
  }

  lemma LowersExactly(c: char, d: char)
    ensures Lowers(c, d) <==> TokenChar(c) && LowerChar(c) == d
  {
    Places();
    LettersAndDigits(c);
    LowersInExactly(UPPER, LOWER, OTHERS, c, d);
  }

  lemma {:induction false} LowerCaseAt(s: string)
    ensures |LowerCase(s)| == |s| && forall i | 0 <= i < |s| :: LowerCase(s)[i] == LowerChar(s[i])
    decreases s
  {
    if s != "" {
      LowerCaseAt(s[..|s| - 1]);
    }
  }

  // A token is a name exactly if it is not empty and has token characters only; the name is the token with
  // its letters lowered one by one.
  lemma NameOfToken(token: string, name: string)
    ensures ParseName(token) == Some(name) <==>
              token != "" && |name| == |token| && forall i | 0 <= i < |token| :: Lowers(token[i], name[i])
  {
    LowerCaseAt(token);
    forall i | 0 <= i < |token| && i < |name| {
      LowersExactly(token[i], name[i]);
    }
    if |name| == |token| && forall i | 0 <= i < |token| :: Lowers(token[i], name[i]) {
      assert LowerCase(token) == name;
    }
  }

  // Blanks at both ends go, and nothing else.
  lemma {:induction false} TrimExactly(s: string) returns (a: string, b: string)
    ensures s == a + Trim(s) + b && (forall c <- a + b :: c in " \t")
    ensures Trim(s) == "" || (Trim(s)[0] !in " \t" && Trim(s)[|Trim(s)| - 1] !in " \t")
    decreases s
  {
    if s != "" && Blank(s[0]) {
      a, b := TrimExactly(s[1..]);
      a := [s[0]] + a;
    } else {
      a := "";
      b := TrimEndExactly(s);
    }
  }

  lemma {:induction false} TrimEndExactly(s: string) returns (b: string)
    ensures s == TrimEnd(s) + b && (forall c <- b :: c in " \t")
    ensures TrimEnd(s) == "" || TrimEnd(s)[|TrimEnd(s)| - 1] !in " \t"
    decreases s
  {
    b := "";
    if s != "" && Blank(s[|s| - 1]) {
      b := TrimEndExactly(s[..|s| - 1]);
      b := b + [s[|s| - 1]];
    }
  }

  // No control character but the tab may stand in a value; one with a byte beyond ASCII cannot be read.
  lemma LegalAndReadable(value: string)
    ensures Legal(value) <==> forall c <- value :: c == '\t' || (32 <= c as int && c as int != 127)
    ensures Readable(value) <==> Legal(value) && forall c <- value :: c as int < 128
  {
  }

  // ---------- The names a Connection value lists ----------

  // The piece of `s` from `i` to `j` stands between commas.
  predicate Piece(s: string, i: int, j: int) {
    && 0 <= i <= j <= |s| && ',' !in s[i..j]
    && (i == 0 || s[i - 1] == ',') && (j == |s| || s[j] == ',')
  }

  ghost predicate Lists(value: string, name: string) {
    exists i, j :: Piece(value, i, j) && ParseName(Trim(value[i..j])) == Some(name)
  }

  ghost predicate Listed(h: Entries, name: string) {
    "connection" in h && exists v <- h["connection"] :: Readable(v) && Lists(v, name)
  }

  ghost predicate Stripped(h: Entries, name: string) {
    name in HOP_BY_HOP || Listed(h, name)
  }

  ghost function Strip(h: Entries): Entries {
    map n | n in h && !Stripped(h, n) :: h[n]
  }

  // What is stripped is exactly the static list and the names listed; a second time nothing is.
  lemma StripTwice(h: Entries)
    ensures Strip(Strip(h)) == Strip(h)
    ensures WellFormed(h) ==> WellFormed(Strip(h))
  {
  }

  // ---------- Splitting a value ----------

  // `Lists`, with the pieces that end at or before `end` only.
  ghost predicate ListsBefore(value: string, end: int, name: string) {
    exists i, j :: Piece(value, i, j) && j <= end && ParseName(Trim(value[i..j])) == Some(name)
  }

  lemma NoComma(value: string, from: int, to: int, at: int)
    requires 0 <= from <= at < to <= |value| && ',' !in value[from..to]
    ensures value[at] != ','
  {
    assert value[from..to][at - from] == value[at];
  }

  lemma PieceStart(value: string, i: int, j: int, from: int)
    requires Piece(value, i, j) && 0 <= from <= j && (from == 0 || value[from - 1] == ',')
    requires ',' !in value[from..j]
    ensures i == from
  {
    if i < from {
      NoComma(value, i, j, from - 1);
    } else if from < i {
      NoComma(value, from, j, i - 1);
    }
  }

  method ListedNames(value: string) returns (names: set<string>)
    ensures forall n :: n in names <==> Lists(value, n)
  {
    names := {};
    var from, at := 0, 0;
    while at < |value|
      invariant 0 <= from <= at <= |value| && ',' !in value[from..at] && (from == 0 || value[from - 1] == ',')
      invariant forall n :: n in names <==> ListsBefore(value, from - 1, n)
    {
      if value[at] == ',' {
        names := WithPiece(value, from, at, names);
        from := at + 1;
      }
      at := at + 1;
    }
    names := WithPiece(value, from, at, names);
    forall n ensures n in names <==> Lists(value, n) {
    }
  }

  method WithPiece(value: string, from: nat, at: nat, names: set<string>) returns (more: set<string>)
    requires from <= at <= |value| && Piece(value, from, at)
    requires forall n :: n in names <==> ListsBefore(value, from - 1, n)
    ensures forall n :: n in more <==> ListsBefore(value, at, n)
  {
    var name := ParseName(Trim(value[from..at]));
    more := if name.Some? then names + {name.value} else names;
    forall n ensures n in more <==> ListsBefore(value, at, n) {
      if i, j :| Piece(value, i, j) && j <= at && ParseName(Trim(value[i..j])) == Some(n) {
        OnlyPiece(value, from, at, i, j);
      }
      if n in names {
        var i, j :| Piece(value, i, j) && j <= from - 1 && ParseName(Trim(value[i..j])) == Some(n);
        assert Piece(value, i, j) && j <= at;
      }
    }
  }

  // Up to `at` there are the pieces before `from`, and the one from `from` to `at`.
  lemma OnlyPiece(value: string, from: nat, at: nat, i: int, j: int)
    requires Piece(value, from, at) && Piece(value, i, j) && j <= at
    ensures j <= from - 1 || (i == from && j == at)
  {
    if from <= j {
      if j < at {
        NoComma(value, from, at, j);
      } else {
        PieceStart(value, i, j, from);
      }
    }
  }

  // ---------- Lists by their items ----------

  function Joined(items: seq<string>): string
    requires items != []
  {
    if |items| == 1 then items[0] else Joined(items[..|items| - 1]) + "," + items[|items| - 1]
  }

  lemma OneItem(item: string, name: string)
    requires ',' !in item
    ensures Lists(item, name) <==> ParseName(Trim(item)) == Some(name)
  {
    assert item[0..|item|] == item;
    if i, j :| Piece(item, i, j) && ParseName(Trim(item[i..j])) == Some(name) {
      PieceStart(item, i, j, 0);
    }
    if ParseName(Trim(item)) == Some(name) {
      assert Piece(item, 0, |item|);
    }
  }

  lemma PieceInFront(s: string, t: string, i: int, j: int)
    requires j <= |s|
    ensures Piece(s + "," + t, i, j) <==> Piece(s, i, j)
    ensures 0 <= i <= j ==> (s + "," + t)[i..j] == s[i..j]
  {
    var both := s + "," + t;
    assert both[|s|] == ',';
    if 0 <= i <= j {
      assert both[i..j] == s[i..j];
      assert i > 0 ==> both[i - 1] == s[i - 1];
      assert j < |s| ==> both[j] == s[j];
    }
  }

  lemma OneMoreItem(s: string, item: string, name: string)
    requires ',' !in item
    ensures Lists(s + "," + item, name) <==> Lists(s, name) || ParseName(Trim(item)) == Some(name)
  {
    var both, at := s + "," + item, |s| + 1;
    assert both[at..|both|] == item && both[at - 1] == ',';
    if i, j :| Piece(both, i, j) && ParseName(Trim(both[i..j])) == Some(name) {
      PieceInFront(s, item, i, if j <= |s| then j else 0);
      if j > |s| {
        PieceStart(both, i, j, at);
      }
    }
    if i, j :| Piece(s, i, j) && ParseName(Trim(s[i..j])) == Some(name) {
      PieceInFront(s, item, i, j);
    }
    if ParseName(Trim(item)) == Some(name) {
      assert Piece(both, at, |both|);
    }
  }

  // A value lists the names of its comma-separated items, blanks around them not counted.
  lemma {:induction false} ListsItsItems(items: seq<string>, name: string)
    requires items != [] && forall item <- items :: ',' !in item
    ensures Lists(Joined(items), name) <==> exists item <- items :: ParseName(Trim(item)) == Some(name)
    decreases items
  {
    if |items| == 1 {
      OneItem(items[0], name);
    } else {
      var before, last := items[..|items| - 1], items[|items| - 1];
      assert items == before + [last];
      ListsItsItems(before, name);
      OneMoreItem(Joined(before), last, name);
    }
  }

  // ---------- Rewriting ----------

  // A value that is not legal is silently not set.
  function Set(h: Entries, name: string, value: string): Entries {
    if Legal(value) then h[name := [value]] else h
  }

  datatype Context = Context(executionId: string, clientAddr: string, proto: string, originalHost: Option<string>)

  function ForwardedFor(h: Entries, addr: string): string {
    if FORWARDED_FOR in h && h[FORWARDED_FOR] != [] && Readable(h[FORWARDED_FOR][0]) && h[FORWARDED_FOR][0] != ""
    then h[FORWARDED_FOR][0] + ", " + addr
    else addr
  }

  ghost function RewriteRequest(h: Entries, c: Context): Entries {
    var h1 := Set(Strip(h), EXECUTION_ID, c.executionId);
    var h2 := Set(h1, FORWARDED_FOR, ForwardedFor(h1, c.clientAddr));
    var h3 := Set(h2, FORWARDED_PROTO, c.proto);
    if c.originalHost.Some? then Set(h3, FORWARDED_HOST, c.originalHost.value) else h3
  }

  ghost function RewriteResponse(h: Entries, executionId: string): Entries {
    Set(Strip(h), EXECUTION_ID, executionId)
  }

  class HeaderMap {
    var entries: Entries

    constructor (entries: Entries)
      ensures this.entries == entries
    {
      this.entries := entries;
    }

    method Remove(name: string)
      modifies this
      ensures entries == old(entries) - {name}
    {
      entries := entries - {name};
    }

    method SetHeader(name: string, value: string)
      modifies this
      ensures entries == Set(old(entries), name, value)
    {
      if forall c <- value :: LegalChar(c) {
        entries := entries[name := [value]];
      }
    }

    method ConnectionNames() returns (names: set<string>)
      ensures forall n :: n in names <==> Listed(entries, n)
    {
      names := {};
      if "connection" !in entries {
        return;
      }
      var values := entries["connection"];
      var i := 0;
      while i < |values|
        invariant 0 <= i <= |values|
        invariant forall n :: n in names <==> exists v <- values[..i] :: Readable(v) && Lists(v, n)
      {
        var more := {};
        if forall c <- values[i] :: ' ' <= c < 127 as char || c == '\t' {
          more := ListedNames(values[i]);
        }
        assert values[..i + 1] == values[..i] + [values[i]];
        names := names + more;
        i := i + 1;
      }
      assert values[..i] == values;
    }

    method RemoveAll(names: set<string>)
      modifies this
      ensures entries == old(entries) - names
    {
      var rest := names;
      while rest != {}
        invariant rest <= names && entries == old(entries) - (names - rest)
        decreases rest
      {
        var n :| n in rest;
        Remove(n);
        rest := rest - {n};
      }
    }

    method StripHopByHop()
      modifies this
      ensures entries == Strip(old(entries))
      ensures forall n :: n in entries <==>
                && n in old(entries)
                && n !in {"connection", "keep-alive", "transfer-encoding", "te", "trailer", "proxy-authenticate",
                          "proxy-authorization", "upgrade"}
                && !("connection" in old(entries)
                     && exists v <- old(entries)["connection"] :: Readable(v) && Lists(v, n))
      ensures forall n <- entries :: entries[n] == old(entries)[n]
    {
      var dynamic := ConnectionNames();
      RemoveAll(HOP_BY_HOP);
      RemoveAll(dynamic);
      assert entries == Strip(old(entries));
    }

    method RewriteRequestHeaders(c: Context)
      modifies this
      ensures entries == RewriteRequest(old(entries), c)
    {
      StripHopByHop();
      SetHeader(EXECUTION_ID, c.executionId);
      var appended := c.clientAddr;
      if FORWARDED_FOR in entries && entries[FORWARDED_FOR] != [] {
        var existing := entries[FORWARDED_FOR][0];
        if (forall ch <- existing :: ' ' <= ch < 127 as char || ch == '\t') && existing != "" {
          appended := existing + ", " + c.clientAddr;
        }
      }
      SetHeader(FORWARDED_FOR, appended);
      SetHeader(FORWARDED_PROTO, c.proto);
      if c.originalHost.Some? {
        SetHeader(FORWARDED_HOST, c.originalHost.value);
      }
    }

    method RewriteResponseHeaders(executionId: string)
      modifies this
      ensures entries == RewriteResponse(old(entries), executionId)
    {
      StripHopByHop();
      SetHeader(EXECUTION_ID, executionId);
    }
  }

  // ---------- What rewriting guarantees ----------

  // The execution id a function sees is the host's, whatever the client sent and whatever Connection
  // names, exactly if it is a legal header value; otherwise the client's own goes through.
  lemma ExecutionIdIsHosts(h: Entries, c: Context)
    requires WellFormed(h)
    ensures var r := RewriteRequest(h, c);
            && (EXECUTION_ID in r && r[EXECUTION_ID] == [c.executionId] <==> Legal(c.executionId))
            && (!Legal(c.executionId) ==>
                  (EXECUTION_ID in r <==> EXECUTION_ID in Strip(h))
                  && (EXECUTION_ID in r ==> r[EXECUTION_ID] == h[EXECUTION_ID]))
    ensures var r := RewriteResponse(h, c.executionId);
            EXECUTION_ID in r && r[EXECUTION_ID] == [c.executionId] <==> Legal(c.executionId)
  {
    DifferentNames();
    if EXECUTION_ID in h {
      assert h[EXECUTION_ID][0] in h[EXECUTION_ID];
    }
  }

  // The header has the one value if that is legal, and is left as stripping left it if not.
  ghost predicate IsSet(h: Entries, r: Entries, name: string, value: string) {
    if Legal(value) then name in r && r[name] == [value]
    else (name in r <==> name in Strip(h)) && (name in r ==> r[name] == h[name])
  }

  // Each forwarding header carries its own value.
  lemma ForwardingHeaders(h: Entries, c: Context)
    ensures var r := RewriteRequest(h, c);
            && IsSet(h, r, "function-execution-id", c.executionId)
            && IsSet(h, r, "x-forwarded-for",
                     if "x-forwarded-for" in Strip(h) && h["x-forwarded-for"] != []
                        && Readable(h["x-forwarded-for"][0]) && h["x-forwarded-for"][0] != ""
                     then h["x-forwarded-for"][0] + ", " + c.clientAddr else c.clientAddr)
            && IsSet(h, r, "x-forwarded-proto", c.proto)
            && (c.originalHost.Some? ==> IsSet(h, r, "x-forwarded-host", c.originalHost.value))
            && (c.originalHost.None? ==>
                  && ("x-forwarded-host" in r <==> "x-forwarded-host" in Strip(h))
                  && ("x-forwarded-host" in r ==> r["x-forwarded-host"] == h["x-forwarded-host"]))
    ensures IsSet(h, RewriteResponse(h, c.executionId), "function-execution-id", c.executionId)
    ensures forall n :: n != "function-execution-id" ==>
              var r := RewriteResponse(h, c.executionId);
              (n in r <==> n in Strip(h)) && (n in r ==> r[n] == h[n])
  {
    DifferentNames();
  }

  lemma DifferentNames()
    ensures EXECUTION_ID != FORWARDED_FOR && EXECUTION_ID != FORWARDED_PROTO && EXECUTION_ID != FORWARDED_HOST
    ensures FORWARDED_FOR != FORWARDED_PROTO && FORWARDED_FOR != FORWARDED_HOST && FORWARDED_PROTO != FORWARDED_HOST
  {
    assert EXECUTION_ID[0] == 'f' && FORWARDED_FOR[0] == 'x' && FORWARDED_PROTO[0] == 'x' && FORWARDED_HOST[0] == 'x';
    assert FORWARDED_FOR[12] == 'f' && FORWARDED_PROTO[12] == 'p' && FORWARDED_HOST[12] == 'h';
  }

  predicate Rewritten(name: string) {
    name == EXECUTION_ID || name == FORWARDED_FOR || name == FORWARDED_PROTO || name == FORWARDED_HOST
  }

  // Any other header, such as `traceparent`, goes through with all its values, or is dropped, exactly as
  // it is or is not hop-by-hop: a client that lists `traceparent` in Connection has it dropped.
  lemma OthersPassThrough(h: Entries, c: Context, name: string)
    requires !Rewritten(name)
    ensures var r := RewriteRequest(h, c);
            && (name in r <==> name in h && !Stripped(h, name))
            && (name in r ==> r[name] == h[name])
  {
  }

  // ---------- Chains of forwarders ----------

  function Chain(addrs: seq<string>): string
    requires addrs != []
  {
    if |addrs| == 1 then addrs[0] else Chain(addrs[..|addrs| - 1]) + ", " + addrs[|addrs| - 1]
  }

  ghost function Forwarded(h: Entries, hops: seq<Context>): Entries {
    if hops == [] then h else RewriteRequest(Forwarded(h, hops[..|hops| - 1]), hops[|hops| - 1])
  }

  function Addrs(hops: seq<Context>): seq<string> {
    if hops == [] then [] else Addrs(hops[..|hops| - 1]) + [hops[|hops| - 1].clientAddr]
  }

  predicate Address(s: string) {
    s != "" && Readable(s)
  }

  lemma AppendReadable(a: string, b: string)
    requires Readable(a) && Readable(b)
    ensures Readable(a + ", " + b) && Legal(a + ", " + b) && Legal(b) && a + ", " + b != ""
  {
  }

  lemma ForwardedForAfter(h: Entries, c: Context)
    requires Address(c.clientAddr) && "connection" !in h
    ensures var r := RewriteRequest(h, c);
            && "connection" !in r
            && FORWARDED_FOR in r && r[FORWARDED_FOR] == [ForwardedFor(h, c.clientAddr)]
            && Address(ForwardedFor(h, c.clientAddr))
  {
    DifferentNames();
    NotConnection();
    if FORWARDED_FOR in h && h[FORWARDED_FOR] != [] && Readable(h[FORWARDED_FOR][0]) {
      AppendReadable(h[FORWARDED_FOR][0], c.clientAddr);
    }
    AppendReadable("", c.clientAddr);
    ForwardedForIsKept(h);
  }

  lemma NotConnection()
    ensures !Rewritten("connection")
  {
    assert "connection"[0] == 'c';
    assert EXECUTION_ID[0] == 'f' && FORWARDED_FOR[0] == 'x' && FORWARDED_PROTO[0] == 'x' && FORWARDED_HOST[0] == 'x';
  }

  lemma ForwardedForIsKept(h: Entries)
    requires "connection" !in h
    ensures FORWARDED_FOR in Strip(h) <==> FORWARDED_FOR in h
  {
    assert forall n <- HOP_BY_HOP :: n[0] != 'x';
    assert FORWARDED_FOR[0] == 'x';
  }

  // A request without X-Forwarded-For or Connection, forwarded through any number of hosts, arrives with
  // the addresses each of them saw, in order.
  lemma {:induction false} ForwardedChain(h: Entries, hops: seq<Context>)
    requires "connection" !in h && FORWARDED_FOR !in h && forall c <- hops :: Address(c.clientAddr)
    ensures var r := Forwarded(h, hops);
            && "connection" !in r
            && (hops == [] ==> FORWARDED_FOR !in r)
            && |Addrs(hops)| == |hops|
            && (hops != [] ==>
                  && FORWARDED_FOR in r && r[FORWARDED_FOR] == [Chain(Addrs(hops))] && Address(Chain(Addrs(hops))))
    decreases hops
  {
    if hops != [] {
      var before, last := hops[..|hops| - 1], hops[|hops| - 1];
      ForwardedChain(h, before);
      ForwardedForAfter(Forwarded(h, before), last);
      assert Addrs(hops)[..|before|] == Addrs(before);
    }
  }
}
