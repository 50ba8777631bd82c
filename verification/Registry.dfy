/** Endpoints as text, and the connection registry keyed by that text. */
module Registry {
  import opened RaftTypes
  import opened Decimals

  datatype Endpoint = Endpoint(host: string, port: int)

  /** Endpoint.toString. */
  function Print(e: Endpoint): string {
    e.host + ":" + IntText(e.port)
  }

  /** String.split(':'). */
  function Split(text: string): (parts: seq<string>)
    ensures |parts| > 0
  {
    if text == "" then [""]
    else
      var rest := Split(text[1..]);
      if text[0] == ':' then [""] + rest else [[text[0]] + rest[0]] + rest[1..]
  }

  /** parseEndpoint; None is the error it throws. */
  function Parse(text: string): Option<Endpoint> {
    var parts := Split(text);
    if |parts| != 2 then None
    else
      match ParseInt(parts[1])
      case None => None
      case Some(port) => Some(Endpoint(parts[0], port))
  }

  /** How often ':' occurs. */
  function Colons(text: string): nat {
    if text == "" then 0 else (if text[0] == ':' then 1 else 0) + Colons(text[1..])
  }

  lemma {:induction false} SplitCounts(text: string)
    ensures |Split(text)| == Colons(text) + 1
  {
    if text != "" {
      SplitCounts(text[1..]);
    }
  }

  lemma {:induction false} ColonsAppend(a: string, b: string)
    ensures Colons(a + b) == Colons(a) + Colons(b)
  {
    if a == "" {
      assert a + b == b;
    } else {
      ColonsAppend(a[1..], b);
      assert (a + b)[1..] == a[1..] + b;
    }
  }

  lemma {:induction false} NoColons(text: string)
    ensures Colons(text) == 0 <==> ':' !in text
  {
    if text != "" {
      NoColons(text[1..]);
      assert text == [text[0]] + text[1..];
    }
  }

  lemma {:induction false} SplitAtColon(a: string, b: string)
    requires ':' !in a && ':' !in b
    ensures Split(a + ":" + b) == [a, b]
  {
    if a == "" {
      assert a + ":" + b == ":" + b && (":" + b)[1..] == b;
      SplitPlain(b);
    } else {
      assert a + ":" + b == [a[0]] + (a[1..] + ":" + b);
      assert a[0] in a;
      SplitAtColon(a[1..], b);
      assert [a[0]] + a[1..] == a;
    }
  }

  lemma {:induction false} SplitPlain(b: string)
    requires ':' !in b
    ensures Split(b) == [b]
  {
    if b != "" {
      assert b[0] in b;
      SplitPlain(b[1..]);
      assert [b[0]] + b[1..] == b;
    }
  }

  /** A printed endpoint parses back to itself exactly when its host has no ':'; with one, as
      in an IPv6 address, parsing throws. */
  lemma EndpointRoundTripIff(e: Endpoint)
    ensures Parse(Print(e)) == Some(e) <==> ':' !in e.host
    ensures ':' in e.host ==> Parse(Print(e)) == None
  {
    var port := IntText(e.port);
    assert ':' !in port;
    if ':' !in e.host {
      SplitAtColon(e.host, port);
      ParseIntText(e.port);
    } else {
      NoColons(e.host);
      ColonsAppend(e.host, ":" + port);
      assert e.host + (":" + port) == Print(e);
      assert (":" + port)[1..] == port;
      SplitCounts(Print(e));
    }
  }

  /** Two endpoints never share a key, whatever their hosts. */
  lemma PrintInjective(e: Endpoint, d: Endpoint)
    requires Print(e) == Print(d)
    ensures e == d
  {
    var p, q := IntText(e.port), IntText(d.port);
    if |p| < |q| {
      LastColonAt(e.host, p, d.host, q);
    } else if |q| < |p| {
      LastColonAt(d.host, q, e.host, p);
    }
    assert Print(e)[..|e.host|] == e.host && Print(d)[..|d.host|] == d.host;
    assert Print(e)[|e.host| + 1..] == p && Print(d)[|d.host| + 1..] == q;
    ParseIntText(e.port);
    ParseIntText(d.port);
  }

  lemma LastColonAt(a: string, p: string, b: string, q: string)
    requires a + ":" + p == b + ":" + q && ':' !in q
    ensures |p| >= |q|
  {
    var text := b + ":" + q;
    assert text[|a|] == ':';
    assert forall k :: 0 <= k < |q| ==> text[|b| + 1 + k] == q[k];
  }

  lemma {:induction false} SplitInTwo(text: string)
    requires Colons(text) == 1
    ensures var parts := Split(text);
      |parts| == 2 && text == parts[0] + ":" + parts[1] && ':' !in parts[0] && ':' !in parts[1]
  {
    if text[0] == ':' {
      NoColons(text[1..]);
      SplitPlain(text[1..]);
      assert text == "" + ":" + text[1..];
    } else {
      SplitInTwo(text[1..]);
      var rest := Split(text[1..]);
      assert text == [text[0]] + text[1..];
      assert Split(text)[0] == [text[0]] + rest[0] && Split(text)[1] == rest[1];
      assert [text[0]] + (rest[0] + ":" + rest[1]) == ([text[0]] + rest[0]) + ":" + rest[1];
    }
  }

  /** What parses: a host and text that parseInt takes for the port, with one ':' between them. */
  ghost predicate Reads(text: string, e: Endpoint, port: string) {
    text == e.host + ":" + port && ':' !in e.host && ':' !in port && ParseInt(port) == Some(e.port)
  }

  /** Parsing gives the endpoint that the text is the text of, and throws when there is none. */
  lemma ParseIff(text: string, e: Endpoint)
    ensures Parse(text) == Some(e) <==> exists port :: Reads(text, e, port)
  {
    if port :| Reads(text, e, port) {
      SplitAtColon(e.host, port);
    }
    SplitCounts(text);
    if Parse(text) == Some(e) {
      SplitInTwo(text);
      assert Reads(text, e, Split(text)[1]);
    }
  }

  // ----- the registry -----

  /** The connections object, its keys in insertion order (none is the text of an integer,
      so for..in keeps that order), and the counter. */
  datatype Entries<T> = Entries(keys: seq<string>, at: map<string, T>, num: nat)

  ghost predicate Valid<T>(r: Entries<T>) {
    && (forall k :: k in r.keys <==> k in r.at)
    && (forall i, j :: 0 <= i < j < |r.keys| ==> r.keys[i] != r.keys[j])
  }

  function Without(keys: seq<string>, key: string): (rest: seq<string>)
    ensures forall k :: k in rest <==> k in keys && k != key
  {
    if keys == [] then []
    else
      var rest := Without(keys[1..], key);
      assert keys == [keys[0]] + keys[1..];
      if keys[0] == key then rest else [keys[0]] + rest
  }

  function Save<T>(r: Entries<T>, e: Endpoint, connection: T): Entries<T> {
    var key := Print(e);
    if key in r.at then r else Entries(r.keys + [key], r.at[key := connection], r.num + 1)
  }

  /** remove: the counter stays as it is. */
  function Remove<T>(r: Entries<T>, e: Endpoint): Entries<T> {
    Entries(Without(r.keys, Print(e)), r.at - {Print(e)}, r.num)
  }

  /** removeEach so far: what is left, the connections called back, and whether it threw. */
  datatype Sweep<T> = Sweep(left: Entries<T>, called: seq<T>, threw: bool)

  /** The for..in loop from some key on; a key deleted meanwhile is not visited. */
  function SweepFrom<T>(r: Entries<T>, keys: seq<string>): Sweep<T>
    decreases |keys|
  {
    if keys == [] then Sweep(r, [], false)
    else if keys[0] !in r.at then SweepFrom(r, keys[1..])
    else
      match Parse(keys[0])
      case None => Sweep(r, [], true)
      case Some(e) =>
        var rest := SweepFrom(Remove(r, e), keys[1..]);
        Sweep(rest.left, [r.at[keys[0]]] + rest.called, rest.threw)
  }

  function RemoveEach<T>(r: Entries<T>): Sweep<T> {
    SweepFrom(r, r.keys)
  }

  class ConnectionRegistry<T> {
    var keys: seq<string>
    var connections: map<string, T>
    var numConnections: nat

    function View(): Entries<T>
      reads this
    {
      Entries(keys, connections, numConnections)
    }

    constructor ()
      ensures View() == Entries([], map[], 0)
    {
      keys, connections, numConnections := [], map[], 0;
    }

    /** save. */
    method SaveConnection(endpoint: Endpoint, connection: T) returns (saved: bool)
      modifies this
      ensures View() == Save(old(View()), endpoint, connection)
      ensures saved <==> Print(endpoint) !in old(connections)
    {
      var connectionId := Print(endpoint);
      if connectionId in connections {
        return false;
      }
      keys := keys + [connectionId];
      connections := connections[connectionId := connection];
      numConnections := numConnections + 1;
      return true;
    }

    /** remove. */
    method RemoveConnection(endpoint: Endpoint)
      modifies this
      ensures View() == Remove(old(View()), endpoint)
    {
      var connectionId := Print(endpoint);
      keys := Without(keys, connectionId);
      connections := connections - {connectionId};
    }

    /** removeEach: the connections called back, and whether parsing a key threw. */
    method RemoveEachConnection() returns (called: seq<T>, threw: bool)
      modifies this
      ensures RemoveEach(old(View())) == Sweep(View(), called, threw)
    {
      called, threw := [], false;
      var visit := keys;
      for i := 0 to |visit|
        invariant var rest := SweepFrom(View(), visit[i..]);
          RemoveEach(old(View())) == Sweep(rest.left, called + rest.called, rest.threw)
      {
        ghost var before := SweepFrom(View(), visit[i..]);
        assert visit[i..][0] == visit[i] && visit[i..][1..] == visit[i + 1..];
        if visit[i] in connections {
          var endpoint := Parse(visit[i]);
          if endpoint == None {
            threw := true;
            return;
          }
          var connection := connections[visit[i]];
          RemoveConnection(endpoint.value);
          assert called + before.called == called + [connection] + SweepFrom(View(), visit[i + 1..]).called;
          called := called + [connection];
        }
      }
    }
  }

  // ----- the registry is a map of endpoints -----

  datatype Op<T> = Saves(e: Endpoint, connection: T) | Removes(e: Endpoint) | RemovesEach

  function Apply<T>(r: Entries<T>, op: Op<T>): Entries<T> {
    match op
    case Saves(e, connection) => Save(r, e, connection)
    case Removes(e) => Remove(r, e)
    case RemovesEach => RemoveEach(r).left
  }

  function After<T>(ops: seq<Op<T>>): Entries<T> {
    if ops == [] then Entries([], map[], 0) else Apply(After(ops[..|ops| - 1]), ops[|ops| - 1])
  }

  /** What the operations mean for a map keyed by endpoint. */
  function Meant<T>(m: map<Endpoint, T>, op: Op<T>): map<Endpoint, T> {
    match op
    case Saves(e, connection) => if e in m then m else m[e := connection]
    case Removes(e) => m - {e}
    case RemovesEach => map[]
  }

  function MeantAfter<T>(ops: seq<Op<T>>): map<Endpoint, T> {
    if ops == [] then map[] else Meant(MeantAfter(ops[..|ops| - 1]), ops[|ops| - 1])
  }

  ghost predicate Agrees<T>(r: Entries<T>, m: map<Endpoint, T>) {
    && Valid(r)
    && r.at.Keys == (set e | e in m :: Print(e))
    && (forall e :: e in m ==> r.at[Print(e)] == m[e])
  }

  /** Every key is the text of an endpoint. */
  ghost predicate Keyed<T>(r: Entries<T>) {
    Valid(r) && forall k :: k in r.at ==> exists e :: Print(e) == k
  }

  /** Every stored host can be parsed back from its key. */
  ghost predicate Plain<T>(m: map<Endpoint, T>) {
    forall e :: e in m ==> ':' !in e.host
  }

  lemma SaveAgrees<T>(r: Entries<T>, m: map<Endpoint, T>, e: Endpoint, connection: T)
    requires Agrees(r, m)
    ensures Agrees(Save(r, e, connection), Meant(m, Saves(e, connection)))
    ensures Print(e) in r.at <==> e in m
  {
    hide Print;
    if Print(e) in r.at {
      var d :| d in m && Print(d) == Print(e);
      PrintInjective(d, e);
    }
  }

  lemma RemoveKeyed<T>(r: Entries<T>, e: Endpoint)
    requires Keyed(r)
    ensures Keyed(Remove(r, e))
  {
    hide Print;
    WithoutDistinct(r.keys, Print(e));
  }

  lemma AgreesKeyed<T>(r: Entries<T>, m: map<Endpoint, T>)
    requires Agrees(r, m)
    ensures Keyed(r)
  {
    hide Print;
    forall k | k in r.at ensures exists e :: Print(e) == k {
      assert k in r.at.Keys;
    }
  }

  lemma RemoveAgrees<T>(r: Entries<T>, m: map<Endpoint, T>, e: Endpoint)
    requires Agrees(r, m)
    ensures Agrees(Remove(r, e), m - {e})
  {
    hide Print, Keyed, Without;
    AgreesKeyed(r, m);
    RemoveKeyed(r, e);
    KeyedValid(Remove(r, e));
    forall d | d in m && d != e ensures Print(d) != Print(e) {
      if Print(d) == Print(e) {
        PrintInjective(d, e);
      }
    }
    assert (set d | d in m - {e} :: Print(d)) == (set d | d in m :: Print(d)) - {Print(e)};
  }

  lemma KeyedValid<T>(r: Entries<T>)
    requires Keyed(r)
    ensures Valid(r)
  {
  }

  lemma {:induction false} WithoutDistinct(keys: seq<string>, key: string)
    requires forall i, j :: 0 <= i < j < |keys| ==> keys[i] != keys[j]
    ensures var rest := Without(keys, key); forall i, j :: 0 <= i < j < |rest| ==> rest[i] != rest[j]
    ensures keys != [] && key == keys[0] ==> Without(keys, key) == keys[1..]
  {
    if keys != [] {
      WithoutDistinct(keys[1..], key);
      assert keys[0] !in keys[1..];
      if key == keys[0] {
        NothingToDrop(keys[1..], key);
      }
    }
  }

  lemma {:induction false} NothingToDrop(keys: seq<string>, key: string)
    requires key !in keys
    ensures Without(keys, key) == keys
  {
    if keys != [] {
      NothingToDrop(keys[1..], key);
    }
  }

  /** What removeEach does with its first key. */
  lemma SweepFirst<T>(r: Entries<T>) returns (e: Endpoint)
    requires Keyed(r) && r.keys != []
    ensures Print(e) == r.keys[0] && r.keys[0] in r.at
    ensures ':' in e.host ==> RemoveEach(r) == Sweep(r, [], true)
    ensures ':' !in e.host ==>
      var rest := RemoveEach(Remove(r, e));
      && Remove(r, e).keys == r.keys[1..]
      && RemoveEach(r) == Sweep(rest.left, [r.at[r.keys[0]]] + rest.called, rest.threw)
  {
    hide Print, Parse;
    assert r.keys[0] in r.at;
    e :| Print(e) == r.keys[0];
    EndpointRoundTripIff(e);
    WithoutDistinct(r.keys, Print(e));
  }

  lemma FirstStored<T>(r: Entries<T>, m: map<Endpoint, T>, e: Endpoint)
    requires Agrees(r, m) && Print(e) in r.at
    ensures e in m
  {
    hide Print;
    assert Print(e) in r.at.Keys;
    var d :| d in m && Print(d) == Print(e);
    PrintInjective(d, e);
  }

  /** With plain hosts removeEach empties the registry and calls back once for each
      connection, in the order they were saved. */
  lemma {:induction false} RemoveEachEmpties<T>(r: Entries<T>, m: map<Endpoint, T>)
    requires Agrees(r, m) && Plain(m)
    ensures var o := RemoveEach(r);
      && o.left.keys == [] && o.left.at == map[] && !o.threw
      && |o.called| == |r.keys| && forall i :: 0 <= i < |r.keys| ==> o.called[i] == r.at[r.keys[i]]
    decreases |r.keys|
  {
    hide Print, Parse, SweepFrom, RemoveEach;
    if r.keys == [] {
      SweepNothing(r);
    } else {
      AgreesKeyed(r, m);
      var e := SweepFirst(r);
      FirstStored(r, m, e);
      RemoveAgrees(r, m, e);
      RemoveEachEmpties(Remove(r, e), m - {e});
      assert forall i :: 0 < i < |r.keys| ==> r.keys[i] == r.keys[1..][i - 1];
    }
  }

  lemma SweepNothing<T>(r: Entries<T>)
    requires r.keys == [] && Valid(r)
    ensures RemoveEach(r) == Sweep(r, [], false) && r.at == map[]
  {
    assert forall k :: k !in r.at;
  }

  /** With an IPv6 host stored it throws on the way, and that connection stays. */
  lemma {:induction false} RemoveEachThrows<T>(r: Entries<T>, m: map<Endpoint, T>, colon: Endpoint)
    requires Agrees(r, m) && colon in m && ':' in colon.host
    ensures RemoveEach(r).threw && Print(colon) in RemoveEach(r).left.at
    decreases |r.keys|
  {
    hide Print, Parse, SweepFrom, RemoveEach;
    assert Print(colon) in r.at;
    AgreesKeyed(r, m);
    var e := SweepFirst(r);
    if ':' !in e.host {
      RemoveAgrees(r, m, e);
      RemoveEachThrows(Remove(r, e), m - {e}, colon);
    }
  }

  /** The rest of the keys, and of the connections, is left. */
  ghost predicate LeavesRest<T>(r: Entries<T>, left: Entries<T>, k: nat) {
    && k <= |r.keys| && left.keys == r.keys[k..]
    && (forall key :: key in left.at <==> key in r.at && key !in r.keys[..k])
    && (forall key :: key in left.at ==> left.at[key] == r.at[key])
  }

  /** The first connections are called back, and the next key is why it went no further. */
  ghost predicate CallsFirst<T>(r: Entries<T>, called: seq<T>, threw: bool) {
    var k := |called|;
    && k <= |r.keys|
    && (forall i :: 0 <= i < k ==> Colons(r.keys[i]) == 1 && r.keys[i] in r.at && called[i] == r.at[r.keys[i]])
    && (threw <==> k < |r.keys|) && (threw ==> Colons(r.keys[k]) > 1)
  }

  lemma RestAfterFirst<T>(r: Entries<T>, r1: Entries<T>, left: Entries<T>, k: nat)
    requires r.keys != [] && r1.keys == r.keys[1..] && r1.at == r.at - {r.keys[0]} && LeavesRest(r1, left, k)
    ensures LeavesRest(r, left, k + 1)
  {
    assert r.keys[1..][k..] == r.keys[k + 1..];
    assert r.keys[..k + 1] == [r.keys[0]] + r.keys[1..][..k];
  }

  lemma CalledAfterFirst<T>(r: Entries<T>, r1: Entries<T>, called: seq<T>, threw: bool)
    requires r.keys != [] && r.keys[0] in r.at && Colons(r.keys[0]) == 1
    requires r1.keys == r.keys[1..] && r1.at == r.at - {r.keys[0]} && CallsFirst(r1, called, threw)
    ensures CallsFirst(r, [r.at[r.keys[0]]] + called, threw)
  {
    hide Colons;
    forall i | 1 <= i < |called| + 1
      ensures Colons(r.keys[i]) == 1 && r.keys[i] in r.at && called[i - 1] == r.at[r.keys[i]]
    {
      assert r.keys[i] == r1.keys[i - 1];
    }
  }

  lemma StopsAtOnce<T>(r: Entries<T>, threw: bool)
    requires (threw <==> r.keys != []) && (threw ==> Colons(r.keys[0]) > 1)
    ensures LeavesRest(r, r, 0) && CallsFirst(r, [], threw)
  {
  }

  lemma RemoveIs<T>(r: Entries<T>, e: Endpoint)
    ensures Remove(r, e).at == r.at - {Print(e)}
  {
  }

  /** How far removeEach comes: it calls back and removes the connections in the order of their
      keys, up to the first whose key has more than one ':', and throws there, if there is one. */
  lemma {:induction false} RemoveEachStops<T>(r: Entries<T>)
    requires Keyed(r)
    ensures var o := RemoveEach(r); LeavesRest(r, o.left, |o.called|) && CallsFirst(r, o.called, o.threw)
    decreases |r.keys|
  {
    hide *;
    if r.keys == [] {
      KeyedValid(r);
      SweepNothing(r);
      StopsAtOnce(r, false);
    } else {
      var e := SweepFirst(r);
      PrintColons(e);
      if ':' in e.host {
        StopsAtOnce(r, true);
      } else {
        var r1 := Remove(r, e);
        RemoveKeyed(r, e);
        RemoveEachStops(r1);
        RemoveIs(r, e);
        RestAfterFirst(r, r1, RemoveEach(r1).left, |RemoveEach(r1).called|);
        CalledAfterFirst(r, r1, RemoveEach(r1).called, RemoveEach(r1).threw);
      }
    }
  }

  lemma PrintColons(e: Endpoint)
    ensures Colons(Print(e)) == 1 <==> ':' !in e.host
    ensures Colons(Print(e)) >= 1
  {
    var port := IntText(e.port);
    NoColons(e.host);
    NoColons(port);
    ColonsAppend(e.host, ":" + port);
    assert e.host + (":" + port) == Print(e) && (":" + port)[1..] == port;
  }

  lemma ApplyAgreesIff<T>(r: Entries<T>, m: map<Endpoint, T>, op: Op<T>)
    requires Agrees(r, m)
    ensures Agrees(Apply(r, op), Meant(m, op)) <==> (op.RemovesEach? ==> Plain(m))
  {
    hide Print, RemoveEach, Save, Remove;
    match op
    case Saves(e, connection) => SaveAgrees(r, m, e, connection);
    case Removes(e) => RemoveAgrees(r, m, e);
    case RemovesEach =>
      if Plain(m) {
        RemoveEachEmpties(r, m);
      } else {
        var colon :| colon in m && ':' in colon.host;
        RemoveEachThrows(r, m, colon);
      }
  }

  /** removeEach is only called while every stored host is plain. */
  ghost predicate Sweepable<T>(ops: seq<Op<T>>) {
    forall k :: 0 <= k < |ops| && ops[k].RemovesEach? ==> Plain(MeantAfter(ops[..k]))
  }

  ghost predicate AlwaysAgrees<T>(ops: seq<Op<T>>) {
    forall k :: 0 <= k <= |ops| ==> Agrees(After(ops[..k]), MeantAfter(ops[..k]))
  }

  lemma AgreesLast<T>(ops: seq<Op<T>>)
    requires |ops| > 0
    ensures var init, last := ops[..|ops| - 1], ops[|ops| - 1];
      && (AlwaysAgrees(ops) <==> AlwaysAgrees(init) && Agrees(After(ops), MeantAfter(ops)))
      && (Sweepable(ops) <==> Sweepable(init) && (last.RemovesEach? ==> Plain(MeantAfter(init))))
  {
    hide After, MeantAfter, Agrees, Plain;
    var init := ops[..|ops| - 1];
    assert forall k :: 0 <= k <= |init| ==> ops[..k] == init[..k];
    assert ops[..|ops|] == ops;
  }

  /** For every sequence of operations: the registry keyed by text agrees at every moment with
      a map keyed by endpoint exactly when removeEach is never called with an IPv6 host stored. */
  lemma {:induction false} RegistryIsMapIff<T>(ops: seq<Op<T>>)
    ensures AlwaysAgrees(ops) <==> Sweepable(ops)
  {
    hide Agrees, Plain, Apply, Meant;
    if ops == [] {
      assert ops[..0] == [];
      NothingAgrees<T>();
    } else {
      var init := ops[..|ops| - 1];
      RegistryIsMapIff(init);
      AgreesLast(ops);
      if AlwaysAgrees(init) {
        assert init[..|init|] == init;
        ApplyAgreesIff(After(init), MeantAfter(init), ops[|init|]);
      }
    }
  }

  lemma NothingAgrees<T>()
    ensures Agrees<T>(Entries([], map[], 0), map[])
  {
  }

  // ----- the counter -----

  /** The operation deletes a stored connection. */
  ghost predicate Drops<T>(r: Entries<T>, op: Op<T>) {
    match op
    case Saves(_, _) => false
    case Removes(e) => Print(e) in r.at
    case RemovesEach => RemoveEach(r).called != []
  }

  ghost predicate NeverDrops<T>(ops: seq<Op<T>>) {
    forall k :: 0 <= k < |ops| ==> !Drops(After(ops[..k]), ops[k])
  }

  lemma {:induction false} SweepCounts<T>(r: Entries<T>)
    requires Keyed(r)
    ensures var o := RemoveEach(r);
      Keyed(o.left) && o.left.num == r.num && |o.left.at| + |o.called| == |r.at|
    decreases |r.keys|
  {
    hide Print, Parse, SweepFrom, RemoveEach, Keyed;
    KeyedValid(r);
    if r.keys == [] {
      SweepNothing(r);
    } else {
      var e := SweepFirst(r);
      if ':' !in e.host {
        RemoveKeyed(r, e);
        SweepCounts(Remove(r, e));
        assert r.at.Keys == (r.at - {Print(e)}).Keys + {Print(e)};
      }
    }
  }

  lemma SaveKeyed<T>(r: Entries<T>, e: Endpoint, connection: T)
    requires Keyed(r)
    ensures Keyed(Save(r, e, connection)) && Save(r, e, connection).num - |Save(r, e, connection).at| == r.num - |r.at|
  {
    hide Print;
  }

  lemma RemoveCounts<T>(r: Entries<T>, e: Endpoint)
    ensures Remove(r, e).num - |Remove(r, e).at| == r.num - |r.at| + if Print(e) in r.at then 1 else 0
  {
    hide Print;
    if Print(e) in r.at {
      assert r.at.Keys == (r.at - {Print(e)}).Keys + {Print(e)};
    } else {
      assert r.at - {Print(e)} == r.at;
    }
  }

  lemma ApplyCounts<T>(r: Entries<T>, op: Op<T>)
    requires Keyed(r)
    ensures var r' := Apply(r, op);
      Keyed(r') && if Drops(r, op) then r'.num - |r'.at| > r.num - |r.at| else r'.num - |r'.at| == r.num - |r.at|
  {
    hide Print, Keyed, Save, Remove, RemoveEach;
    match op
    case Saves(e, connection) => SaveKeyed(r, e, connection);
    case Removes(e) =>
      RemoveKeyed(r, e);
      RemoveCounts(r, e);
    case RemovesEach => SweepCounts(r);
  }

  lemma DropsLast<T>(ops: seq<Op<T>>)
    requires |ops| > 0
    ensures NeverDrops(ops) <==> NeverDrops(ops[..|ops| - 1]) && !Drops(After(ops[..|ops| - 1]), ops[|ops| - 1])
  {
    hide After, Drops;
    var init := ops[..|ops| - 1];
    assert forall k :: 0 <= k < |init| ==> ops[..k] == init[..k];
  }

  /** For every sequence of operations: count() is the number of stored connections exactly
      when none was ever removed; otherwise it stays too high for good. */
  lemma {:induction false} CountIsStoredIff<T>(ops: seq<Op<T>>)
    ensures var r := After(ops);
      Keyed(r) && r.num >= |r.at| && (r.num == |r.at| <==> NeverDrops(ops))
  {
    hide Keyed, Apply, Drops;
    if ops == [] {
      NothingAgrees<T>();
      AgreesKeyed<T>(Entries([], map[], 0), map[]);
    } else {
      CountIsStoredIff(ops[..|ops| - 1]);
      ApplyCounts(After(ops[..|ops| - 1]), ops[|ops| - 1]);
      DropsLast(ops);
    }
  }

  // ----- the order of the keys -----

  ghost predicate Before(keys: seq<string>, a: string, b: string) {
    exists i, j :: 0 <= i < j < |keys| && keys[i] == a && keys[j] == b
  }

  lemma BeforeTail(keys: seq<string>, a: string, b: string)
    requires keys != []
    ensures Before(keys, a, b) <==> Before(keys[1..], a, b) || (a == keys[0] && b in keys[1..])
  {
    if i, j :| 0 <= i < j < |keys| && keys[i] == a && keys[j] == b {
      assert keys[1..][j - 1] == b;
      assert i > 0 ==> keys[1..][i - 1] == a;
    }
    if i, j :| 0 <= i < j < |keys[1..]| && keys[1..][i] == a && keys[1..][j] == b {
      assert keys[i + 1] == a && keys[j + 1] == b;
    }
    if a == keys[0] && b in keys[1..] {
      var j :| 0 <= j < |keys[1..]| && keys[1..][j] == b;
      assert keys[j + 1] == b;
    }
  }

  lemma {:induction false} WithoutKeepsOrder(keys: seq<string>, key: string, a: string, b: string)
    requires Before(Without(keys, key), a, b)
    ensures Before(keys, a, b)
  {
    hide Before;
    if keys == [] {
      NothingBefore(a, b);
    } else {
      var rest := Without(keys[1..], key);
      BeforeTail(keys, a, b);
      if keys[0] == key || Before(rest, a, b) {
        WithoutKeepsOrder(keys[1..], key, a, b);
      } else {
        BeforeTail([keys[0]] + rest, a, b);
      }
    }
  }

  lemma NothingBefore(a: string, b: string)
    ensures !Before([], a, b)
  {
  }

  /** Every operation of every sequence keeps the order of the connections that stay, and puts a
      new one last, so that for..in visits them in the order they were saved. */
  lemma KeysInOrderSaved<T>(ops: seq<Op<T>>, op: Op<T>, a: string, b: string)
    requires Before(Apply(After(ops), op).keys, a, b)
    ensures Before(After(ops).keys, a, b) || b !in After(ops).keys
  {
    hide Print, Keyed, RemoveEach, After;
    var r, r' := After(ops), Apply(After(ops), op);
    match op
    case Saves(e, _) =>
      var i, j :| 0 <= i < j < |r'.keys| && r'.keys[i] == a && r'.keys[j] == b;
      CountIsStoredIff(ops);
      KeyedValid(r);
    case Removes(e) => WithoutKeepsOrder(r.keys, Print(e), a, b);
    case RemovesEach =>
      CountIsStoredIff(ops);
      RemoveEachStops(r);
      var k := |RemoveEach(r).called|;
      var i, j :| 0 <= i < j < |r'.keys| && r'.keys[i] == a && r'.keys[j] == b;
      assert r.keys[k + i] == a && r.keys[k + j] == b;
  }
}
