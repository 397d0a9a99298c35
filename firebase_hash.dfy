/** lib/firebase-hash.ts and lib/firebase-hash.js: the transaction hash a
    client sends with a conditional set. SHA-1 with base64 and the IEEE-754
    double-to-hex conversion are oracles; `Object.keys` order is an oracle
    too, and the sort makes it irrelevant. */
module FirebaseHash {
  import opened Wrappers
  import opened Js
  import opened KeyOrder

  /** `sha1(s).digest('base64')` and `convertToIEEE754Hex(n)`. */
  datatype Primitives = Primitives(digest: string -> string, doubleHex: real -> string)

  /** Base64 of a 20-byte SHA-1 digest is 28 characters. */
  ghost predicate DigestShape(hp: Primitives)
  {
    forall s :: |hp.digest(s)| == 28
  }

  /** `Object.keys(o)` enumerates each own key once, in some order. */
  type KeysOf = map<string, Json> -> seq<string>

  ghost predicate Enumerates(keysOf: KeysOf)
  {
    forall m :: Distinct(keysOf(m)) && Elems(keysOf(m)) == m.Keys
  }

  /** `String(v)`, for the values a template literal or `+` meets here;
      both callers render a number with doubleHex instead. */
  function JsString(v: Json): string
    requires !v.Num?
  {
    match v
    case Null => "null"
    case Bool(b) => BoolString(b)
    case Str(s) => s
    case Obj(_) => "[object Object]"
  }

  /** hashPriority: numbers by their big-endian double hex, anything else
      by its string form. */
  function HashPriority(priority: Json, hp: Primitives): (r: string)
    ensures priority.Num? ==> r == "number:" + hp.doubleHex(priority.n)
    ensures priority.Str? ==> r == "string:" + priority.s
  {
    if priority.Num? then "number:" + hp.doubleHex(priority.n) else "string:" + JsString(priority)
  }

  /** The prefix a truthy `.priority` adds; a falsy one (0, '', false)
      adds nothing. */
  function PriorityPart(value: Json, hp: Primitives): (r: string)
    ensures TruthyOpt(Field(value, ".priority")) ==> r == "priority:" + HashPriority(value.fields[".priority"], hp) + ":"
    ensures !TruthyOpt(Field(value, ".priority")) ==> r == ""
  {
    if TruthyOpt(Field(value, ".priority")) then "priority:" + HashPriority(value.fields[".priority"], hp) + ":" else ""
  }

  /** `if (value['.value']) value = value['.value']`. */
  function Unwrap(value: Json): (r: Json)
    ensures TruthyOpt(Field(value, ".value")) ==> r == value.fields[".value"]
    ensures !TruthyOpt(Field(value, ".value")) ==> r == value
  {
    if TruthyOpt(Field(value, ".value")) then value.fields[".value"] else value
  }

  /** For a value other than null, the value the key loop or the scalar
      encoding sees is not null either, so the TypeScript test `value &&
      typeof value === 'object'` and the JavaScript test `typeof value ===
      'object'` pick the same branch. */
  lemma BranchTestsAgree(value: Json)
    requires value != Null
    ensures (Truthy(Unwrap(value)) && TypeOf(Unwrap(value)) == "object") <==> TypeOf(Unwrap(value)) == "object"
    ensures TypeOf(Unwrap(value)) == "object" <==> Unwrap(value).Obj?
  {
  }

  /** The scalar encoding: `typeof value + ':'`, then the double hex of a
      number or the string form of anything else. */
  function ScalarPart(value: Json, hp: Primitives): (r: string)
    ensures value.Num? ==> r == "number:" + hp.doubleHex(value.n)
    ensures value.Bool? ==> r == "boolean:" + BoolString(value.b)
    ensures value.Str? ==> r == "string:" + value.s
  {
    TypeOf(value) + ":" + (if value.Num? then hp.doubleHex(value.n) else JsString(value))
  }

  /** Every finite set of keys has an enumeration without repeats. */
  lemma {:induction false} Enumerable(s: set<string>)
    ensures exists e :: Distinct(e) && Elems(e) == s
    decreases |s|
  {
    if s == {} {
      assert Distinct([]) && Elems([]) == s;
    } else {
      var x :| x in s;
      Enumerable(s - {x});
      var e :| Distinct(e) && Elems(e) == s - {x};
      assert Distinct([x] + e) && Elems([x] + e) == s;
    }
  }

  /** The keys in the order the sort leaves them, whatever order they were
      enumerated in. */
  ghost function SortedKeys(s: set<string>): (r: seq<string>)
    ensures StrictlySorted(r) && Elems(r) == s
  {
    Enumerable(s);
    var e :| Distinct(e) && Elems(e) == s;
    SortSorted(e);
    Sort(e)
  }

  /** Sorting any enumeration gives the canonical order. */
  lemma SortIsCanonical(e: seq<string>)
    requires Distinct(e)
    ensures Sort(e) == SortedKeys(Elems(e))
  {
    SortSorted(e);
    SortedUnique(Sort(e), SortedKeys(Elems(e)));
  }

  /** getFirebaseHash: '' for null, otherwise the digest of the
      pre-image. */
  ghost function Hash(value: Json, hp: Primitives): (r: string)
    ensures value == Null ==> r == ""
    ensures value != Null ==> r == hp.digest(PreImage(value, hp))
    decreases value, 2
  {
    if value == Null then "" else hp.digest(PreImage(value, hp))
  }

  /** The string fed to SHA-1: the priority prefix, then the key terms of
      an object or the scalar encoding of anything else. */
  ghost function PreImage(value: Json, hp: Primitives): (r: string)
    decreases value, 1
  {
    var u := Unwrap(value);
    PriorityPart(value, hp)
      + if u.Obj? then Terms(u, SortedKeys(u.fields.Keys), hp) else ScalarPart(u, hp)
  }

  /** `':' + key + ':' + getFirebaseHash(value[key])` over the keys in
      order, `.priority` skipped. */
  ghost function Terms(u: Json, keys: seq<string>, hp: Primitives): (r: string)
    requires u.Obj? && forall k :: k in keys ==> k in u.fields
    decreases u, 0, |keys|
  {
    if keys == [] then ""
    else
      var k := keys[|keys| - 1];
      Terms(u, keys[..|keys| - 1], hp)
        + if k == ".priority" then "" else ":" + k + ":" + Hash(u.fields[k], hp)
  }

  /** One more key adds its term at the end. */
  lemma TermsSnoc(u: Json, keys: seq<string>, i: nat, hp: Primitives)
    requires u.Obj? && forall k :: k in keys ==> k in u.fields
    requires i < |keys|
    ensures Terms(u, keys[..i + 1], hp) == Terms(u, keys[..i], hp)
      + if keys[i] == ".priority" then "" else ":" + keys[i] + ":" + Hash(u.fields[keys[i]], hp)
  {
    assert keys[..i + 1][..i] == keys[..i];
  }

  /** Only null hashes to the empty string: every other value is digested,
      and a digest has 28 characters. */
  lemma EmptyOnlyForNull(value: Json, hp: Primitives)
    requires DigestShape(hp)
    ensures Hash(value, hp) == "" <==> value == Null
  {
    if value != Null {
      assert |hp.digest(PreImage(value, hp))| == 28;
    }
  }

  /** The getFirebaseHash of the source: the priority prefix, the unwrap,
      then the key loop or the scalar encoding, and the digest. */
  method GetFirebaseHash(value: Json, hp: Primitives, keysOf: KeysOf) returns (hash: string)
    requires Enumerates(keysOf)
    ensures hash == Hash(value, hp)
    decreases value, 1
  {
    if value == Null {
      return "";
    }
    var u := Unwrap(value);
    var body;
    if u.Obj? {
      body := KeyTerms(u, hp, keysOf);
    } else {
      body := ScalarPart(u, hp);
    }
    hash := hp.digest(PriorityPart(value, hp) + body);
  }

  /** The loop over `Object.keys(value).sort()`, recursing into each child
      but `.priority`. */
  method KeyTerms(u: Json, hp: Primitives, keysOf: KeysOf) returns (terms: string)
    requires Enumerates(keysOf) && u.Obj?
    ensures terms == Terms(u, SortedKeys(u.fields.Keys), hp)
    decreases u, 0
  {
    var keys := Sort(keysOf(u.fields));
    SortIsCanonical(keysOf(u.fields));
    assert Elems(keysOf(u.fields)) == u.fields.Keys;
    terms := "";
    var i := 0;
    while i < |keys|
      invariant 0 <= i <= |keys|
      invariant forall k :: k in keys ==> k in u.fields
      invariant terms == Terms(u, keys[..i], hp)
    {
      var k := keys[i];
      TermsSnoc(u, keys, i, hp);
      if k != ".priority" {
        var child := GetFirebaseHash(u.fields[k], hp, keysOf);
        terms := terms + (":" + k + ":" + child);
      }
      i := i + 1;
    }
    assert keys[..|keys|] == keys;
  }

  /** The pre-images behind the unit tests' vectors. */
  lemma BooleanVectors(hp: Primitives)
    ensures PreImage(Bool(true), hp) == "boolean:true"
    ensures PreImage(Bool(false), hp) == "boolean:false"
  {
    ScalarPreImage(Bool(true), hp);
    ScalarPreImage(Bool(false), hp);
  }

  lemma NumberVector(hp: Primitives)
    ensures PreImage(Num(500.0), hp) == "number:" + hp.doubleHex(500.0)
  {
    ScalarPreImage(Num(500.0), hp);
  }

  lemma StringVector(hp: Primitives)
    ensures PreImage(Str("Hello World"), hp) == "string:Hello World"
  {
    ScalarPreImage(Str("Hello World"), hp);
  }

  /** A value that is not an object is encoded by its scalar part alone. */
  lemma ScalarPreImage(v: Json, hp: Primitives)
    requires !v.Obj?
    ensures PreImage(v, hp) == ScalarPart(v, hp)
  {
  }

  /** `{'.priority': 200, '.value': 'primitive'}`: the prefix, then the
      unwrapped scalar. */
  lemma NumericPriorityVector(hp: Primitives)
    ensures PreImage(Obj(map[".priority" := Num(200.0), ".value" := Str("primitive")]), hp)
      == "priority:number:" + hp.doubleHex(200.0) + ":" + "string:primitive"
  {
    var v := Obj(map[".priority" := Num(200.0), ".value" := Str("primitive")]);
    assert Field(v, ".priority") == Some(Num(200.0));
    assert Unwrap(v) == Str("primitive");
    assert PriorityPart(v, hp) == "priority:number:" + hp.doubleHex(200.0) + ":";
    assert ScalarPart(Str("primitive"), hp) == "string:primitive";
  }

  /** `{'.priority': 'high', '.value': 42}`. */
  lemma StringPriorityVector(hp: Primitives)
    ensures PreImage(Obj(map[".priority" := Str("high"), ".value" := Num(42.0)]), hp)
      == "priority:string:high:" + "number:" + hp.doubleHex(42.0)
  {
    var v := Obj(map[".priority" := Str("high"), ".value" := Num(42.0)]);
    assert Field(v, ".priority") == Some(Str("high"));
    assert Unwrap(v) == Num(42.0);
    assert PriorityPart(v, hp) == "priority:string:high:";
    assert ScalarPart(Num(42.0), hp) == "number:" + hp.doubleHex(42.0);
  }

  /** The canonical order of a one-key object. */
  lemma OneKey(k: string)
    ensures SortedKeys({k}) == [k]
  {
    assert Elems([k]) == {k};
    SortedUnique(SortedKeys({k}), [k]);
  }

  /** `{foo: 'bar'}`: one key term carrying the child's digest. */
  lemma SingleKeyVector(hp: Primitives)
    ensures PreImage(Obj(map["foo" := Str("bar")]), hp) == ":foo:" + hp.digest("string:bar")
  {
    var v := Obj(map["foo" := Str("bar")]);
    assert v.fields.Keys == {"foo"};
    OneKey("foo");
    assert Unwrap(v) == v && PriorityPart(v, hp) == "";
    assert PreImage(Str("bar"), hp) == "string:bar";
    assert Terms(v, ["foo"], hp) == Terms(v, [], hp) + ":foo:" + Hash(Str("bar"), hp);
  }

  /** A null child contributes `':key:'`, its hash being empty. */
  lemma NullChildTerm(hp: Primitives)
    ensures PreImage(Obj(map["a" := Null]), hp) == ":a:"
  {
    var v := Obj(map["a" := Null]);
    assert v.fields.Keys == {"a"};
    OneKey("a");
    assert Unwrap(v) == v && PriorityPart(v, hp) == "";
    assert Terms(v, ["a"], hp) == Terms(v, [], hp) + ":a:" + Hash(Null, hp);
  }

  /** `.priority` sorts before `someKey` ('.' is below 's'). */
  lemma PriorityKeyFirst()
    ensures SortedKeys({".priority", "someKey"}) == [".priority", "someKey"]
  {
    var ks := [".priority", "someKey"];
    assert StrLt(ks[0], ks[1]);
    assert Elems(ks) == {".priority", "someKey"};
    SortedUnique(SortedKeys({".priority", "someKey"}), ks);
  }

  /** Behind `.priority`, a second key contributes the only term. */
  lemma PriorityThenKey(u: Json, k: string, hp: Primitives)
    requires u.Obj? && ".priority" in u.fields && k in u.fields && k != ".priority"
    ensures Terms(u, [".priority", k], hp) == ":" + k + ":" + Hash(u.fields[k], hp)
  {
    var ks := [".priority", k];
    var first := [".priority"];
    assert first[..0] == [];
    assert Terms(u, first, hp) == "";
    assert ks[..1] == first && ks[1] == k;
  }

  lemma PriorityObjectTerms(v: Json, hp: Primitives)
    requires v == Obj(map[".priority" := Str("high"), "someKey" := Str("value")])
    ensures Terms(v, [".priority", "someKey"], hp) == ":someKey:" + hp.digest("string:value")
  {
    assert v.fields["someKey"] == Str("value");
    assert Hash(Str("value"), hp) == hp.digest("string:value") by {
      assert PreImage(Str("value"), hp) == "string:value";
    }
    PriorityThenKey(v, "someKey", hp);
  }

  lemma PriorityObjectPrefix(v: Json, hp: Primitives)
    requires v == Obj(map[".priority" := Str("high"), "someKey" := Str("value")])
    ensures Unwrap(v) == v && PriorityPart(v, hp) == "priority:string:high:"
  {
    assert Field(v, ".value").None?;
  }

  /** `{'.priority': 'high', someKey: 'value'}`: the prefix, and the
      `.priority` key is skipped among the terms. */
  lemma PriorityObjectVector(v: Json, hp: Primitives)
    requires v == Obj(map[".priority" := Str("high"), "someKey" := Str("value")])
    ensures PreImage(v, hp) == "priority:string:high:" + (":someKey:" + hp.digest("string:value"))
  {
    var ks := [".priority", "someKey"];
    assert SortedKeys(v.fields.Keys) == ks by {
      assert v.fields.Keys == {".priority", "someKey"};
      PriorityKeyFirst();
    }
    PriorityObjectTerms(v, hp);
    PriorityObjectPrefix(v, hp);
    ObjectPreImageIs(v, hp, ks, "priority:string:high:", ":someKey:" + hp.digest("string:value"));
  }

  lemma ObjectPreImageIs(v: Json, hp: Primitives, ks: seq<string>, prefix: string, terms: string)
    requires v.Obj? && Unwrap(v) == v
    requires SortedKeys(v.fields.Keys) == ks && (forall k :: k in ks ==> k in v.fields)
    requires PriorityPart(v, hp) == prefix && Terms(v, ks, hp) == terms
    ensures PreImage(v, hp) == prefix + terms
  {
  }
}
