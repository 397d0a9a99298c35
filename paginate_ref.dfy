/** lib/paginate-ref.ts: the query object a listen carries (`d.b.q`) turned
    into Firebase query directives, one per recognised key, in
    `Object.keys` order. */
module Paginate {
  import opened Wrappers
  import opened Js
  import opened Refs

  /** The directive one key of the query adds, if any. */
  function DirectiveFor(q: map<string, Json>, key: string): (r: Option<Directive>)
    requires key in q
    ensures r.None? <==> key !in {"sp", "ep", "i", "l"}
    ensures key == "sp" ==> r == Some(StartAt(q[key], if TruthyOpt(Field(Obj(q), "sn")) then Some(q["sn"]) else None))
    ensures key == "ep" ==> r == Some(EndAt(q[key], if TruthyOpt(Field(Obj(q), "en")) then Some(q["en"]) else None))
    ensures key == "i" ==>
      (r == Some(OrderByKey) <==> q[key] == Str(".key"))
      && (r == Some(OrderByValue) <==> q[key] == Str(".value"))
      && (q[key] != Str(".key") && q[key] != Str(".value") ==> r == Some(OrderByChild(q[key])))
    ensures key == "l" ==>
      (StrictEquals(Field(Obj(q), "vf"), Some(Str("l"))) ==> r == Some(LimitToFirst(q[key])))
      && (!StrictEquals(Field(Obj(q), "vf"), Some(Str("l"))) ==> r == Some(LimitToLast(q[key])))
  {
    var value := q[key];
    if key == "sp" then
      Some(StartAt(value, if TruthyOpt(Field(Obj(q), "sn")) then Some(q["sn"]) else None))
    else if key == "ep" then
      Some(EndAt(value, if TruthyOpt(Field(Obj(q), "en")) then Some(q["en"]) else None))
    else if key == "i" then
      if value == Str(".key") then Some(OrderByKey)
      else if value == Str(".value") then Some(OrderByValue)
      else Some(OrderByChild(value))
    else if key == "l" then
      if StrictEquals(Field(Obj(q), "vf"), Some(Str("l"))) then Some(LimitToFirst(value)) else Some(LimitToLast(value))
    else None
  }

  /** The directives the keys add, in the keys' order. */
  function Translate(q: map<string, Json>, keys: seq<string>): (r: seq<Directive>)
    requires forall k :: k in keys ==> k in q
    ensures |r| <= |keys|
  {
    if keys == [] then []
    else
      var last := keys[|keys| - 1];
      Translate(q, keys[..|keys| - 1])
        + match DirectiveFor(q, last) case Some(d) => [d] case None => []
  }

  /** paginateRef(ref, q): a falsy `q` (and a primitive one, whose keys
      none of the names match) leaves the reference as it is; otherwise
      each key, in `Object.keys` order, refines the reference the previous
      one produced. */
  method PaginateRef(ref: Ref, q: Option<Json>, keysOf: map<string, Json> -> seq<string>) returns (r: Ref)
    requires q.Some? && q.value.Obj? ==> forall k :: k in keysOf(q.value.fields) ==> k in q.value.fields
    ensures !(q.Some? && q.value.Obj?) ==> r == ref
    ensures q.Some? && q.value.Obj? ==>
      r == Ref(ref.location, ref.directives + Translate(q.value.fields, keysOf(q.value.fields)))
  {
    r := ref;
    if TruthyOpt(q) && q.value.Obj? {
      var fields := q.value.fields;
      var keys := keysOf(fields);
      var i := 0;
      while i < |keys|
        invariant 0 <= i <= |keys|
        invariant r == Ref(ref.location, ref.directives + Translate(fields, keys[..i]))
      {
        assert keys[..i + 1][..i] == keys[..i];
        match DirectiveFor(fields, keys[i]) {
          case Some(d) =>
            r := Ref(r.location, r.directives + [d]);
          case None =>
        }
        i := i + 1;
      }
      assert keys[..|keys|] == keys;
    }
  }

  /** Keys without a directive of their own, standalone `sn`, `en` and
      `vf` among them, contribute nothing. */
  lemma {:induction false} OnlyRecognisedKeysCount(q: map<string, Json>, keys: seq<string>)
    requires forall k :: k in keys ==> k in q
    requires forall k :: k in keys ==> k !in {"sp", "ep", "i", "l"}
    ensures Translate(q, keys) == []
  {
    if keys != [] {
      var init := keys[..|keys| - 1];
      assert forall k :: k in init ==> k in keys;
      OnlyRecognisedKeysCount(q, init);
      assert keys[|keys| - 1] in keys;
    }
  }

  /** One directive per recognised key: the count is the number of keys
      among `sp`, `ep`, `i` and `l`. */
  lemma {:induction false} DirectiveCount(q: map<string, Json>, keys: seq<string>)
    requires forall k :: k in keys ==> k in q
    ensures |Translate(q, keys)| == |RecognisedKeys(keys)|
  {
    if keys != [] {
      var init := keys[..|keys| - 1];
      assert forall k :: k in init ==> k in keys;
      DirectiveCount(q, init);
    }
  }

  function RecognisedKeys(keys: seq<string>): (r: seq<string>)
    ensures forall k :: k in r ==> k in keys && k in {"sp", "ep", "i", "l"}
  {
    if keys == [] then []
    else
      RecognisedKeys(keys[..|keys| - 1])
        + if keys[|keys| - 1] in {"sp", "ep", "i", "l"} then [keys[|keys| - 1]] else []
  }

  /** A query as a listen sends it: a start bound with a name, a limit
      from the start, and key order. */
  lemma TranslateVector(q: map<string, Json>)
    requires q == map["sp" := Num(5.0), "sn" := Str("k"), "l" := Num(10.0), "vf" := Str("l"), "i" := Str(".key")]
    ensures Translate(q, ["sp", "sn", "l", "vf", "i"])
      == [StartAt(Num(5.0), Some(Str("k"))), LimitToFirst(Num(10.0)), OrderByKey]
  {
    var keys := ["sp", "sn", "l", "vf", "i"];
    assert keys[..4] == ["sp", "sn", "l", "vf"];
    assert keys[..4][..3] == ["sp", "sn", "l"];
    assert keys[..4][..3][..2] == ["sp", "sn"];
    assert keys[..4][..3][..2][..1] == ["sp"];
    assert keys[..4][..3][..2][..1][..0] == [];
    assert Translate(q, ["sp"]) == [StartAt(Num(5.0), Some(Str("k")))];
    assert Translate(q, ["sp", "sn"]) == [StartAt(Num(5.0), Some(Str("k")))];
    assert Translate(q, ["sp", "sn", "l"]) == [StartAt(Num(5.0), Some(Str("k"))), LimitToFirst(Num(10.0))];
    assert Translate(q, ["sp", "sn", "l", "vf"]) == [StartAt(Num(5.0), Some(Str("k"))), LimitToFirst(Num(10.0))];
  }

  /** Without `vf: "l"` a limit counts from the end, and an `i` naming a
      child orders by that child. */
  lemma LimitToLastVector(q: map<string, Json>)
    requires q == map["l" := Num(3.0), "i" := Str("score")]
    ensures Translate(q, ["l", "i"]) == [LimitToLast(Num(3.0)), OrderByChild(Str("score"))]
  {
    var keys := ["l", "i"];
    assert keys[..1] == ["l"];
    assert keys[..1][..0] == [];
  }
}
