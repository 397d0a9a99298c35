/** Server-timestamp substitution: every sub-value deep-equal to the sentinel
    `{".sv": "timestamp"}` is replaced by one clock reading.
    lib/replace-server-timestamp.js memoises the reading in a closure;
    index.ts passes the reading in. */
module ServerTimestamp {
  import opened Wrappers
  import opened Js

  /** `TIMESTAMP`, also firebase.database.ServerValue.TIMESTAMP. */
  const TIMESTAMP: Json := Obj(map[".sv" := Str("timestamp")])

  /** The value is, or contains below some object key, the sentinel. */
  predicate HasSentinel(v: Json)
  {
    v == TIMESTAMP || (v.Obj? && exists k :: k in v.fields && HasSentinel(v.fields[k]))
  }

  /** The value with every sentinel replaced by `Num(t)`: index.ts's
      `replaceServerTimestamp(value, data)`, and the value the legacy walk
      returns once its memoised reading is `t`. */
  function Substitute(v: Json, t: real): (r: Json)
    ensures v == TIMESTAMP ==> r == Num(t)
    ensures v != TIMESTAMP && v.Obj? ==> r.Obj? && r.fields.Keys == v.fields.Keys
    ensures !v.Obj? ==> r == v
  {
    if v == TIMESTAMP then Num(t)
    else if v.Obj? then Obj(map k | k in v.fields :: Substitute(v.fields[k], t))
    else v
  }

  /** A value without a sentinel comes back unchanged. */
  lemma {:induction false} NoSentinelUnchanged(v: Json, t: real)
    requires !HasSentinel(v)
    ensures Substitute(v, t) == v
  {
    if v.Obj? {
      forall k | k in v.fields
        ensures Substitute(v, t).fields[k] == v.fields[k]
      {
        NoSentinelUnchanged(v.fields[k], t);
      }
      assert Substitute(v, t).fields == v.fields;
    }
  }

  /** No sentinel survives a substitution. */
  lemma {:induction false} NoSentinelLeft(v: Json, t: real)
    ensures !HasSentinel(Substitute(v, t))
  {
    if v != TIMESTAMP && v.Obj? {
      var r := Substitute(v, t);
      assert r != TIMESTAMP by {
        if v.fields.Keys == {".sv"} {
          assert r.fields[".sv"] == Substitute(v.fields[".sv"], t);
          assert v.fields[".sv"] != Str("timestamp") by {
            assert v.fields == map[".sv" := v.fields[".sv"]];
          }
        } else {
          assert r.fields.Keys != TIMESTAMP.fields.Keys;
        }
      }
      forall k | k in r.fields
        ensures !HasSentinel(r.fields[k])
      {
        NoSentinelLeft(v.fields[k], t);
      }
    }
  }

  /** Substitution is idempotent: once substituted, a second pass, with any
      reading, changes nothing. */
  lemma SubstituteIdempotent(v: Json, t: real, t2: real)
    ensures Substitute(Substitute(v, t), t2) == Substitute(v, t)
  {
    NoSentinelLeft(v, t);
    NoSentinelUnchanged(Substitute(v, t), t2);
  }

  /** The unit-test examples with a reading of 100 and of 200. */
  lemma SubstituteVectors()
    ensures Substitute(TIMESTAMP, 2000.0) == Num(2000.0)
    ensures Substitute(Obj(map["foo" := TIMESTAMP, "bar" := Str("baz")]), 100.0)
      == Obj(map["foo" := Num(100.0), "bar" := Str("baz")])
    ensures Substitute(Obj(map["foo" := TIMESTAMP, "bar" := TIMESTAMP]), 200.0)
      == Obj(map["foo" := Num(200.0), "bar" := Num(200.0)])
    ensures Substitute(Obj(map["foo" := TIMESTAMP, "bar" := Obj(map["baz" := TIMESTAMP])]), 7.0)
      == Obj(map["foo" := Num(7.0), "bar" := Obj(map["baz" := Num(7.0)])])
  {
    SubstituteFields("foo", TIMESTAMP, "bar", Str("baz"), 100.0);
    SubstituteFields("foo", TIMESTAMP, "bar", TIMESTAMP, 200.0);
    var inner := map["baz" := TIMESTAMP];
    assert Obj(inner) != TIMESTAMP by { assert "baz" in inner; }
    assert Substitute(Obj(inner), 7.0).fields == map["baz" := Num(7.0)];
    SubstituteFields("foo", TIMESTAMP, "bar", Obj(inner), 7.0);
  }

  /** An object with two keys is never the sentinel, so each value is
      replaced on its own. */
  lemma SubstituteFields(k1: string, v1: Json, k2: string, v2: Json, t: real)
    requires k1 != k2
    ensures Substitute(Obj(map[k1 := v1, k2 := v2]), t) == Obj(map[k1 := Substitute(v1, t), k2 := Substitute(v2, t)])
  {
    var m := map[k1 := v1, k2 := v2];
    assert Obj(m) != TIMESTAMP by { assert k1 in m && k2 in m; }
    assert Substitute(Obj(m), t).fields == map[k1 := Substitute(v1, t), k2 := Substitute(v2, t)];
  }

  /** The replacement on a payload that may be undefined (a message
      without `d`), which both generations return as it is. */
  function SubstituteOpt(data: Option<Json>, now: real): (r: Option<Json>)
    ensures r.Some? <==> data.Some?
    ensures data.Some? && !HasSentinel(data.value) ==> r == data
    ensures r.Some? ==> !HasSentinel(r.value)
  {
    match data
    case None => None
    case Some(v) =>
      NoSentinelLeft(v, now);
      if HasSentinel(v) then Some(Substitute(v, now))
      else NoSentinelUnchanged(v, now); Some(Substitute(v, now))
  }

  /** The `clock` function handed to the legacy replace: each call returns
      the next of its readings. */
  class CallClock {
    const readings: nat -> real
    var calls: nat

    constructor (readings: nat -> real)
      ensures this.readings == readings && calls == 0
    {
      this.readings := readings;
      calls := 0;
    }

    /** `clock()`. */
    method Call() returns (t: real)
      modifies this
      ensures calls == old(calls) + 1
      ensures t == readings(old(calls))
    {
      t := readings(calls);
      calls := calls + 1;
    }
  }

  /** The exported replace of lib/replace-server-timestamp.js: the clock is
      called once when the payload holds a sentinel, at the first one met,
      and never otherwise; every sentinel receives that one reading. */
  method Replace(root: Json, clock: CallClock) returns (r: Json)
    modifies clock
    ensures HasSentinel(root) ==> (clock.calls == old(clock.calls) + 1
      && r == Substitute(root, clock.readings(old(clock.calls))))
    ensures !HasSentinel(root) ==> clock.calls == old(clock.calls) && r == root
  {
    var called, time;
    r, called, time := Walk(root, clock, false, 0.0);
  }

  /** `replaceServerTimestamp(data)` with the closure's `called` and `time`
      passed in and handed back. */
  method Walk(data: Json, clock: CallClock, called: bool, time: real)
    returns (r: Json, called2: bool, time2: real)
    modifies clock
    decreases data
    ensures called ==> (called2 && time2 == time && clock.calls == old(clock.calls)
      && r == Substitute(data, time))
    ensures !called && HasSentinel(data) ==> (called2 && clock.calls == old(clock.calls) + 1
      && time2 == clock.readings(old(clock.calls)) && r == Substitute(data, time2))
    ensures !called && !HasSentinel(data) ==> (!called2 && time2 == time
      && clock.calls == old(clock.calls) && r == data)
  {
    if data == TIMESTAMP {
      called2, time2 := called, time;
      if !called2 {
        called2 := true;
        time2 := clock.Call();
      }
      r := Num(time2);
    } else if data.Obj? {
      ghost var calls0 := clock.calls;
      called2, time2 := called, time;
      var keys := data.fields.Keys;
      var out: map<string, Json> := map[];
      while keys != {}
        invariant keys <= data.fields.Keys
        invariant out.Keys == data.fields.Keys - keys
        invariant called ==> called2 && time2 == time && clock.calls == calls0
        invariant !called && called2 ==> clock.calls == calls0 + 1 && time2 == clock.readings(calls0)
        invariant !called2 ==> clock.calls == calls0 && time2 == time
        invariant !called ==> (called2 <==> exists k :: k in out && HasSentinel(data.fields[k]))
        invariant called2 ==> forall k :: k in out ==> out[k] == Substitute(data.fields[k], time2)
        invariant !called2 ==> forall k :: k in out ==> out[k] == data.fields[k] && !HasSentinel(data.fields[k])
        decreases keys
      {
        var k :| k in keys;
        var child, c2, t2 := Walk(data.fields[k], clock, called2, time2);
        if !called2 && c2 {
          forall j | j in out
            ensures out[j] == Substitute(data.fields[j], t2)
          {
            NoSentinelUnchanged(data.fields[j], t2);
          }
        }
        out := out[k := child];
        called2, time2 := c2, t2;
        keys := keys - {k};
      }
      if called2 {
        assert out == Substitute(data, time2).fields;
      } else {
        assert out == data.fields;
      }
      r := Obj(out);
    } else {
      r, called2, time2 := data, called, time;
    }
  }

  /** Each top-level call starts with a fresh memo: two replaces of payloads
      holding sentinels read the clock twice, and each result carries its
      own reading (100 then 200 in the unit test's clock). */
  method ReplaceTwice(a: Json, b: Json, clock: CallClock) returns (ra: Json, rb: Json)
    requires HasSentinel(a) && HasSentinel(b)
    modifies clock
    ensures clock.calls == old(clock.calls) + 2
    ensures ra == Substitute(a, clock.readings(old(clock.calls)))
    ensures rb == Substitute(b, clock.readings(old(clock.calls) + 1))
  {
    ra := Replace(a, clock);
    rb := Replace(b, clock);
  }
}
