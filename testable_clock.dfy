/** lib/testable-clock.js: a clock whose source is a fixed number, a
    function, another testable clock, or (when falsy) the system time.
    Clocks live in a registry and refer to one another by index, so that a
    proxy chain can be followed, and a cycle detected, without aliasing. */
module TestableClock {
  import opened Wrappers
  import opened Js

  /** `invalidTime()`'s Error, and the RangeError of a clock that proxies
      itself, directly or through others. */
  datatype ClockError = InvalidTime | StackOverflow

  /** What a reading sees of the outside world at that moment: the system
      time and what each plain function source returns. */
  datatype Env = Env(systemTime: real, delegate: nat -> real)

  /** validateTime: a truthy source must be a function, a number or a clock. */
  predicate Acceptable(time: JsArg)
  {
    !TruthyArg(time) || time.Function? || time.ClockRef? || (time.Val? && time.v.Num?)
  }

  /** Every proxy names a clock of the registry. */
  predicate ClosedRefs(sources: seq<JsArg>)
  {
    forall i :: 0 <= i < |sources| && sources[i].ClockRef? ==> sources[i].c < |sources|
  }

  /** getTime of clock `id`, following at most `fuel` proxies. */
  function ReadClock(sources: seq<JsArg>, id: nat, env: Env, fuel: nat): (r: Result<real, ClockError>)
    requires ClosedRefs(sources) && id < |sources|
    decreases fuel
  {
    match sources[id]
    case Function(f) => Ok(env.delegate(f))
    case ClockRef(c) => if fuel == 0 then Err(StackOverflow) else ReadClock(sources, c, env, fuel - 1)
    case Val(Num(n)) => Ok(n)
    case _ => if !TruthyArg(sources[id]) then Ok(env.systemTime) else Err(InvalidTime)
  }

  /** A reading that completes with some fuel completes, with the same
      result, with more. */
  lemma {:induction false} FuelMonotone(sources: seq<JsArg>, id: nat, env: Env, fuel: nat, more: nat)
    requires ClosedRefs(sources) && id < |sources|
    requires fuel <= more
    requires ReadClock(sources, id, env, fuel).Ok?
    ensures ReadClock(sources, id, env, more) == ReadClock(sources, id, env, fuel)
    decreases fuel
  {
    if sources[id].ClockRef? {
      FuelMonotone(sources, sources[id].c, env, fuel - 1, more - 1);
    }
  }

  /** A clock set to itself overflows the stack whatever the depth allowed. */
  lemma {:induction false} SelfProxyOverflows(sources: seq<JsArg>, id: nat, env: Env, fuel: nat)
    requires ClosedRefs(sources) && id < |sources|
    requires sources[id] == ClockRef(id)
    ensures ReadClock(sources, id, env, fuel) == Err(StackOverflow)
  {
    if fuel > 0 {
      SelfProxyOverflows(sources, id, env, fuel - 1);
    }
  }

  /** Sources that validateTime accepted never make getTime throw
      InvalidTime. */
  lemma {:induction false} AcceptedNeverInvalid(sources: seq<JsArg>, id: nat, env: Env, fuel: nat)
    requires ClosedRefs(sources) && id < |sources|
    requires forall i :: 0 <= i < |sources| ==> Acceptable(sources[i])
    ensures ReadClock(sources, id, env, fuel) != Err(InvalidTime)
    decreases fuel
  {
    if sources[id].ClockRef? && fuel > 0 {
      AcceptedNeverInvalid(sources, sources[id].c, env, fuel - 1);
    }
  }

  /** What a reading with one hop per clock yields, in terms of the
      clock's own source. */
  lemma ReadingFacts(sources: seq<JsArg>, id: nat, env: Env)
    requires ClosedRefs(sources) && id < |sources|
    requires forall i :: 0 <= i < |sources| ==> Acceptable(sources[i])
    ensures var r := ReadClock(sources, id, env, |sources|);
      && (sources[id].ClockRef? && r.Ok? ==> r == ReadClock(sources, sources[id].c, env, |sources|))
      && (sources[id] == ClockRef(id) ==> r == Err(StackOverflow))
      && r != Err(InvalidTime)
  {
    var r := ReadClock(sources, id, env, |sources|);
    if sources[id].ClockRef? && r.Ok? {
      FuelMonotone(sources, sources[id].c, env, |sources| - 1, |sources|);
    }
    if sources[id] == ClockRef(id) {
      SelfProxyOverflows(sources, id, env, |sources|);
    }
    AcceptedNeverInvalid(sources, id, env, |sources|);
  }

  /** The registry of testable clocks; clock `i`'s closure variable `time`
      is `sources[i]`. */
  class Clocks {
    var sources: seq<JsArg>

    ghost predicate Valid()
      reads this
    {
      ClosedRefs(sources) && forall i :: 0 <= i < |sources| ==> Acceptable(sources[i])
    }

    constructor ()
      ensures Valid() && sources == []
    {
      sources := [];
    }

    /** `new TestableClock(time)`: validated first, so a bad source throws
        and no clock is made. */
    method NewClock(time: JsArg) returns (r: Result<nat, ClockError>)
      requires Valid()
      requires time.ClockRef? ==> time.c < |sources|
      modifies this
      ensures Valid()
      ensures Acceptable(time) ==> r == Ok(|old(sources)|) && sources == old(sources) + [time]
      ensures !Acceptable(time) ==> r == Err(InvalidTime) && sources == old(sources)
    {
      if !Acceptable(time) {
        return Err(InvalidTime);
      }
      r := Ok(|sources|);
      sources := sources + [time];
    }

    /** `clock.setTime(newTime)`: validation precedes the assignment, so a
        rejected source leaves the old one in place. */
    method SetTime(id: nat, newTime: JsArg) returns (r: Result<(), ClockError>)
      requires Valid() && id < |sources|
      requires newTime.ClockRef? ==> newTime.c < |sources|
      modifies this
      ensures Valid()
      ensures Acceptable(newTime) ==> r == Ok(()) && sources == old(sources)[id := newTime]
      ensures !Acceptable(newTime) ==> r == Err(InvalidTime) && sources == old(sources)
    {
      if !Acceptable(newTime) {
        return Err(InvalidTime);
      }
      sources := sources[id := newTime];
      r := Ok(());
    }

    /** `clock()`: a number is returned as it is (0 included, since the
        number test comes before the falsy one), a function or clock is
        called anew on every reading, and a falsy source reads the system
        time. At most |sources| proxies are followed: a longer chain must
        revisit a clock, and the source's recursion would overflow. */
    function GetTime(id: nat, env: Env): (r: Result<real, ClockError>)
      reads this
      requires Valid() && id < |sources|
      ensures sources[id].Val? && sources[id].v.Num? ==> r == Ok(sources[id].v.n)
      ensures sources[id].Function? ==> r == Ok(env.delegate(sources[id].f))
      ensures !TruthyArg(sources[id]) && !(sources[id].Val? && sources[id].v.Num?) ==> r == Ok(env.systemTime)
      ensures sources[id].ClockRef? && r.Ok? ==> r == ReadClock(sources, sources[id].c, env, |sources|)
      ensures sources[id] == ClockRef(id) ==> r == Err(StackOverflow)
      ensures r != Err(InvalidTime)
    {
      ReadingFacts(sources, id, env);
      ReadClock(sources, id, env, |sources|)
    }
  }

  /** The unit tests' proxy scenario: clock 2 proxies clock 1 until it is
      given a number of its own, and follows clock 1 again once re-linked;
      a `true` source is refused. */
  method ProxyScenario(env: Env) returns (readings: seq<real>, refused: bool)
    ensures readings == [3.0, 6.0, 9.0, 9.0, 12.0]
    ensures refused
  {
    var clocks := new Clocks();
    var c1 := clocks.NewClock(Val(Num(3.0)));
    var c2 := clocks.NewClock(ClockRef(0));
    assert clocks.sources == [Val(Num(3.0)), ClockRef(0)];
    assert ReadClock(clocks.sources, 0, env, 1) == Ok(3.0);
    var t := clocks.GetTime(1, env);
    readings := [t.value];
    var ok := clocks.SetTime(0, Val(Num(6.0)));
    assert ReadClock(clocks.sources, 0, env, 1) == Ok(6.0);
    t := clocks.GetTime(1, env);
    readings := readings + [t.value];
    ok := clocks.SetTime(1, Val(Num(9.0)));
    t := clocks.GetTime(1, env);
    readings := readings + [t.value];
    ok := clocks.SetTime(0, Val(Num(12.0)));
    t := clocks.GetTime(1, env);
    readings := readings + [t.value];
    ok := clocks.SetTime(1, ClockRef(0));
    assert ReadClock(clocks.sources, 0, env, 1) == Ok(12.0);
    t := clocks.GetTime(1, env);
    readings := readings + [t.value];
    var bad := clocks.NewClock(Val(Bool(true)));
    refused := bad == Err(InvalidTime);
  }
}
