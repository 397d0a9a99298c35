/** lib/token-validator.ts and its older twin lib/token-validator.js: the
    validity window of a token's claims, the renaming of claims sent back
    to the client, and the validator object around a secret and a testable
    clock. `jwt.decode` is an oracle. */
module Tokens {
  import opened Wrappers
  import opened Js
  import opened TestableClock

  /** A value of `validUntil`: `undefined`, a number, NaN (the sum
      `undefined + 86400`), or some value whose `typeof` is not "number". */
  datatype Bound = Unset | Number(n: real) | NaN | NonNumber

  /** The kind of a claim value read as a bound. */
  function AsBound(v: Json): (r: Bound)
    ensures r.Number? <==> v.Num?
    ensures r.Number? ==> r.n == v.n
    ensures !r.Number? ==> r == NonNumber
  {
    if v.Num? then Number(v.n) else NonNumber
  }

  /** An object owning a key `hasOwnProperty` hides
      `Object.prototype.hasOwnProperty`; as no JSON value is a function,
      every `hasOwnProperty` call on it throws a TypeError. */
  predicate Shadowed(v: Json)
  {
    v.Obj? && "hasOwnProperty" in v.fields
  }

  /** Where `claims.hasOwnProperty(...)` throws: on `null` (typeof
      "object") and on a shadowing object. */
  predicate HasOwnThrows(claims: Json)
  {
    claims.Null? || Shadowed(claims)
  }

  /** validSince: `nbf` when the claims own it, else `iat`, else undefined;
      non-objects give undefined, and the `hasOwnProperty` call throws on
      `null` and on a shadowing object. */
  function ValidSince(claims: Json): (r: Result<Option<Json>, TypeError>)
    ensures r.Err? <==> HasOwnThrows(claims)
    ensures !HasOwnThrows(claims) && claims.Obj? && "nbf" in claims.fields ==> r == Ok(Some(claims.fields["nbf"]))
    ensures !HasOwnThrows(claims) && claims.Obj? && "nbf" !in claims.fields && "iat" in claims.fields ==>
      r == Ok(Some(claims.fields["iat"]))
    ensures !HasOwnThrows(claims) && claims.Obj? && "nbf" !in claims.fields && "iat" !in claims.fields ==> r == Ok(None)
    ensures !claims.Obj? && !claims.Null? ==> r == Ok(None)
  {
    match claims
    case Null => Err(TypeError)
    case Obj(f) =>
      if "hasOwnProperty" in f then Err(TypeError)
      else if "nbf" in f then Ok(Some(f["nbf"]))
      else if "iat" in f then Ok(Some(f["iat"]))
      else Ok(None)
    case _ => Ok(None)
  }

  /** `since + 86400` under JavaScript's `+`: undefined gives NaN, null and
      booleans count as 0 and 1, strings and objects concatenate. */
  function PlusOneDay(since: Option<Json>): (r: Bound)
    ensures since.None? ==> r == NaN
    ensures since.Some? && since.value.Num? ==> r == Number(since.value.n + 86400.0)
    ensures since.Some? && (since.value.Str? || since.value.Obj?) ==> r == NonNumber
  {
    match since
    case None => NaN
    case Some(Num(n)) => Number(n + 86400.0)
    case Some(Null) => Number(86400.0)
    case Some(Bool(b)) => Number(if b then 86401.0 else 86400.0)
    case Some(_) => NonNumber
  }

  /** validUntil: `exp` when the claims own it, else one day after
      validSince; it throws where validSince does. */
  function ValidUntil(claims: Json): (r: Result<Bound, TypeError>)
    ensures r.Err? <==> HasOwnThrows(claims)
    ensures !HasOwnThrows(claims) && claims.Obj? && "exp" in claims.fields ==> r == Ok(AsBound(claims.fields["exp"]))
    ensures !HasOwnThrows(claims) && claims.Obj? && "exp" !in claims.fields ==>
      r == Ok(PlusOneDay(ValidSince(claims).value))
    ensures !claims.Obj? && !claims.Null? ==> r == Ok(Unset)
  {
    match claims
    case Null => Err(TypeError)
    case Obj(f) =>
      if "hasOwnProperty" in f then Err(TypeError)
      else if "exp" in f then Ok(AsBound(f["exp"]))
      else Ok(PlusOneDay(ValidSince(claims).value))
    case _ => Ok(Unset)
  }

  /** The body of isValidTimestamp once `now` is known: all three are
      numbers and `since <= now <= until`. NaN is of type number but no
      comparison with it holds. */
  function WindowHolds(claims: Json, now: Json): (r: Result<bool, TypeError>)
    ensures r.Err? <==> HasOwnThrows(claims)
    ensures r == Ok(true) <==> (now.Num? && ValidSince(claims).Ok?
      && ValidSince(claims).value.Some? && ValidSince(claims).value.value.Num?
      && ValidUntil(claims).value.Number?
      && ValidSince(claims).value.value.n <= now.n <= ValidUntil(claims).value.n)
  {
    match ValidSince(claims)
    case Err(e) => Err(e)
    case Ok(since) =>
      var until := ValidUntil(claims).value;
      Ok(now.Num? && since.Some? && since.value.Num? && until.Number?
        && now.n >= since.value.n && now.n <= until.n)
  }

  /** getTime: whole seconds of the clock's milliseconds, floored. */
  function Seconds(ms: real): (r: int)
    ensures r as real <= ms / 1000.0 < r as real + 1.0
  {
    (ms / 1000.0).Floor
  }

  /** isValidTimestamp of lib/token-validator.ts: the default parameter
      reads the clock only when `now` is undefined. */
  function IsValidTimestamp(claims: Json, now: Option<Json>, clockMs: real): (r: Result<bool, TypeError>)
    ensures now.Some? ==> r == WindowHolds(claims, now.value)
    ensures now.None? ==> r == WindowHolds(claims, Num(Seconds(clockMs) as real))
  {
    WindowHolds(claims, if now.Some? then now.value else Num(Seconds(clockMs) as real))
  }

  /** isValidTimeStamp of lib/token-validator.js: `now || getTime()`, so any
      falsy `now`, 0 included, is replaced by the clock. */
  function IsValidTimestampLegacy(claims: Json, now: Option<Json>, clockMs: real): (r: Result<bool, TypeError>)
    ensures TruthyOpt(now) ==> r == WindowHolds(claims, now.value)
    ensures !TruthyOpt(now) ==> r == WindowHolds(claims, Num(Seconds(clockMs) as real))
  {
    WindowHolds(claims, if TruthyOpt(now) then now.value else Num(Seconds(clockMs) as real))
  }

  /** The two generations differ on an explicit `now` of 0: the TypeScript
      version checks the window at 0, the JavaScript version at the clock. */
  lemma ZeroNowDiffers(clockMs: real)
    requires clockMs >= 1000.0
    ensures var claims := Obj(map["nbf" := Num(0.0), "exp" := Num(0.0)]);
      IsValidTimestamp(claims, Some(Num(0.0)), clockMs) == Ok(true)
      && IsValidTimestampLegacy(claims, Some(Num(0.0)), clockMs) == Ok(false)
  {
    assert Seconds(clockMs) >= 1;
  }

  /** The window is closed at both ends; the unit tests' token with nbf 200
      and exp 300 is refused at 150 and 350 and accepted at 250. */
  lemma WindowVectors()
    ensures var claims := Obj(map["nbf" := Num(200.0), "exp" := Num(300.0)]);
      && WindowHolds(claims, Num(150.0)) == Ok(false)
      && WindowHolds(claims, Num(200.0)) == Ok(true)
      && WindowHolds(claims, Num(250.0)) == Ok(true)
      && WindowHolds(claims, Num(300.0)) == Ok(true)
      && WindowHolds(claims, Num(350.0)) == Ok(false)
    ensures WindowHolds(Obj(map["iat" := Num(100.0)]), Num(86500.0)) == Ok(true)
    ensures WindowHolds(Obj(map["iat" := Num(100.0)]), Num(86501.0)) == Ok(false)
  {
  }

  /** Claims with neither `nbf` nor `iat` are valid at no time, and claims
      that are not an object are never valid either. */
  lemma {:induction false} NoStartNeverValid(claims: Json, now: Json)
    requires !(claims.Obj? && ("nbf" in claims.fields || "iat" in claims.fields))
    ensures WindowHolds(claims, now) != Ok(true)
  {
  }

  /** The claims normalize grabs, in order: the name it reads first, and
      the name it is sent back under (and read from otherwise). */
  const SHORT_NAMES: seq<string> := ["d", "nbf", "exp", "iat", "admin", "simulate", "debug"]
  const LONG_NAMES: seq<string> := ["auth", "notBefore", "expires", "iat", "admin", "simulate", "debug"]

  /** `grab(a, b)`: sets `normal[b]` from `input[a]`, or else from
      `input[b]`, when the input owns either. On an input owning
      `hasOwnProperty` the first call throws; Normalize reports that before
      any grab, which is the same, since a throw discards `normal`. */
  function Grab(input: map<string, Json>, normal: map<string, Json>, a: string, b: string): (r: map<string, Json>)
    requires "hasOwnProperty" !in input
    ensures a in input ==> r == normal[b := input[a]]
    ensures a !in input && b in input ==> r == normal[b := input[b]]
    ensures a !in input && b !in input ==> r == normal
  {
    if a in input then normal[b := input[a]]
    else if b in input then normal[b := input[b]]
    else normal
  }

  /** `normal[b]` after `grab(a, b)` on an empty `normal`: the value of
      the short name when the input owns it, else that of the long name. */
  function Pick(input: map<string, Json>, a: string, b: string): (r: Option<Json>)
    ensures r.Some? <==> a in input || b in input
  {
    if a in input then Some(input[a]) else if b in input then Some(input[b]) else None
  }

  function Lookup(m: map<string, Json>, k: string): (r: Option<Json>)
    ensures r.Some? <==> k in m
  {
    if k in m then Some(m[k]) else None
  }

  /** The grabs from the `i`-th on, reading `shorts[n]` (or else
      `longs[n]`) into `longs[n]`. */
  function GrabFrom(input: map<string, Json>, shorts: seq<string>, longs: seq<string>, i: nat, normal: map<string, Json>)
    : (r: map<string, Json>)
    requires "hasOwnProperty" !in input && |shorts| == |longs| && i <= |longs|
    ensures forall k :: k in r ==> k in normal || k in longs[i..]
    decreases |longs| - i
  {
    if i == |longs| then normal
    else GrabFrom(input, shorts, longs, i + 1, Grab(input, normal, shorts[i], longs[i]))
  }

  /** normalize: a falsy input (and any non-object, which owns none of
      these names) gives {}; an object owning `hasOwnProperty` throws at
      the first grab; otherwise only the seven long names can appear
      (NormalizeRenames says with which values). */
  function Normalize(input: Json): (r: Result<map<string, Json>, TypeError>)
    ensures r.Err? <==> Shadowed(input)
    ensures !input.Obj? ==> r == Ok(map[])
    ensures r.Ok? ==> forall k :: k in r.value ==> k in LONG_NAMES
  {
    if !Truthy(input) || !input.Obj? then Ok(map[])
    else if "hasOwnProperty" in input.fields then Err(TypeError)
    else
      assert LONG_NAMES[0..] == LONG_NAMES;
      Ok(GrabFrom(input.fields, SHORT_NAMES, LONG_NAMES, 0, map[]))
  }

  predicate DistinctNames(longs: seq<string>)
  {
    forall a, b :: 0 <= a < b < |longs| ==> longs[a] != longs[b]
  }

  /** Later grabs into other names leave `normal[k]` alone. */
  lemma {:induction false} GrabFromKeeps(input: map<string, Json>, shorts: seq<string>, longs: seq<string>, i: nat,
                                         normal: map<string, Json>, k: string)
    requires "hasOwnProperty" !in input && |shorts| == |longs| && i <= |longs|
    requires forall n :: i <= n < |longs| ==> longs[n] != k
    ensures Lookup(GrabFrom(input, shorts, longs, i, normal), k) == Lookup(normal, k)
    decreases |longs| - i
  {
    if i < |longs| {
      var next := Grab(input, normal, shorts[i], longs[i]);
      assert Lookup(next, k) == Lookup(normal, k);
      GrabFromKeeps(input, shorts, longs, i + 1, next, k);
    }
  }

  /** With distinct long names, the grab into `longs[j]` decides it. */
  lemma {:induction false} GrabFromSets(input: map<string, Json>, shorts: seq<string>, longs: seq<string>, i: nat,
                                        normal: map<string, Json>, j: nat)
    requires "hasOwnProperty" !in input && |shorts| == |longs| && i <= j < |longs| && DistinctNames(longs)
    ensures Lookup(GrabFrom(input, shorts, longs, i, normal), longs[j])
      == if Pick(input, shorts[j], longs[j]).Some? then Pick(input, shorts[j], longs[j]) else Lookup(normal, longs[j])
    decreases j - i
  {
    var next := Grab(input, normal, shorts[i], longs[i]);
    if i == j {
      GrabFromKeeps(input, shorts, longs, i + 1, next, longs[j]);
    } else {
      assert Lookup(next, longs[j]) == Lookup(normal, longs[j]);
      GrabFromSets(input, shorts, longs, i + 1, next, j);
    }
  }

  /** No two grabs write the same name. */
  lemma LongNamesDistinct()
    ensures DistinctNames(LONG_NAMES)
  {
    var lengths := [4, 9, 7, 3, 5, 8, 5];
    assert forall n :: 0 <= n < |LONG_NAMES| ==> |LONG_NAMES[n]| == lengths[n];
    assert LONG_NAMES[4][0] != LONG_NAMES[6][0];
  }

  /** For an object, each long name carries the value of its short name,
      or else its own, and is absent when the input owns neither. */
  lemma NormalizeRenames(input: Json)
    requires input.Obj? && !Shadowed(input)
    ensures Normalize(input).Ok?
    ensures forall j :: 0 <= j < |LONG_NAMES| ==>
      Lookup(Normalize(input).value, LONG_NAMES[j]) == Pick(input.fields, SHORT_NAMES[j], LONG_NAMES[j])
  {
    LongNamesDistinct();
    forall j | 0 <= j < |LONG_NAMES|
      ensures Lookup(Normalize(input).value, LONG_NAMES[j]) == Pick(input.fields, SHORT_NAMES[j], LONG_NAMES[j])
    {
      GrabFromSets(input.fields, SHORT_NAMES, LONG_NAMES, 0, map[], j);
    }
  }

  /** Two results of the grabs that agree on every long name are equal. */
  lemma {:induction false} SameOnNames(r: map<string, Json>, expected: map<string, Json>, longs: seq<string>)
    requires forall k :: k in r ==> k in longs
    requires forall k :: k in expected ==> k in longs
    requires forall j :: 0 <= j < |longs| ==> Lookup(r, longs[j]) == Lookup(expected, longs[j])
    ensures r == expected
  {
    forall k | k in longs
      ensures Lookup(r, k) == Lookup(expected, k)
    {
      var j :| 0 <= j < |longs| && longs[j] == k;
    }
    assert r.Keys == expected.Keys by {
      forall k | k in longs
        ensures k in r <==> k in expected
      {
        assert Lookup(r, k).Some? <==> Lookup(expected, k).Some?;
      }
    }
    forall k | k in r
      ensures r[k] == expected[k]
    {
      assert Lookup(r, k) == Lookup(expected, k);
    }
  }

  /** The claims normalize returns are fixed by the seven grabs. */
  lemma NormalizeIs(input: Json, expected: map<string, Json>)
    requires input.Obj? && !Shadowed(input)
    requires forall k :: k in expected ==> k in LONG_NAMES
    requires forall j :: 0 <= j < |LONG_NAMES| ==>
      Lookup(expected, LONG_NAMES[j]) == Pick(input.fields, SHORT_NAMES[j], LONG_NAMES[j])
    ensures Normalize(input) == Ok(expected)
  {
    NormalizeRenames(input);
    SameOnNames(Normalize(input).value, expected, LONG_NAMES);
  }

  /** The unit test: short names are renamed, `iat`, `admin`, `simulate`
      and `debug` are copied, and `v` is dropped. */
  lemma NormalizeVector()
    ensures Normalize(Obj(map["admin" := Bool(true), "d" := Str("u"), "debug" := Bool(true),
        "exp" := Num(300.0), "iat" := Num(200.0), "nbf" := Num(100.0), "simulate" := Bool(true),
        "v" := Num(0.0)]))
      == Ok(map["admin" := Bool(true), "auth" := Str("u"), "debug" := Bool(true), "expires" := Num(300.0),
        "iat" := Num(200.0), "notBefore" := Num(100.0), "simulate" := Bool(true)])
  {
    NormalizeIs(Obj(map["admin" := Bool(true), "d" := Str("u"), "debug" := Bool(true),
        "exp" := Num(300.0), "iat" := Num(200.0), "nbf" := Num(100.0), "simulate" := Bool(true),
        "v" := Num(0.0)]),
      map["admin" := Bool(true), "auth" := Str("u"), "debug" := Bool(true), "expires" := Num(300.0),
        "iat" := Num(200.0), "notBefore" := Num(100.0), "simulate" := Bool(true)]);
  }

  /** The admin shortcut of index.ts sends `normalize({auth: null, admin:
      true, exp: null})`, that is `{auth: null, admin: true, expires: null}`. */
  lemma AdminClaims()
    ensures Normalize(Obj(map["auth" := Null, "admin" := Bool(true), "exp" := Null]))
      == Ok(map["auth" := Null, "admin" := Bool(true), "expires" := Null])
  {
    NormalizeIs(Obj(map["auth" := Null, "admin" := Bool(true), "exp" := Null]),
      map["auth" := Null, "admin" := Bool(true), "expires" := Null]);
  }

  /** `jwt.decode(token, secret, noVerify)`: the payload, or None for a
      token it rejects. */
  type JwtDecode = (Option<Json>, JsArg, bool) -> Option<Json>

  datatype DecodeError = BadToken | InvalidTimestamp | ClaimsTypeError | ClockFailure(e: ClockError)

  /** The argument shuffle at the head of the constructor: with a falsy
      time and a secret that is not a string, the first argument is the
      time and there is no secret. */
  function Shuffle(secret: JsArg, time: JsArg): (r: (JsArg, JsArg))
    ensures !TruthyArg(time) && !(secret.Val? && secret.v.Str?) ==> r == (Val(Null), secret)
    ensures TruthyArg(time) || (secret.Val? && secret.v.Str?) ==> r == (secret, time)
  {
    if !TruthyArg(time) && !(secret.Val? && secret.v.Str?) then (Val(Null), secret) else (secret, time)
  }

  /** `newSecret || null`. */
  function SecretOrNull(newSecret: JsArg): (r: JsArg)
    ensures TruthyArg(r) || r == Val(Null)
    ensures TruthyArg(newSecret) ==> r == newSecret
  {
    if TruthyArg(newSecret) then newSecret else Val(Null)
  }

  /** The object `TokenValidator(secret, time)` (or `new Generator(...)`)
      returns: the closure's `secret`, the shuffled `time` argument, and
      the testable clock made from it. */
  class TokenValidator {
    var secret: JsArg
    const time: JsArg
    const clocks: Clocks
    const clockId: nat

    ghost predicate Valid()
      reads this, clocks
    {
      clocks.Valid() && clockId < |clocks.sources| && (TruthyArg(secret) || secret == Val(Null))
    }

    constructor (secret: JsArg, time: JsArg, clocks: Clocks, clockId: nat)
      ensures this.secret == secret && this.time == time && this.clocks == clocks && this.clockId == clockId
    {
      this.secret := secret;
      this.time := time;
      this.clocks := clocks;
      this.clockId := clockId;
    }

    /** `setSecret(newSecret)`: any falsy secret is stored as null. */
    method SetSecret(newSecret: JsArg)
      requires Valid()
      modifies this
      ensures Valid()
      ensures secret == SecretOrNull(newSecret)
    {
      secret := SecretOrNull(newSecret);
    }

    /** `setTime`, the clock's own setter. */
    method SetTime(newTime: JsArg) returns (r: Result<(), ClockError>)
      requires Valid()
      requires newTime.ClockRef? ==> newTime.c < |clocks.sources|
      modifies clocks
      ensures Valid()
      ensures Acceptable(newTime) ==> r == Ok(()) && clocks.sources == old(clocks.sources)[clockId := newTime]
      ensures !Acceptable(newTime) ==> r == Err(InvalidTime) && clocks.sources == old(clocks.sources)
    {
      r := clocks.SetTime(clockId, newTime);
    }

    /** `getTime()` in seconds, or the clock's failure. */
    function Now(env: Env): (r: Result<int, ClockError>)
      reads this, clocks
      requires Valid()
      ensures clocks.GetTime(clockId, env).Ok? <==> r.Ok?
      ensures r.Ok? ==> r.value == Seconds(clocks.GetTime(clockId, env).value)
    {
      match clocks.GetTime(clockId, env)
      case Ok(ms) => Ok(Seconds(ms))
      case Err(e) => Err(e)
    }

    /** `decode(token, noVerify)`: the signature goes unchecked when there is
        no secret or `noVerify` is set, and unless `noVerify` is set the
        claims must be valid now. */
    function Decode(token: Option<Json>, noVerify: bool, jwt: JwtDecode, env: Env): (r: Result<Json, DecodeError>)
      reads this, clocks
      requires Valid()
      ensures jwt(token, secret, !TruthyArg(secret) || noVerify).None? ==> r == Err(BadToken)
      ensures r.Ok? ==> jwt(token, secret, !TruthyArg(secret) || noVerify) == Some(r.value)
      ensures noVerify ==> (r.Ok? <==> jwt(token, secret, true).Some?)
      ensures !noVerify && r.Ok? ==> Now(env).Ok? && WindowHolds(r.value, Num(Now(env).value as real)) == Ok(true)
      ensures !noVerify && jwt(token, secret, !TruthyArg(secret)).Some? && Now(env).Ok? ==>
        var w := WindowHolds(jwt(token, secret, !TruthyArg(secret)).value, Num(Now(env).value as real));
        && (w == Ok(true) ==> r == Ok(jwt(token, secret, !TruthyArg(secret)).value))
        && (w == Ok(false) ==> r == Err(InvalidTimestamp)) && (w.Err? ==> r == Err(ClaimsTypeError))
      ensures !noVerify && jwt(token, secret, !TruthyArg(secret)).Some? && Now(env).Err? ==>
        r == Err(ClockFailure(Now(env).error))
    {
      match jwt(token, secret, !TruthyArg(secret) || noVerify)
      case None => Err(BadToken)
      case Some(decoded) =>
        if noVerify then Ok(decoded)
        else match Now(env)
          case Err(e) => Err(ClockFailure(e))
          case Ok(now) =>
            match WindowHolds(decoded, Num(now as real))
            case Err(_) => Err(ClaimsTypeError)
            case Ok(valid) => if valid then Ok(decoded) else Err(InvalidTimestamp)
    }
  }

  /** Claims that pass verified decoding never make normalize throw: the
      window check would have thrown on them first. */
  lemma VerifiedClaimsNormalize(v: TokenValidator, token: Option<Json>, jwt: JwtDecode, env: Env)
    requires v.Valid() && v.Decode(token, false, jwt, env).Ok?
    ensures Normalize(v.Decode(token, false, jwt, env).value).Ok?
  {
    var claims := v.Decode(token, false, jwt, env).value;
    assert WindowHolds(claims, Num(v.Now(env).value as real)) == Ok(true);
  }

  /** `TokenValidator(secret, time)`: the arguments are shuffled, the secret
      stored as by setSecret, and a testable clock made from the time, which
      throws when the time is not an acceptable source. */
  method NewTokenValidator(clocks: Clocks, secret: JsArg, time: JsArg) returns (r: Result<TokenValidator, ClockError>)
    requires clocks.Valid()
    requires Shuffle(secret, time).1.ClockRef? ==> Shuffle(secret, time).1.c < |clocks.sources|
    modifies clocks
    ensures clocks.Valid()
    ensures !Acceptable(Shuffle(secret, time).1) ==> r == Err(InvalidTime) && clocks.sources == old(clocks.sources)
    ensures Acceptable(Shuffle(secret, time).1) ==> (r.Ok? && fresh(r.value) && r.value.Valid()
      && r.value.clocks == clocks && clocks.sources == old(clocks.sources) + [Shuffle(secret, time).1]
      && r.value.clockId == |old(clocks.sources)|
      && r.value.secret == SecretOrNull(Shuffle(secret, time).0)
      && r.value.time == Shuffle(secret, time).1)
  {
    var (s, t) := Shuffle(secret, time);
    var id := clocks.NewClock(t);
    if id.Err? {
      return Err(id.error);
    }
    var v := new TokenValidator(SecretOrNull(s), t, clocks, id.value);
    r := Ok(v);
  }

  /** `withTime(newClock)`: a new validator with the current secret, one set
      by setSecret included. */
  method WithTime(v: TokenValidator, newClock: JsArg) returns (r: Result<TokenValidator, ClockError>)
    requires v.Valid()
    requires Shuffle(v.secret, newClock).1.ClockRef? ==> Shuffle(v.secret, newClock).1.c < |v.clocks.sources|
    modifies v.clocks
    ensures v.Valid()
    ensures !Acceptable(Shuffle(v.secret, newClock).1) ==> r == Err(InvalidTime) && v.clocks.sources == old(v.clocks.sources)
    ensures Acceptable(Shuffle(v.secret, newClock).1) ==> (r.Ok? && fresh(r.value) && r.value.Valid()
      && r.value.clocks == v.clocks && v.clocks.sources == old(v.clocks.sources) + [Shuffle(v.secret, newClock).1]
      && r.value.clockId == |old(v.clocks.sources)|
      && r.value.secret == SecretOrNull(Shuffle(v.secret, newClock).0)
      && r.value.time == Shuffle(v.secret, newClock).1)
  {
    r := NewTokenValidator(v.clocks, v.secret, newClock);
  }

  /** `withSecret(newSecret)`: a new validator with the constructor's
      `time` argument, whatever setTime did since. */
  method WithSecret(v: TokenValidator, newSecret: JsArg) returns (r: Result<TokenValidator, ClockError>)
    requires v.Valid()
    requires Shuffle(newSecret, v.time).1.ClockRef? ==> Shuffle(newSecret, v.time).1.c < |v.clocks.sources|
    modifies v.clocks
    ensures v.Valid()
    ensures !Acceptable(Shuffle(newSecret, v.time).1) ==> r == Err(InvalidTime) && v.clocks.sources == old(v.clocks.sources)
    ensures Acceptable(Shuffle(newSecret, v.time).1) ==> (r.Ok? && fresh(r.value) && r.value.Valid()
      && r.value.clocks == v.clocks && v.clocks.sources == old(v.clocks.sources) + [Shuffle(newSecret, v.time).1]
      && r.value.clockId == |old(v.clocks.sources)|
      && r.value.secret == SecretOrNull(Shuffle(newSecret, v.time).0)
      && r.value.time == Shuffle(newSecret, v.time).1)
  {
    r := NewTokenValidator(v.clocks, newSecret, v.time);
  }

  /** index.ts's `TokenValidator(null)`: no secret, and a null time, so the
      clock reads the system time. */
  lemma ServerValidatorArguments()
    ensures Shuffle(Val(Null), Undefined) == (Val(Null), Val(Null))
    ensures SecretOrNull(Val(Null)) == Val(Null) && Acceptable(Val(Null))
    ensures Shuffle(Val(Str("mySecret")), Val(Num(100000.0))) == (Val(Str("mySecret")), Val(Num(100000.0)))
  {
  }
}
