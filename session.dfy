/** The connection handling of index.ts: the FirebaseServer's shared state
    and, per websocket client, the frame buffer, the auth token, the
    listeners and the handlers that incoming messages dispatch to. Each
    handler runs to completion before the next message is read. */
module Session {
  import opened Wrappers
  import opened Js
  import opened Refs
  import opened Backend
  import Paths
  import Frames
  import ServerTimestamp
  import Tokens
  import TestableClock
  import FirebaseHash
  import Paginate
  import KeyOrder

  /** The collaborators this model takes as given: JSON.parse (None for the
      SyntaxError) and JSON.stringify, jwt.decode, the order of
      Object.keys, SHA-1/base64 and the double-to-hex step, targaryen, and
      the Firebase client's evaluation of a query over a node's value. */
  datatype World = World(
    parse: string -> Option<Json>,
    stringify: Json -> string,
    jwt: Tokens.JwtDecode,
    keysOf: FirebaseHash.KeysOf,
    hp: FirebaseHash.Primitives,
    rules: RuleEngine,
    query: (Json, seq<Directive>) -> Json)

  /** `server.clock || new Date().getTime()`: a clock set to 0 reads the
      system time, like one never set. */
  function ServerNow(clock: Option<real>, env: TestableClock.Env): (r: real)
    ensures clock.Some? && clock.value != 0.0 ==> r == clock.value
    ensures !(clock.Some? && clock.value != 0.0) ==> r == env.systemTime
  {
    if clock.Some? && clock.value != 0.0 then clock.value else env.systemTime
  }

  /** The auth data a decoded token stands for: its `d` claim when it has
      one, else `{provider, token, uid}` with `uid` taken from `user_id`,
      falling back to `sub` when `user_id` is falsy. `'d' in` a value that
      is not an object throws. Undefined properties are left out. */
  function Identity(decoded: Json): (r: Result<Json, TypeError>)
    ensures r.Err? <==> !decoded.Obj?
    ensures decoded.Obj? && "d" in decoded.fields ==> r == Ok(decoded.fields["d"])
    ensures decoded.Obj? && "d" !in decoded.fields ==> (r.Ok? && r.value.Obj?
      && Field(r.value, "token") == Some(decoded)
      && Field(r.value, "provider") == Field(decoded, "provider_id")
      && Field(r.value, "uid") == (if TruthyOpt(Field(decoded, "user_id")) then Field(decoded, "user_id")
                                     else Field(decoded, "sub")))
  {
    if !decoded.Obj? then Err(TypeError)
    else if "d" in decoded.fields then Ok(decoded.fields["d"])
    else
      var uid := if TruthyOpt(Field(decoded, "user_id")) then Field(decoded, "user_id") else Field(decoded, "sub");
      var base := map["token" := decoded];
      var withProvider := if "provider_id" in decoded.fields then base["provider" := decoded.fields["provider_id"]] else base;
      var withUid := if uid.Some? then withProvider["uid" := uid.value] else withProvider;
      Ok(Obj(withUid))
  }

  /** A Firebase-style token without `d`: the uid is `user_id`, and `sub`
      only stands in for a falsy `user_id`. */
  lemma IdentityVectors()
    ensures var t := Obj(map["provider_id" := Str("password"), "user_id" := Str("u1"), "sub" := Str("s1")]);
      Identity(t) == Ok(Obj(map["token" := t, "provider" := Str("password"), "uid" := Str("u1")]))
    ensures var t := Obj(map["user_id" := Str(""), "sub" := Str("s1")]);
      Identity(t) == Ok(Obj(map["token" := t, "uid" := Str("s1")]))
    ensures Identity(Obj(map["d" := Null, "sub" := Str("s1")])) == Ok(Null)
  {
  }

  /** What `authData()` returns, and the token it leaves: nothing without
      a truthy token; the token's identity when it decodes (every call
      decodes it anew, against the validator's clock); and on any failure
      nothing, the token being cleared to null. */
  function AuthStep(token: Option<Json>, v: Tokens.TokenValidator, jwt: Tokens.JwtDecode, env: TestableClock.Env)
    : (r: (Option<Json>, Option<Json>))
    reads v, v.clocks
    requires v.Valid()
    ensures r.1 == token || r.1 == Some(Null)
    ensures r.0.Some? ==> TruthyOpt(token) && r.1 == token
  {
    if !TruthyOpt(token) then (None, token)
    else
      match v.Decode(token, false, jwt, env)
      case Err(_) => (None, Some(Null))
      case Ok(decoded) =>
        match Identity(decoded)
        case Err(_) => (None, Some(Null))
        case Ok(data) => (Some(data), token)
  }

  /** The three outcomes of `authData()`: no truthy token gives nothing
      and keeps it; a token that does not decode is cleared to null; one
      that decodes is kept and gives the identity of its claims, which
      cannot throw, as verified claims are an object. */
  lemma AuthStepOutcomes(token: Option<Json>, v: Tokens.TokenValidator, jwt: Tokens.JwtDecode, env: TestableClock.Env)
    requires v.Valid()
    ensures !TruthyOpt(token) ==> AuthStep(token, v, jwt, env) == (None, token)
    ensures TruthyOpt(token) && v.Decode(token, false, jwt, env).Err? ==> AuthStep(token, v, jwt, env) == (None, Some(Null))
    ensures TruthyOpt(token) && v.Decode(token, false, jwt, env).Ok? ==>
      Identity(v.Decode(token, false, jwt, env).value).Ok?
      && AuthStep(token, v, jwt, env) == (Some(Identity(v.Decode(token, false, jwt, env).value).value), token)
  {
    if TruthyOpt(token) && v.Decode(token, false, jwt, env).Ok? {
      var decoded := v.Decode(token, false, jwt, env).value;
      assert Tokens.WindowHolds(decoded, Num(v.Now(env).value as real)) == Ok(true);
      assert decoded != Null;
    }
  }

  /** A token that fails is gone: the next call finds no token, returns
      nothing and decodes nothing; a token that succeeds is kept. */
  lemma AuthFailureIsFinal(token: Option<Json>, v: Tokens.TokenValidator, jwt: Tokens.JwtDecode, env: TestableClock.Env, env2: TestableClock.Env)
    requires v.Valid()
    ensures AuthStep(token, v, jwt, env).1 != token ==> (AuthStep(token, v, jwt, env) == (None, Some(Null))
      && AuthStep(Some(Null), v, jwt, env2) == (None, Some(Null)))
    ensures AuthStep(token, v, jwt, env).0.Some? ==> (AuthStep(token, v, jwt, env).1 == token
      && v.Decode(token, false, jwt, env).Ok?)
  {
  }

  /** A parsed data message, read into the handler it goes to and that
      handler's arguments. */
  datatype Request =
    | ListenRequest(requestId: Option<Json>, path: Paths.NormalizedPath, ref: Ref, query: Option<Json>)
    | UpdateRequest(requestId: Option<Json>, path: Paths.NormalizedPath, ref: Ref, data: Option<Json>)
    | SetRequest(requestId: Option<Json>, path: Paths.NormalizedPath, ref: Ref, data: Option<Json>, hash: Option<Json>)
    | AuthRequest(requestId: Option<Json>, credential: Option<Json>)
    | NoRequest

  /** `normalizePath(path || '')` on `d.b.p`: a falsy path is '', and a
      truthy one that is not a string has no `charAt` and throws. */
  function PathText(p: Option<Json>): (r: Result<string, TypeError>)
    ensures !TruthyOpt(p) ==> r == Ok("")
    ensures TruthyOpt(p) ==> (r.Ok? <==> p.value.Str?)
    ensures TruthyOpt(p) && p.value.Str? ==> r == Ok(p.value.s)
  {
    if !TruthyOpt(p) then Ok("")
    else if p.value.Str? then Ok(p.value.s)
    else Err(TypeError)
  }

  /** `parsed.d.a === code`. */
  predicate IsAction(parsed: Json, code: string)
  {
    GetPath(Some(parsed), ["d", "a"]) == Some(Str(code))
  }

  /** The dispatch of the message handler for a value with `t === 'd'`:
      reading `d.b.p` throws when `d` or `d.b` is missing or null; `l`
      and `q` listen, `m` updates, `p` sets, `auth` and `gauth`
      authenticate, and any other action is ignored. The reference is the
      root for an empty path and its child otherwise. */
  function Route(parsed: Json): (r: Result<Request, TypeError>)
    ensures GetPath(Some(parsed), ["d"]) in {None, Some(Null)} ==> r.Err?
    ensures GetPath(Some(parsed), ["d", "b"]) in {None, Some(Null)} ==> r.Err?
    ensures Prop(Field(parsed, "d"), "b").Ok? && Prop(Prop(Field(parsed, "d"), "b").value, "p").Ok? ==>
      (r.Ok? <==> PathText(GetPath(Some(parsed), ["d", "b", "p"])).Ok?)
    ensures r.Ok? ==> (r.value.ListenRequest? <==> IsAction(parsed, "l") || IsAction(parsed, "q"))
    ensures r.Ok? ==> (r.value.UpdateRequest? <==> IsAction(parsed, "m"))
    ensures r.Ok? ==> (r.value.SetRequest? <==> IsAction(parsed, "p"))
    ensures r.Ok? ==> (r.value.AuthRequest? <==> IsAction(parsed, "auth") || IsAction(parsed, "gauth"))
    ensures r.Ok? && !r.value.NoRequest? ==> r.value.requestId == GetPath(Some(parsed), ["d", "r"])
    ensures r.Ok? && !r.value.NoRequest? && !r.value.AuthRequest? ==>
      && r.value.path == Paths.NormalizePath(PathText(GetPath(Some(parsed), ["d", "b", "p"])).value)
      && r.value.ref == RefFor(r.value.path.path)
    ensures r.Ok? && (r.value.UpdateRequest? || r.value.SetRequest?) ==>
      r.value.data == GetPath(Some(parsed), ["d", "b", "d"])
    ensures r.Ok? && r.value.SetRequest? ==> r.value.hash == GetPath(Some(parsed), ["d", "b", "h"])
    ensures r.Ok? && r.value.ListenRequest? ==> r.value.query == GetPath(Some(parsed), ["d", "b", "q"])
    ensures r.Ok? && r.value.AuthRequest? ==> r.value.credential == GetPath(Some(parsed), ["d", "b", "cred"])
  {
    GetPathTwo(Some(parsed), "d", "b");
    GetPathTwo(Some(parsed), "d", "a");
    GetPathTwo(Some(parsed), "d", "r");
    GetPathTwo(Field(parsed, "d"), "b", "p");
    GetPathTwo(Field(parsed, "d"), "b", "d");
    GetPathTwo(Field(parsed, "d"), "b", "h");
    GetPathTwo(Field(parsed, "d"), "b", "q");
    GetPathTwo(Field(parsed, "d"), "b", "cred");
    GetPathThree(Some(parsed), "d", "b", "p");
    GetPathThree(Some(parsed), "d", "b", "d");
    GetPathThree(Some(parsed), "d", "b", "h");
    GetPathThree(Some(parsed), "d", "b", "q");
    GetPathThree(Some(parsed), "d", "b", "cred");
    match Prop(Field(parsed, "d"), "b")
    case Err(e) => Err(e)
    case Ok(b) =>
      match Prop(b, "p")
      case Err(e) => Err(e)
      case Ok(p) =>
        match PathText(p)
        case Err(e) => Err(e)
        case Ok(s) =>
          var d := Field(parsed, "d").value;
          var body := b.value;
          var np := Paths.NormalizePath(s);
          var requestId := Field(d, "r");
          var ref := RefFor(np.path);
          if IsAction(parsed, "l") || IsAction(parsed, "q") then Ok(ListenRequest(requestId, np, ref, Field(body, "q")))
          else if IsAction(parsed, "m") then Ok(UpdateRequest(requestId, np, ref, Field(body, "d")))
          else if IsAction(parsed, "p") then Ok(SetRequest(requestId, np, ref, Field(body, "d"), Field(body, "h")))
          else if IsAction(parsed, "auth") || IsAction(parsed, "gauth") then Ok(AuthRequest(requestId, Field(body, "cred")))
          else Ok(NoRequest)
  }

  /** A listen or query whose `d.b.p` is a string goes to handleListen
      with its request id, normalised path, reference and query. */
  lemma RouteListen(parsed: Json, d: Json, b: Json, s: string)
    requires Field(parsed, "d") == Some(d) && Field(d, "b") == Some(b) && Field(b, "p") == Some(Str(s))
    requires s != "" && (IsAction(parsed, "l") || IsAction(parsed, "q"))
    ensures Route(parsed) == Ok(ListenRequest(Field(d, "r"), Paths.NormalizePath(s),
      RefFor(Paths.NormalizePath(s).path), Field(b, "q")))
  {
  }

  /** A query on `/a/.priority` listens on `a` with the priority flag up. */
  lemma RoutePriorityListen(parsed: Json)
    requires parsed == Obj(map["t" := Str("d"), "d" := Obj(map["r" := Num(1.0), "a" := Str("q"),
      "b" := Obj(map["p" := Str("/a/.priority")])])])
    ensures Route(parsed) == Ok(ListenRequest(Some(Num(1.0)), Paths.NormalizedPath("a", "/a/.priority", true),
      Ref(Child("a"), []), None))
  {
    var full := "/a/.priority";
    var b := Obj(map["p" := Str(full)]);
    var d := Obj(map["r" := Num(1.0), "a" := Str("q"), "b" := b]);
    PriorityQueryShape(parsed, d, b);
    PriorityListenPath(full);
    assert RefFor(Paths.NormalizePath(full).path) == Ref(Child("a"), []);
    RouteListen(parsed, d, b, full);
  }

  /** The parts of the priority query message that routing reads. */
  lemma PriorityQueryShape(parsed: Json, d: Json, b: Json)
    requires b == Obj(map["p" := Str("/a/.priority")])
    requires d == Obj(map["r" := Num(1.0), "a" := Str("q"), "b" := b])
    requires parsed == Obj(map["t" := Str("d"), "d" := d])
    ensures Field(parsed, "d") == Some(d) && Field(d, "b") == Some(b) && Field(b, "p") == Some(Str("/a/.priority"))
    ensures IsAction(parsed, "q") && Field(d, "r") == Some(Num(1.0)) && Field(b, "q") == None
  {
    assert GetPath(Some(parsed), ["d", "a"]) == Some(Str("q")) by {
      GetPathTwo(Some(parsed), "d", "a");
    }
  }

  lemma PriorityListenPath(full: string)
    requires full == "/a/.priority"
    ensures Paths.NormalizePath(full) == Paths.NormalizedPath("a", full, true)
  {
    assert Paths.MatchesPrioritySuffix(full) by {
      assert full[|full| - 9..] == ".priority";
    }
    assert full[|full| - 10] == '/';
    assert Paths.StripPrioritySuffix(full) == "/a" by {
      assert full[..|full| - 10] == "/a";
    }
    assert "/a"[1..] == "a";
  }

  /** An update without `p` targets the root. */
  lemma RouteBareUpdate(bare: Json)
    requires bare == Obj(map["t" := Str("d"), "d" := Obj(map["a" := Str("m"), "b" := Obj(map[])])])
    ensures Route(bare) == Ok(UpdateRequest(None, Paths.NormalizedPath("", "", false), BaseRef, None))
  {
    assert !Paths.MatchesPrioritySuffix("");
  }

  /** The message a complete frame yields, and the request it dispatches:
      values that are falsy or lack `t === 'd'` are dropped, and so is a
      message whose routing throws. */
  function Dispatch(parsed: Json): (r: Option<Request>)
    ensures r.Some? ==> Truthy(parsed) && Field(parsed, "t") == Some(Str("d")) && Route(parsed) == Ok(r.value)
    ensures r.Some? ==> !r.value.NoRequest?
    ensures Truthy(parsed) && Field(parsed, "t") == Some(Str("d")) && Route(parsed).Ok? && !Route(parsed).value.NoRequest? ==> r.Some?
  {
    if Truthy(parsed) && Field(parsed, "t") == Some(Str("d")) && Route(parsed).Ok? && !Route(parsed).value.NoRequest?
    then Some(Route(parsed).value)
    else None
  }

  /** What the client sees on its socket: each envelope, stringified and
      split into a count frame and fragments, in the order sent. */
  function Wire(es: seq<Envelope>, stringify: Json -> string, max: nat): seq<string>
    requires max > 0
    decreases |es|
  {
    if es == [] then []
    else Wire(es[..|es| - 1], stringify, max) + Frames.Chunked(stringify(EnvelopeJson(es[|es| - 1], false)), max)
  }

  /** The value a listener's value event carries: the node's value, or the
      Firebase client's evaluation of the query's directives over it. */
  function Snapshot(store: Store, ref: Ref, query: (Json, seq<Directive>) -> Json): Json
  {
    if ref.directives == [] then ExportVal(store, ref.location)
    else query(ExportVal(store, ref.location), ref.directives)
  }

  /** The admin claims the auth-secret shortcut answers with. */
  const ADMIN_CLAIMS: Json := Obj(map["auth" := Null, "admin" := Bool(true), "exp" := Null])

  /** The FirebaseServer: the store and targaryen's judgement of it, the
      auth secret, the fixed clock, the frame limit and the token
      validator, shared by every connection. */
  class Server {
    var authSecret: Option<Json>
    var targaryen: Db
    var clock: Option<real>
    var store: Store
    const maxFrameLength: nat
    const tokenValidator: Tokens.TokenValidator

    ghost predicate Valid()
      reads this, tokenValidator, tokenValidator.clocks
    {
      maxFrameLength > 0 && tokenValidator.Valid()
    }

    /** `new FirebaseServer(options, name, data)`: the store and
        targaryen's copy both hold `data`, under rules that let everyone
        read and write; no auth secret and no fixed clock; the validator,
        `TokenValidator(null)`, has no secret and reads the system time. */
    constructor (maxFrameLengthOption: Option<nat>, data: Json)
      ensures Valid()
      ensures authSecret == None && clock == None
      ensures store == map[Root := data] && targaryen == Db(OPEN_RULES, data)
      ensures maxFrameLength == Frames.MaxFrameLength(maxFrameLengthOption)
      ensures tokenValidator.secret == Val(Null)
      ensures tokenValidator.clocks.sources[tokenValidator.clockId] == Val(Null)
    {
      var clocks := new TestableClock.Clocks();
      Tokens.ServerValidatorArguments();
      var validator := Tokens.NewTokenValidator(clocks, Val(Null), Undefined);
      authSecret := None;
      targaryen := Db(OPEN_RULES, data);
      clock := None;
      store := map[Root := data];
      maxFrameLength := Frames.MaxFrameLength(maxFrameLengthOption);
      tokenValidator := validator.value;
    }

    /** `setTime(newTime)`: a fixed clock for timestamps, or null for the
        system time. */
    method SetTime(newTime: Option<real>)
      requires Valid()
      modifies this
      ensures Valid()
      ensures clock == newTime
      ensures authSecret == old(authSecret) && targaryen == old(targaryen) && store == old(store)
    {
      clock := newTime;
    }

    /** `setRules(rules)`: targaryen's database keeps its data and takes
        the new rules. */
    method SetRules(rules: Json)
      requires Valid()
      modifies this
      ensures Valid()
      ensures targaryen == Db(rules, old(targaryen).data)
      ensures authSecret == old(authSecret) && clock == old(clock) && store == old(store)
    {
      targaryen := targaryen.(rules := rules);
    }

    /** `setAuthSecret(newSecret)`: the admin shortcut's secret, also handed
        to the validator, which stores a falsy one as null. */
    method SetAuthSecret(newSecret: Json)
      requires Valid()
      modifies this, tokenValidator
      ensures Valid()
      ensures authSecret == Some(newSecret)
      ensures tokenValidator.secret == Tokens.SecretOrNull(Val(newSecret))
      ensures clock == old(clock) && targaryen == old(targaryen) && store == old(store)
    {
      authSecret := Some(newSecret);
      tokenValidator.SetSecret(Val(newSecret));
    }
  }

  /** One client connection of `handleConnection`: the closure's
      `authToken`, the socket's `frameBuffer`, the listeners it has
      subscribed, the envelopes sent so far and the frames they went out
      as. */
  class Connection {
    const server: Server
    const world: World
    var authToken: Option<Json>
    var frameBuffer: string
    var listeners: seq<Listener>
    var sent: seq<Envelope>
    var frames: seq<string>

    ghost predicate Valid()
      reads this, server, server.tokenValidator, server.tokenValidator.clocks
    {
      server.Valid() && FirebaseHash.Enumerates(world.keysOf)
      && frames == Wire(sent, world.stringify, server.maxFrameLength)
    }

    /** A new connection: no token (null), an empty buffer, nothing sent
        (the handshake is left out). */
    constructor (server: Server, world: World)
      requires server.Valid() && FirebaseHash.Enumerates(world.keysOf)
      ensures Valid()
      ensures this.server == server && this.world == world
      ensures authToken == Some(Null) && frameBuffer == "" && listeners == [] && sent == []
    {
      this.server := server;
      this.world := world;
      authToken := Some(Null);
      frameBuffer := "";
      listeners := [];
      sent := [];
      frames := [];
    }

    /** `authData()` on the current token. */
    function Auth(env: TestableClock.Env): (Option<Json>, Option<Json>)
      reads this, server, server.tokenValidator, server.tokenValidator.clocks
      requires Valid()
    {
      AuthStep(authToken, server.tokenValidator, world.jwt, env)
    }

    /** `send(message)`: the envelope goes out as its count frame and
        fragments, each within the frame limit. */
    method Send(e: Envelope)
      requires Valid()
      modifies this
      ensures Valid()
      ensures sent == old(sent) + [e]
      ensures frames == old(frames) + Frames.Chunked(world.stringify(EnvelopeJson(e, false)), server.maxFrameLength)
      ensures authToken == old(authToken) && frameBuffer == old(frameBuffer) && listeners == old(listeners)
    {
      var payload := world.stringify(EnvelopeJson(e, false));
      var out := Frames.SplitPayload(payload, server.maxFrameLength);
      assert (sent + [e])[..|sent|] == sent;
      sent := sent + [e];
      frames := frames + out;
    }

    /** `authData()`: see AuthStep. */
    method AuthData(env: TestableClock.Env) returns (data: Option<Json>)
      requires Valid()
      modifies this
      ensures Valid()
      ensures (data, authToken) == old(Auth(env))
      ensures old(!TruthyOpt(authToken)) ==> data == None && authToken == old(authToken)
      ensures var decoded := old(server.tokenValidator.Decode(authToken, false, world.jwt, env));
        && (old(TruthyOpt(authToken)) && decoded.Err? ==> data == None && authToken == Some(Null))
        && (old(TruthyOpt(authToken)) && decoded.Ok? ==>
              Identity(decoded.value).Ok? && data == Some(Identity(decoded.value).value) && authToken == old(authToken))
      ensures sent == old(sent) && frameBuffer == old(frameBuffer) && listeners == old(listeners)
    {
      AuthStepOutcomes(authToken, server.tokenValidator, world.jwt, env);
      data := None;
      if TruthyOpt(authToken) {
        var decoded := server.tokenValidator.Decode(authToken, false, world.jwt, env);
        if decoded.Err? {
          authToken := Some(Null);
        } else {
          // A decode that passed the window check has claims with `nbf` or
          // `iat`, so `'d' in` cannot throw here.
          data := Some(Identity(decoded.value).value);
        }
      }
    }

    /** The common part of tryRead, tryPatch and tryWrite: targaryen judges
        the operation as the current auth data, and a denial is answered
        with `permission_denied`. */
    method Judge(requestId: Option<Json>, op: RuleOp, env: TestableClock.Env) returns (verdict: Verdict)
      requires Valid()
      modifies this
      ensures Valid()
      ensures authToken == old(Auth(env)).1
      ensures verdict == world.rules(server.targaryen, old(Auth(env)).0, op)
      ensures verdict.Allowed? ==> sent == old(sent)
      ensures verdict.Denied? ==> sent == old(sent) + [DeniedReply(requestId)]
      ensures frameBuffer == old(frameBuffer) && listeners == old(listeners)
    {
      var auth := AuthData(env);
      verdict := world.rules(server.targaryen, auth, op);
      if verdict.Denied? {
        Send(DeniedReply(requestId));
      }
    }

    /** `tryRead(requestId, path)`. */
    method TryRead(requestId: Option<Json>, path: string, env: TestableClock.Env) returns (allowed: bool)
      requires Valid()
      modifies this
      ensures Valid()
      ensures authToken == old(Auth(env)).1
      ensures allowed == world.rules(server.targaryen, old(Auth(env)).0, Read(path)).Allowed?
      ensures allowed ==> sent == old(sent)
      ensures !allowed ==> sent == old(sent) + [DeniedReply(requestId)]
      ensures frameBuffer == old(frameBuffer) && listeners == old(listeners)
    {
      var verdict := Judge(requestId, Read(path), env);
      allowed := verdict.Allowed?;
    }

    /** `tryPatch` and `tryWrite`: an allowed write replaces the server's
        targaryen database with the one the write produced. */
    method TryChange(requestId: Option<Json>, op: RuleOp, env: TestableClock.Env) returns (allowed: bool)
      requires Valid() && !op.Read?
      modifies this, server
      ensures Valid()
      ensures authToken == old(Auth(env)).1
      ensures var v := world.rules(old(server.targaryen), old(Auth(env)).0, op);
        && (allowed <==> v.Allowed?)
        && (allowed ==> server.targaryen == v.newDatabase && sent == old(sent))
        && (!allowed ==> server.targaryen == old(server.targaryen) && sent == old(sent) + [DeniedReply(requestId)])
      ensures server.store == old(server.store) && server.clock == old(server.clock)
        && server.authSecret == old(server.authSecret)
      ensures frameBuffer == old(frameBuffer) && listeners == old(listeners)
    {
      var verdict := Judge(requestId, op, env);
      allowed := verdict.Allowed?;
      if allowed {
        server.targaryen := verdict.newDatabase;
      }
    }

    /** One value event of listener `i`: the snapshot is pushed, and the
        first event (while the latch is up) also acks the listen. */
    method ValueEvent(i: nat)
      requires Valid() && i < |listeners|
      modifies this
      ensures Valid()
      ensures sent == old(sent) + EventReplies(old(listeners[i].requestId), old(listeners[i].path),
        old(listeners[i].sendOk), true, [Snapshot(server.store, old(listeners[i].query), world.query)])
      ensures listeners == old(listeners)[i := old(listeners[i]).(sendOk := false)]
      ensures authToken == old(authToken) && frameBuffer == old(frameBuffer)
    {
      var l := listeners[i];
      var snap := Snapshot(server.store, l.query, world.query);
      Send(Push(l.path, snap));
      if l.sendOk {
        listeners := listeners[i := l.(sendOk := false)];
        Send(OkReply(l.requestId));
      }
      assert [snap][1..] == [];
    }

    /** handleListen: a read denial answers `permission_denied` and
        subscribes nothing; otherwise the reference, refined by the query,
        is subscribed, and its first value event pushes the snapshot and
        acks. */
    twostate predicate ListenEffect(requestId: Option<Json>, path: Paths.NormalizedPath, fbRef: Ref, q: Option<Json>,
                                    env: TestableClock.Env)
      requires old(Valid())
      reads this`authToken, this`listeners, this`sent, server`store, server`targaryen
    {
      && authToken == old(Auth(env)).1
      && server.store == old(server.store) && server.targaryen == old(server.targaryen)
      && (!world.rules(old(server.targaryen), old(Auth(env)).0, Read(path.path)).Allowed? ==>
            sent == old(sent) + [DeniedReply(requestId)] && listeners == old(listeners))
      && (world.rules(old(server.targaryen), old(Auth(env)).0, Read(path.path)).Allowed? ==>
            var query := if q.Some? && q.value.Obj?
              then Ref(fbRef.location, fbRef.directives + Paginate.Translate(q.value.fields, world.keysOf(q.value.fields)))
              else fbRef;
            && listeners == old(listeners) + [Listener(requestId, path.path, query, false)]
            && sent == old(sent) + EventReplies(requestId, path.path, true, true, [Snapshot(old(server.store), query, world.query)]))
    }

    method HandleListen(requestId: Option<Json>, path: Paths.NormalizedPath, fbRef: Ref, q: Option<Json>, env: TestableClock.Env)
      requires Valid()
      modifies this
      ensures Valid()
      ensures frameBuffer == old(frameBuffer)
      ensures ListenEffect(requestId, path, fbRef, q, env)
    {
      var allowed := TryRead(requestId, path.path, env);
      if !allowed {
        return;
      }
      if q.Some? && q.value.Obj? {
        var fields := q.value.fields;
        forall k | k in world.keysOf(fields)
          ensures k in fields
        {
          assert k in KeyOrder.Elems(world.keysOf(fields));
        }
      }
      var query := Paginate.PaginateRef(fbRef, q, world.keysOf);
      listeners := listeners + [Listener(requestId, path.path, query, true)];
      ValueEvent(|listeners| - 1);
    }

    /** The time a handler stamps with. */
    function Now(env: TestableClock.Env): real
      reads server
    {
      ServerNow(server.clock, env)
    }

    /** handleUpdate: sentinels take the server time, targaryen judges the
        patch, and only an allowed one reaches the store (the Firebase
        client's update merges an object's keys into the node) and is
        acked. */
    twostate predicate UpdateEffect(requestId: Option<Json>, path: Paths.NormalizedPath, fbRef: Ref, newData: Option<Json>,
                                    env: TestableClock.Env)
      requires old(Valid())
      reads this`authToken, this`listeners, this`sent, server`store, server`targaryen
    {
      && authToken == old(Auth(env)).1 && listeners == old(listeners)
      && var now := old(Now(env));
        var data := ServerTimestamp.SubstituteOpt(newData, now);
        var v := world.rules(old(server.targaryen), old(Auth(env)).0, Patch(path.path, data, now));
        && (v.Denied? ==> (sent == old(sent) + [DeniedReply(requestId)]
              && server.targaryen == old(server.targaryen) && server.store == old(server.store)))
        && (v.Allowed? ==> server.targaryen == v.newDatabase)
        && (v.Allowed? && StoreUpdate(old(server.store), fbRef.location, data).Some? ==>
              server.store == StoreUpdate(old(server.store), fbRef.location, data).value
              && sent == old(sent) + [OkReply(requestId)])
        && (v.Allowed? && StoreUpdate(old(server.store), fbRef.location, data).None? ==>
              server.store == old(server.store) && sent == old(sent))
    }

    method HandleUpdate(requestId: Option<Json>, path: Paths.NormalizedPath, fbRef: Ref, newData: Option<Json>, env: TestableClock.Env)
      requires Valid()
      modifies this, server
      ensures Valid()
      ensures frameBuffer == old(frameBuffer)
      ensures server.clock == old(server.clock) && server.authSecret == old(server.authSecret)
      ensures UpdateEffect(requestId, path, fbRef, newData, env)
    {
      var now := Now(env);
      var data := ServerTimestamp.SubstituteOpt(newData, now);
      var allowed := TryChange(requestId, Patch(path.path, data, now), env);
      if !allowed {
        return;
      }
      var updated := StoreUpdate(server.store, fbRef.location, data);
      if updated.None? {
        return;
      }
      server.store := updated.value;
      Send(OkReply(requestId));
    }

    /** handleSet, stage by stage: sentinels take the server time; on a
        priority path the data is folded into the parent's value; targaryen
        judges the write (and, allowing it, has already replaced its
        database); a defined hash must match the hash of the node's current
        value, else the value is pushed back with `datastale` and nothing
        is stored; then the store is set and the set acked. A rejected
        stage stops every later one. The Firebase client refuses to set a
        value holding `undefined`. */
    twostate predicate SetEffect(requestId: Option<Json>, path: Paths.NormalizedPath, fbRef: Ref, newData: Option<Json>,
                                 hash: Option<Json>, env: TestableClock.Env)
      requires old(Valid())
      reads this`authToken, this`listeners, this`sent, server`store, server`targaryen
    {
      && authToken == old(Auth(env)).1 && listeners == old(listeners)
      && var now := old(Now(env));
        var data := ServerTimestamp.SubstituteOpt(newData, now);
        var current := ExportVal(old(server.store), fbRef.location);
        var toWrite := if path.isPriorityPath then Some(FoldPriority(current, data)) else data;
        var v := world.rules(old(server.targaryen), old(Auth(env)).0, Write(path.path, toWrite, now));
        var stale := hash.Some? && hash != Some(Str(FirebaseHash.Hash(current, world.hp)));
        && (v.Denied? ==> (sent == old(sent) + [DeniedReply(requestId)]
              && server.targaryen == old(server.targaryen) && server.store == old(server.store)))
        && (v.Allowed? ==> server.targaryen == v.newDatabase)
        && (v.Allowed? && stale ==> (sent == old(sent) + [Push(path.path, current), StaleReply(requestId)]
              && server.store == old(server.store)))
        && (v.Allowed? && !stale && data.Some? ==>
              server.store == old(server.store)[fbRef.location := toWrite.value]
              && sent == old(sent) + [OkReply(requestId)])
        && (v.Allowed? && !stale && data.None? ==> server.store == old(server.store) && sent == old(sent))
    }

    method HandleSet(requestId: Option<Json>, path: Paths.NormalizedPath, fbRef: Ref, newData: Option<Json>,
                     hash: Option<Json>, env: TestableClock.Env)
      requires Valid()
      modifies this, server
      ensures Valid()
      ensures frameBuffer == old(frameBuffer)
      ensures server.clock == old(server.clock) && server.authSecret == old(server.authSecret)
      ensures SetEffect(requestId, path, fbRef, newData, hash, env)
    {
      var now := Now(env);
      var data := ServerTimestamp.SubstituteOpt(newData, now);
      var current := ExportVal(server.store, fbRef.location);
      var toWrite := if path.isPriorityPath then Some(FoldPriority(current, data)) else data;
      var allowed := TryChange(requestId, Write(path.path, toWrite, now), env);
      if !allowed {
        return;
      }
      CommitSet(requestId, path.path, fbRef.location, current, data, toWrite, hash);
    }

    /** The stages of handleSet after the rules allowed the write: a
        given hash that differs from the current value's pushes that value
        back and sends `datastale`; otherwise a defined value is stored
        and the set acked. */
    method CommitSet(requestId: Option<Json>, path: string, location: Location, current: Json,
                     data: Option<Json>, toWrite: Option<Json>, hash: Option<Json>)
      requires Valid() && current == ExportVal(server.store, location)
      requires data.Some? ==> toWrite.Some?
      modifies this, server
      ensures Valid()
      ensures authToken == old(authToken) && frameBuffer == old(frameBuffer) && listeners == old(listeners)
      ensures server.clock == old(server.clock) && server.authSecret == old(server.authSecret)
        && server.targaryen == old(server.targaryen)
      ensures var stale := hash.Some? && hash != Some(Str(FirebaseHash.Hash(current, world.hp)));
        && (stale ==> (sent == old(sent) + [Push(path, current), StaleReply(requestId)]
              && server.store == old(server.store)))
        && (!stale && data.Some? ==> (server.store == old(server.store)[location := toWrite.value]
              && sent == old(sent) + [OkReply(requestId)]))
        && (!stale && data.None? ==> server.store == old(server.store) && sent == old(sent))
    {
      if hash.Some? {
        var calculated := FirebaseHash.GetFirebaseHash(current, world.hp, world.keysOf);
        if hash != Some(Str(calculated)) {
          Send(Push(path, current));
          Send(StaleReply(requestId));
          return;
        }
      }
      if data.None? {
        return;
      }
      server.store := server.store[location := toWrite.value];
      Send(OkReply(requestId));
    }

    /** handleAuth: a credential `===` the auth secret (both undefined
        included) is answered with the admin claims and is not stored;
        otherwise a token that decodes is stored and answered with its
        normalised claims, and one that does not is answered with
        `invalid_token`, the old token kept. Normalize cannot throw inside
        the `try`: claims it would throw on fail decoding's window check. */
    twostate predicate AuthEffect(requestId: Option<Json>, credential: Option<Json>, env: TestableClock.Env)
      requires old(Valid())
      reads this`authToken, this`listeners, this`sent, server`store, server`targaryen
    {
      && listeners == old(listeners)
      && server.store == old(server.store) && server.targaryen == old(server.targaryen)
      && (StrictEquals(old(server.authSecret), credential) ==>
            authToken == old(authToken)
            && sent == old(sent) + [Reply(requestId, OkStatus, Obj(map["auth" := Null, "admin" := Bool(true), "expires" := Null]))])
      && (!StrictEquals(old(server.authSecret), credential) ==>
            var decoded := old(server.tokenValidator.Decode(credential, false, world.jwt, env));
            && (decoded.Ok? ==> (Tokens.Normalize(decoded.value).Ok? && authToken == credential
                  && sent == old(sent) + [Reply(requestId, OkStatus, Obj(Tokens.Normalize(decoded.value).value))]))
            && (decoded.Err? ==> authToken == old(authToken) && sent == old(sent) + [InvalidTokenReply(requestId)]))
    }

    method HandleAuth(requestId: Option<Json>, credential: Option<Json>, env: TestableClock.Env)
      requires Valid()
      modifies this
      ensures Valid()
      ensures frameBuffer == old(frameBuffer)
      ensures AuthEffect(requestId, credential, env)
    {
      if StrictEquals(server.authSecret, credential) {
        Tokens.AdminClaims();
        Send(Reply(requestId, OkStatus, Obj(Tokens.Normalize(ADMIN_CLAIMS).value)));
        return;
      }
      var decoded := server.tokenValidator.Decode(credential, false, world.jwt, env);
      if decoded.Ok? {
        authToken := credential;
        Tokens.VerifiedClaimsNormalize(server.tokenValidator, credential, world.jwt, env);
        Send(Reply(requestId, OkStatus, Obj(Tokens.Normalize(decoded.value).value)));
      } else {
        Send(InvalidTokenReply(requestId));
      }
    }

    /** The handler a routed request goes to; the frame buffer is left
        as `rest` (the handlers never read it). */
    method Handle(request: Request, rest: string, env: TestableClock.Env)
      requires Valid()
      modifies this, server
      ensures Valid()
      ensures frameBuffer == rest
      ensures server.clock == old(server.clock) && server.authSecret == old(server.authSecret)
      ensures request.ListenRequest? ==> ListenEffect(request.requestId, request.path, request.ref, request.query, env)
      ensures request.UpdateRequest? ==> UpdateEffect(request.requestId, request.path, request.ref, request.data, env)
      ensures request.SetRequest? ==> SetEffect(request.requestId, request.path, request.ref, request.data, request.hash, env)
      ensures request.AuthRequest? ==> AuthEffect(request.requestId, request.credential, env)
      ensures request.NoRequest? ==> (sent == old(sent) && listeners == old(listeners) && authToken == old(authToken)
        && server.store == old(server.store) && server.targaryen == old(server.targaryen))
    {
      match request {
        case ListenRequest(requestId, path, ref, query) => HandleListen(requestId, path, ref, query, env);
        case UpdateRequest(requestId, path, ref, d) => HandleUpdate(requestId, path, ref, d, env);
        case SetRequest(requestId, path, ref, d, hash) => HandleSet(requestId, path, ref, d, hash, env);
        case AuthRequest(requestId, credential) => HandleAuth(requestId, credential, env);
        case NoRequest =>
      }
      frameBuffer := rest;
    }

    /** The socket's message handler: a frame that is exactly '0' is
        ignored; any other is accumulated; a complete message with
        `t === 'd'` is routed to its handler. Returns the request handled. */
    method OnMessage(data: string, env: TestableClock.Env) returns (handled: Option<Request>)
      requires Valid()
      modifies this, server
      ensures Valid()
      ensures data == "0" ==> handled == None && frameBuffer == old(frameBuffer)
      ensures data != "0" ==>
        && frameBuffer == Frames.Accumulate(old(frameBuffer), data, world.parse).1
        && handled == Dispatch(Frames.Accumulate(old(frameBuffer), data, world.parse).0)
      ensures handled.None? ==> (sent == old(sent) && listeners == old(listeners) && authToken == old(authToken)
        && server.store == old(server.store) && server.targaryen == old(server.targaryen))
      ensures handled.Some? && handled.value.ListenRequest? ==>
        var r := handled.value; ListenEffect(r.requestId, r.path, r.ref, r.query, env)
      ensures handled.Some? && handled.value.UpdateRequest? ==>
        var r := handled.value; UpdateEffect(r.requestId, r.path, r.ref, r.data, env)
      ensures handled.Some? && handled.value.SetRequest? ==>
        var r := handled.value; SetEffect(r.requestId, r.path, r.ref, r.data, r.hash, env)
      ensures handled.Some? && handled.value.AuthRequest? ==>
        var r := handled.value; AuthEffect(r.requestId, r.credential, env)
      ensures server.clock == old(server.clock) && server.authSecret == old(server.authSecret)
    {
      if data == "0" {
        return None;
      }
      var accumulated := Frames.Accumulate(frameBuffer, data, world.parse);
      handled := Dispatch(accumulated.0);
      if handled.Some? {
        Handle(handled.value, accumulated.1, env);
      } else {
        frameBuffer := accumulated.1;
      }
    }
  }
}
