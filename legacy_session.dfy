/** The older modular version's session: lib/server.js's FirebaseServer
    state, lib/auth-handler.js's per-connection AuthHandler, the
    ClientConnection's send helpers of lib/client-connection.js, and the
    handlers of lib/handle-listen.js, lib/handle-update.js and
    lib/handle-set.js. Each handler runs to completion before the next
    message is handled; a reply the source sends from a promise callback is
    appended when that callback runs. */
module LegacySession {
  import opened Wrappers
  import opened Js
  import opened Refs
  import opened Backend
  import Messages
  import Extract
  import ServerTimestamp
  import Tokens
  import TestableClock
  import FirebaseHash

  /** The collaborators this model takes as given: jwt-simple's decode,
      targaryen's `new Ruleset(rules)`, the order of Object.keys, and
      SHA-1/base64 with the double-to-hex step. */
  datatype LegacyWorld = LegacyWorld(
    jwt: Tokens.JwtDecode,
    ruleset: Json -> LegacyRuleset,
    keysOf: FirebaseHash.KeysOf,
    hp: FirebaseHash.Primitives)

  /** `replaceServerTimestamp(data, server._clock)` when the clock,
      whenever it is called during the walk, gives `reading`: the clock is
      called only for a payload holding a sentinel, and a clock that throws
      makes the whole replacement throw. */
  function Stamp(data: Option<Json>, reading: Result<real, TestableClock.ClockError>)
    : (r: Result<Option<Json>, TestableClock.ClockError>)
    ensures r.Err? <==> data.Some? && ServerTimestamp.HasSentinel(data.value) && reading.Err?
    ensures r.Ok? ==> (r.value.Some? <==> data.Some?)
    ensures r.Ok? && r.value.Some? ==> !ServerTimestamp.HasSentinel(r.value.value)
    ensures (data.None? || !ServerTimestamp.HasSentinel(data.value)) ==> r == Ok(data)
    ensures data.Some? && reading.Ok? ==> r == Ok(Some(ServerTimestamp.Substitute(data.value, reading.value)))
  {
    if data.Some? && ServerTimestamp.HasSentinel(data.value) then
      match reading
      case Err(e) => Err(e)
      case Ok(t) =>
        ServerTimestamp.NoSentinelLeft(data.value, t);
        Ok(Some(ServerTimestamp.Substitute(data.value, t)))
    else if data.Some? && reading.Ok? then
      ServerTimestamp.NoSentinelUnchanged(data.value, reading.value);
      Ok(data)
    else Ok(data)
  }

  /** `initialData || null`, the value the data store starts with. */
  function InitialValue(data: Option<Json>): (r: Json)
    ensures TruthyOpt(data) ==> r == data.value
    ensures !TruthyOpt(data) ==> r == Null
  {
    if TruthyOpt(data) then data.value else Null
  }

  /** The FirebaseServer of lib/server.js: the data store, the rules set
      by setRules, the server's testable clock and a token validator whose
      own clock proxies it. Clocks live in a registry; `clockId` is
      `server._clock`. */
  class LegacyServer {
    var store: Store
    var rules: Option<Json>
    const clocks: TestableClock.Clocks
    const clockId: nat
    const tokenValidator: Tokens.TokenValidator
    const world: LegacyWorld

    ghost predicate Valid()
      reads this, clocks, tokenValidator, tokenValidator.clocks
    {
      && clocks.Valid() && clockId < |clocks.sources| && |clocks.sources| == 2
      && tokenValidator.clocks == clocks && tokenValidator.Valid()
      && tokenValidator.clockId != clockId
      && clocks.sources[tokenValidator.clockId] == ClockRef(clockId)
      && FirebaseHash.Enumerates(world.keysOf)
    }

    /** `new FirebaseServer(port, name, data)`: the store holds `data ||
        null`; there is no ruleset; `_clock` reads the system time; the
        validator, `new TokenValidator(null, this._clock)`, has no secret
        and a clock that proxies `_clock`. */
    constructor (world: LegacyWorld, data: Option<Json>)
      requires FirebaseHash.Enumerates(world.keysOf)
      ensures Valid()
      ensures this.world == world
      ensures store == map[Root := InitialValue(data)] && rules == None
      ensures clocks.sources == [Undefined, ClockRef(clockId)]
      ensures tokenValidator.secret == Val(Null)
    {
      var registry := new TestableClock.Clocks();
      var serverClock := registry.NewClock(Undefined);
      var validator := Tokens.NewTokenValidator(registry, Val(Null), ClockRef(0));
      assert Tokens.Shuffle(Val(Null), ClockRef(0)) == (Val(Null), ClockRef(0));
      store := map[Root := InitialValue(data)];
      rules := None;
      clocks := registry;
      clockId := 0;
      tokenValidator := validator.value;
      this.world := world;
    }

    /** `setRules(rules)`: from now on every read and write is judged. */
    method SetRules(newRules: Json)
      requires Valid()
      modifies this
      ensures Valid()
      ensures rules == Some(newRules) && store == old(store)
    {
      rules := Some(newRules);
    }

    /** `setTime(newTime)`: `_clock.setTime`, which throws, and changes
        nothing, for a source it does not accept. The validator's clock
        follows, as it proxies `_clock`. */
    method SetTime(newTime: JsArg) returns (r: Result<(), TestableClock.ClockError>)
      requires Valid()
      requires newTime.ClockRef? ==> newTime.c < |clocks.sources|
      modifies clocks
      ensures Valid()
      ensures TestableClock.Acceptable(newTime) ==> r == Ok(()) && clocks.sources == old(clocks.sources)[clockId := newTime]
      ensures !TestableClock.Acceptable(newTime) ==> r == Err(TestableClock.InvalidTime) && clocks.sources == old(clocks.sources)
    {
      r := clocks.SetTime(clockId, newTime);
    }

    /** `setAuthSecret(newSecret)`: handed to the validator, which stores a
        falsy secret as null. */
    method SetAuthSecret(newSecret: JsArg)
      requires Valid()
      modifies tokenValidator
      ensures Valid()
      ensures tokenValidator.secret == Tokens.SecretOrNull(newSecret)
    {
      tokenValidator.SetSecret(newSecret);
    }

    /** What `server._clock()` returns, or throws, right now. */
    function Reading(env: TestableClock.Env): Result<real, TestableClock.ClockError>
      reads this, clocks, tokenValidator, tokenValidator.clocks
      requires Valid()
    {
      clocks.GetTime(clockId, env)
    }

    /** Whether the rules let `auth` perform `op` on the current tree; with
        no ruleset nothing is judged and everything is allowed. */
    function Permits(op: LegacyOp, auth: Option<Json>): bool
      reads this
    {
      rules.None? || world.ruleset(rules.value)(op, store, auth)
    }
  }

  /** The validator's clock proxies the server's, so a token is checked
      against the time that timestamps are stamped with: the two readings
      agree, overflow included (a server clock set to proxy itself or the
      validator's clock overflows through either). */
  lemma ValidatorFollowsServerClock(s: LegacyServer, env: TestableClock.Env)
    requires s.Valid()
    ensures var v := s.tokenValidator;
      v.clocks.GetTime(v.clockId, env) == s.Reading(env)
  {
    var sources := s.clocks.sources;
    var v := s.tokenValidator.clockId;
    var c := s.clockId;
    assert TestableClock.ReadClock(sources, v, env, 2) == TestableClock.ReadClock(sources, c, env, 1);
    match sources[c]
    case ClockRef(d) =>
      if d == c {
        TestableClock.SelfProxyOverflows(sources, c, env, 1);
        TestableClock.SelfProxyOverflows(sources, c, env, 2);
      } else {
        assert d == v;
        assert TestableClock.ReadClock(sources, c, env, 1) == TestableClock.ReadClock(sources, v, env, 0) == Err(TestableClock.StackOverflow);
        assert TestableClock.ReadClock(sources, c, env, 2) == TestableClock.ReadClock(sources, v, env, 1);
        assert TestableClock.ReadClock(sources, v, env, 1) == TestableClock.ReadClock(sources, c, env, 0) == Err(TestableClock.StackOverflow);
      }
    case _ =>
  }

  /** `authData()` in the older generation: nothing without a truthy
      token; the decoded token's `d` claim when decoding succeeds; and on a
      failure nothing, the token being cleared to null. */
  function AuthStep(token: Option<Json>, v: Tokens.TokenValidator, jwt: Tokens.JwtDecode, env: TestableClock.Env)
    : (r: (Option<Json>, Option<Json>))
    reads v, v.clocks
    requires v.Valid()
    ensures r.1 == token || r.1 == Some(Null)
    ensures r.1 != token ==> r.0 == None
    ensures TruthyOpt(token) && v.Decode(token, false, jwt, env).Err? ==> r == (None, Some(Null))
  {
    if !TruthyOpt(token) then (None, token)
    else
      match v.Decode(token, false, jwt, env)
      case Err(_) => (None, Some(Null))
      case Ok(decoded) =>
        match Prop(Some(decoded), "d")
        case Err(_) => (None, Some(Null))
        case Ok(d) => (d, token)
  }

  /** A failing token is cleared and the next call finds nothing; a token
      that decodes is kept and yields its `d` claim. */
  lemma AuthStepOutcomes(token: Option<Json>, v: Tokens.TokenValidator, jwt: Tokens.JwtDecode, env: TestableClock.Env, env2: TestableClock.Env)
    requires v.Valid()
    ensures !TruthyOpt(token) ==> AuthStep(token, v, jwt, env) == (None, token)
    ensures TruthyOpt(token) && v.Decode(token, false, jwt, env).Err? ==>
      AuthStep(token, v, jwt, env) == (None, Some(Null)) && AuthStep(Some(Null), v, jwt, env2) == (None, Some(Null))
    ensures TruthyOpt(token) && v.Decode(token, false, jwt, env).Ok? ==>
      AuthStep(token, v, jwt, env) == (Field(v.Decode(token, false, jwt, env).value, "d"), token)
  {
    if TruthyOpt(token) && v.Decode(token, false, jwt, env).Ok? {
      var decoded := v.Decode(token, false, jwt, env).value;
      assert Tokens.WindowHolds(decoded, Num(v.Now(env).value as real)) == Ok(true);
      assert decoded != Null;
    }
  }

  /** The ClientConnection as the handlers see it: its server, its
      AuthHandler (`connection.auth`), the envelopes sent so far, each as
      `JSON.stringify` of its legacy wire form (EnvelopeJson with
      `legacy` set), and the value listeners it has subscribed. */
  class LegacyConnection {
    const server: LegacyServer
    const auth: AuthHandler
    var sent: seq<Envelope>
    var listeners: seq<Listener>

    ghost predicate Valid()
      reads this, auth, server, server.clocks, server.tokenValidator, server.tokenValidator.clocks
    {
      auth.server == server && server.Valid()
    }

    /** `handleConnection`: a new connection and its AuthHandler; nothing
        sent (the handshake is left out) and nothing subscribed. */
    constructor (server: LegacyServer, auth: AuthHandler)
      requires server.Valid() && auth.server == server
      ensures Valid()
      ensures this.server == server && this.auth == auth
      ensures sent == [] && listeners == []
    {
      this.server := server;
      this.auth := auth;
      sent := [];
      listeners := [];
    }

    /** `send(message)`. */
    method Send(e: Envelope)
      modifies this
      ensures sent == old(sent) + [e] && listeners == old(listeners)
    {
      sent := sent + [e];
    }

    /** `pushData(path, data)`: a data push, its `t` null. */
    method PushData(path: string, data: Json)
      modifies this
      ensures sent == old(sent) + [Push(path, data)] && listeners == old(listeners)
      ensures EnvelopeJson(sent[|sent| - 1], true) == Obj(map["t" := Str("d"),
        "d" := Obj(map["a" := Str("d"), "b" := Obj(map["p" := Str(path), "d" := data, "t" := Null])])])
    {
      Send(Push(path, data));
      assert map["p" := Str(path), "d" := data]["t" := Null] == map["p" := Str(path), "d" := data, "t" := Null];
    }

    /** `fbRef.on('value', ...)` and its first event: the listener is
        added with its `sendOk` latch up, a truthy value is pushed, then
        the latch drops and the ack goes out. */
    method Subscribe(requestId: Option<Json>, path: string, fbRef: Ref)
      modifies this
      ensures listeners == old(listeners) + [Listener(requestId, path, fbRef, false)]
      ensures sent == old(sent) + EventReplies(requestId, path, true, false, [ExportVal(server.store, fbRef.location)])
    {
      listeners := listeners + [Listener(requestId, path, fbRef, true)];
      var i := |listeners| - 1;
      var snap := ExportVal(server.store, fbRef.location);
      if Truthy(snap) {
        PushData(path, snap);
      }
      ghost var subscribed := listeners;
      listeners := listeners[i := listeners[i].(sendOk := false)];
      assert listeners == subscribed[..i] + [Listener(requestId, path, fbRef, false)];
      Send(OkReply(requestId));
      FirstEventOrder(requestId, path, false, snap);
    }

    /** `permissionDenied(requestId)`. */
    method PermissionDenied(requestId: Option<Json>)
      modifies this
      ensures sent == old(sent) + [DeniedReply(requestId)] && listeners == old(listeners)
    {
      Send(DeniedReply(requestId));
    }
  }

  /** The AuthHandler: the server it delegates to and the connection's
      auth token, null at first. */
  class AuthHandler {
    const server: LegacyServer
    var authToken: Option<Json>

    constructor (server: LegacyServer)
      ensures this.server == server && authToken == Some(Null)
    {
      this.server := server;
      authToken := Some(Null);
    }

    /** `authData()` on the current token: the auth data and the token
        left behind. */
    function Auth(env: TestableClock.Env): (Option<Json>, Option<Json>)
      reads this, server, server.clocks, server.tokenValidator, server.tokenValidator.clocks
      requires server.Valid()
    {
      AuthStep(authToken, server.tokenValidator, server.world.jwt, env)
    }

    /** Whether a check of `op` passes: with no ruleset it passes without
        a look at the token; otherwise the rules judge it against the whole
        tree as the current auth data. */
    function Passes(op: LegacyOp, env: TestableClock.Env): bool
      reads this, server, server.clocks, server.tokenValidator, server.tokenValidator.clocks
      requires server.Valid()
    {
      server.Permits(op, Auth(env).0)
    }

    /** The token a check of `op` leaves: only a ruleset makes it call
        authData, which may clear the token. */
    function TokenAfter(env: TestableClock.Env): Option<Json>
      reads this, server, server.clocks, server.tokenValidator, server.tokenValidator.clocks
      requires server.Valid()
    {
      if server.rules.None? then authToken else Auth(env).1
    }

    /** `authData()`: see AuthStep. */
    method AuthData(env: TestableClock.Env) returns (data: Option<Json>)
      requires server.Valid()
      modifies this
      ensures (data, authToken) == old(Auth(env))
    {
      data := None;
      if TruthyOpt(authToken) {
        var decoded := server.tokenValidator.Decode(authToken, false, server.world.jwt, env);
        if decoded.Err? {
          authToken := Some(Null);
        } else {
          // A decode that passed the window check returned an object, so
          // reading its `d` cannot throw here.
          AuthStepOutcomes(authToken, server.tokenValidator, server.world.jwt, env, env);
          data := Field(decoded.value, "d");
        }
      }
    }

    /** The common part of tryRead and tryWrite: with a ruleset, the rules
        judge `op` as the current auth data and a denial is answered with
        `permission_denied` for the message's request. */
    method Check(requestId: Option<Json>, op: LegacyOp, connection: LegacyConnection, env: TestableClock.Env)
      returns (allowed: bool)
      requires connection.Valid() && connection.auth == this
      modifies this, connection
      ensures connection.Valid()
      ensures allowed == old(Passes(op, env))
      ensures authToken == old(TokenAfter(env))
      ensures allowed ==> connection.sent == old(connection.sent)
      ensures !allowed ==> connection.sent == old(connection.sent) + [DeniedReply(requestId)]
      ensures connection.listeners == old(connection.listeners)
    {
      if server.rules.None? {
        return true;
      }
      var data := AuthData(env);
      allowed := server.world.ruleset(server.rules.value)(op, server.store, data);
      if !allowed {
        connection.PermissionDenied(requestId);
      }
    }

    /** `tryRead(message, connection)`: the read of `message.path`. */
    method TryRead(message: Messages.Message, connection: LegacyConnection, env: TestableClock.Env)
      returns (allowed: bool)
      requires connection.Valid() && connection.auth == this
      modifies this, connection
      ensures connection.Valid()
      ensures allowed == old(Passes(ReadAt(message.path), env))
      ensures authToken == old(TokenAfter(env))
      ensures allowed ==> connection.sent == old(connection.sent)
      ensures !allowed ==> connection.sent == old(connection.sent) + [DeniedReply(message.requestId)]
      ensures connection.listeners == old(connection.listeners)
    {
      allowed := Check(message.requestId, ReadAt(message.path), connection, env);
    }

    /** `tryWrite(message, connection, newData)`: the write of `newData`
        at `message.path`. */
    method TryWrite(message: Messages.Message, connection: LegacyConnection, newData: Option<Json>, env: TestableClock.Env)
      returns (allowed: bool)
      requires connection.Valid() && connection.auth == this
      modifies this, connection
      ensures connection.Valid()
      ensures allowed == old(Passes(WriteAt(message.path, newData), env))
      ensures authToken == old(TokenAfter(env))
      ensures allowed ==> connection.sent == old(connection.sent)
      ensures !allowed ==> connection.sent == old(connection.sent) + [DeniedReply(message.requestId)]
      ensures connection.listeners == old(connection.listeners)
    {
      allowed := Check(message.requestId, WriteAt(message.path, newData), connection, env);
    }

    /** `handleAuth(message, connection)`: a credential that decodes is
        stored and answered with its normalised claims; one that does not
        is answered with `invalid_token`, the old token kept. There is no
        auth-secret shortcut in this generation. Normalize cannot throw
        inside the `try`: claims it would throw on fail decoding's window
        check. */
    method HandleAuth(message: Messages.Message, connection: LegacyConnection, env: TestableClock.Env)
      requires connection.Valid() && connection.auth == this
      modifies this, connection
      ensures connection.Valid() && connection.listeners == old(connection.listeners)
      ensures var decoded := server.tokenValidator.Decode(message.credentials, false, server.world.jwt, env);
        && (decoded.Ok? ==> (Tokens.Normalize(decoded.value).Ok? && authToken == message.credentials
              && connection.sent == old(connection.sent)
                   + [Reply(message.requestId, OkStatus, Obj(Tokens.Normalize(decoded.value).value))]))
        && (decoded.Err? ==> (authToken == old(authToken)
              && connection.sent == old(connection.sent) + [InvalidTokenReply(message.requestId)]))
    {
      var decoded := server.tokenValidator.Decode(message.credentials, false, server.world.jwt, env);
      if decoded.Ok? {
        authToken := message.credentials;
        Tokens.VerifiedClaimsNormalize(server.tokenValidator, message.credentials, server.world.jwt, env);
        connection.Send(Reply(message.requestId, OkStatus, Obj(Tokens.Normalize(decoded.value).value)));
      } else {
        connection.Send(InvalidTokenReply(message.requestId));
      }
    }
  }

  /** handleListen: the request id, path and reference come from the raw
      envelope (a missing `d` or `d.b`, or a path that is not a string,
      throws before anything happens); a read denial subscribes nothing;
      otherwise the node's value listener is subscribed and its first event
      pushes the value only when it is truthy, then acks. */
  method HandleListen(message: Messages.Message, connection: LegacyConnection, env: TestableClock.Env)
    requires connection.Valid()
    modifies connection, connection.auth
    ensures connection.Valid()
    ensures Extract.ExtractPath(message.raw).Err? ==>
      connection.sent == old(connection.sent) && connection.listeners == old(connection.listeners)
      && connection.auth.authToken == old(connection.auth.authToken)
    ensures Extract.ExtractPath(message.raw).Ok? ==>
      var requestId := Extract.RequestId(message.raw);
      var path := Extract.ExtractPath(message.raw).value.path;
      var fbRef := Extract.ExtractFbRef(message.raw, BaseRef).value;
      && connection.auth.authToken == old(connection.auth.TokenAfter(env))
      && (!old(connection.auth.Passes(ReadAt(message.path), env)) ==>
            connection.sent == old(connection.sent) + [DeniedReply(message.requestId)]
            && connection.listeners == old(connection.listeners))
      && (old(connection.auth.Passes(ReadAt(message.path), env)) ==>
            connection.listeners == old(connection.listeners) + [Listener(requestId, path, fbRef, false)]
            && connection.sent == old(connection.sent)
                 + EventReplies(requestId, path, true, false, [ExportVal(connection.server.store, fbRef.location)]))
  {
    var requestId := Extract.RequestId(message.raw);
    var np := Extract.ExtractPath(message.raw);
    if np.Err? {
      return;
    }
    var path := np.value.path;
    var fbRef := Extract.ExtractFbRef(message.raw, BaseRef).value;
    var allowed := connection.auth.TryRead(message, connection, env);
    if !allowed {
      return;
    }
    connection.Subscribe(requestId, path, fbRef);
  }

  /** handleUpdate: sentinels take the server clock's time first; with a
      ruleset, the write is judged on the shallow merge of the node's
      current value and the update; an allowed update hands the update
      itself (not the merge) to the store, which takes only an object, and
      is acked. */
  method HandleUpdate(message: Messages.Message, connection: LegacyConnection, env: TestableClock.Env)
    requires connection.Valid()
    modifies connection, connection.auth, connection.server
    ensures connection.Valid() && connection.listeners == old(connection.listeners)
    ensures connection.server.rules == old(connection.server.rules)
    ensures var server := connection.server;
      var stamped := Stamp(message.data, old(server.Reading(env)));
      var loc := RefFor(message.path).location;
      && (stamped.Err? ==> (connection.sent == old(connection.sent) && server.store == old(server.store)
            && connection.auth.authToken == old(connection.auth.authToken)))
      && (stamped.Ok? ==>
            var newData := stamped.value;
            var op := WriteAt(message.path, Some(Assign(ExportVal(old(server.store), loc), newData)));
            var updated := StoreUpdate(old(server.store), loc, newData);
            && connection.auth.authToken == old(connection.auth.TokenAfter(env))
            && (!old(connection.auth.Passes(op, env)) ==>
                  connection.sent == old(connection.sent) + [DeniedReply(message.requestId)]
                  && server.store == old(server.store))
            && (old(connection.auth.Passes(op, env)) && updated.None? ==>
                  connection.sent == old(connection.sent) && server.store == old(server.store))
            && (old(connection.auth.Passes(op, env)) && updated.Some? ==>
                  connection.sent == old(connection.sent) + [OkReply(message.requestId)]
                  && server.store == updated.value))
  {
    var server := connection.server;
    var fbRef := RefFor(message.path);
    var stamped := Stamp(message.data, server.Reading(env));
    if stamped.Err? {
      return;
    }
    var newData := stamped.value;
    if server.rules.Some? {
      var currentData := ExportVal(server.store, fbRef.location);
      var mergedData := Assign(currentData, newData);
      var allowed := connection.auth.TryWrite(message, connection, Some(mergedData), env);
      if !allowed {
        return;
      }
    }
    var updated := StoreUpdate(server.store, fbRef.location, newData);
    if updated.None? {
      return;
    }
    server.store := updated.value;
    connection.Send(OkReply(message.requestId));
  }

  /** The value handleSet hands to tryWrite and to the store: on a priority
      path, the data folded into the parent node's current value. */
  function SetValue(message: Messages.Message, store: Store, stamped: Option<Json>): (r: Option<Json>)
    ensures !message.isPriorityPath ==> r == stamped
    ensures message.isPriorityPath ==> r.Some? && r.value.Obj? && Field(r.value, ".priority") == stamped
  {
    if message.isPriorityPath then Some(FoldPriority(ExportVal(store, RefFor(message.path).location), stamped))
    else stamped
  }

  /** handleSet, stage by stage: sentinels take the server clock's time; on
      a priority path the data is folded into the parent's value; the write
      is judged; a defined hash must equal the hash of the node's current
      value, else that value is pushed back with `datastale` and nothing is
      stored; the store then takes the value (the Firebase client refuses
      one holding `undefined`), which is pushed back before the ack. A
      rejected stage stops every later one. */
  method HandleSet(message: Messages.Message, connection: LegacyConnection, env: TestableClock.Env)
    requires connection.Valid()
    modifies connection, connection.auth, connection.server
    ensures connection.Valid() && connection.listeners == old(connection.listeners)
    ensures connection.server.rules == old(connection.server.rules)
    ensures var server := connection.server;
      var stamped := Stamp(message.data, old(server.Reading(env)));
      var loc := RefFor(message.path).location;
      var current := ExportVal(old(server.store), loc);
      && (stamped.Err? ==> (connection.sent == old(connection.sent) && server.store == old(server.store)
            && connection.auth.authToken == old(connection.auth.authToken)))
      && (stamped.Ok? ==>
            var toWrite := SetValue(message, old(server.store), stamped.value);
            var allowed := old(connection.auth.Passes(WriteAt(message.path, toWrite), env));
            var stale := message.hash.Some? && message.hash != Some(Str(FirebaseHash.Hash(current, server.world.hp)));
            && connection.auth.authToken == old(connection.auth.TokenAfter(env))
            && (!allowed ==> (connection.sent == old(connection.sent) + [DeniedReply(message.requestId)]
                  && server.store == old(server.store)))
            && (allowed && stale ==> (connection.sent == old(connection.sent)
                  + [Push(message.path, current), StaleReply(message.requestId)]
                  && server.store == old(server.store)))
            && (allowed && !stale && stamped.value.None? ==>
                  connection.sent == old(connection.sent) && server.store == old(server.store))
            && (allowed && !stale && stamped.value.Some? ==>
                  server.store == old(server.store)[loc := toWrite.value]
                  && connection.sent == old(connection.sent)
                       + [Push(message.path, toWrite.value), OkReply(message.requestId)]))
  {
    var server := connection.server;
    var fbRef := RefFor(message.path);
    var path := message.path;
    var stamped := Stamp(message.data, server.Reading(env));
    if stamped.Err? {
      return;
    }
    var newData := SetValue(message, server.store, stamped.value);
    var allowed := connection.auth.TryWrite(message, connection, newData, env);
    if !allowed {
      return;
    }
    if message.hash.Some? {
      var current := ExportVal(server.store, fbRef.location);
      var calculatedHash := FirebaseHash.GetFirebaseHash(current, server.world.hp, server.world.keysOf);
      if message.hash != Some(Str(calculatedHash)) {
        connection.PushData(path, current);
        connection.Send(StaleReply(message.requestId));
        return;
      }
    }
    if stamped.value.None? {
      return;
    }
    server.store := server.store[fbRef.location := newData.value];
    connection.PushData(path, ExportVal(server.store, fbRef.location));
    connection.Send(OkReply(message.requestId));
  }
}
