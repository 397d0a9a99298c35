/** What the session handlers work against: the data tree (the Firebase
    client's offline store), the rule engines, and the envelopes the server
    writes back to its client. */
module Backend {
  import opened Wrappers
  import opened Js
  import opened Refs

  /** The data tree, kept as a map from location to the value stored there;
      a location never written holds null. */
  type Store = map<Location, Json>

  /** `snap.exportVal()` of a reference's value event. */
  function ExportVal(store: Store, loc: Location): Json
  {
    if loc in store then store[loc] else Null
  }

  /** `ref.set(value)`: the Firebase client refuses a value that is or holds
      `undefined` (None); anything else replaces the node. */
  function StoreSet(store: Store, loc: Location, value: Option<Json>): (r: Option<Store>)
    ensures r.Some? <==> value.Some?
    ensures r.Some? ==> ExportVal(r.value, loc) == value.value
    ensures r.Some? ==> forall other :: other != loc ==> ExportVal(r.value, other) == ExportVal(store, other)
  {
    match value
    case None => None
    case Some(v) => Some(store[loc := v])
  }

  /** The own enumerable properties lodash copies from a value: those of an
      object, none otherwise. */
  function OwnFields(v: Option<Json>): map<string, Json>
  {
    if v.Some? && v.value.Obj? then v.value.fields else map[]
  }

  /** `_.assign(object, source)`: the object's properties overwritten, key by
      key, by the source's. */
  function Assign(target: Json, source: Option<Json>): (r: Json)
    ensures r.Obj?
    ensures r.fields.Keys == OwnFields(Some(target)).Keys + OwnFields(source).Keys
    ensures forall k :: k in OwnFields(source) ==> r.fields[k] == OwnFields(source)[k]
    ensures forall k :: k in OwnFields(Some(target)) && k !in OwnFields(source) ==>
      r.fields[k] == OwnFields(Some(target))[k]
  {
    Obj(OwnFields(Some(target)) + OwnFields(source))
  }

  /** `ref.update(value)`: the Firebase client accepts only an object, whose
      top-level keys then replace the node's own. */
  function StoreUpdate(store: Store, loc: Location, value: Option<Json>): (r: Option<Store>)
    ensures r.Some? <==> value.Some? && value.value.Obj?
    ensures r.Some? ==> ExportVal(r.value, loc) == Assign(ExportVal(store, loc), value)
    ensures r.Some? ==> forall other :: other != loc ==> ExportVal(r.value, other) == ExportVal(store, other)
  {
    if value.Some? && value.value.Obj? then Some(store[loc := Assign(ExportVal(store, loc), value)])
    else None
  }

  /** An update is a set of the merge: the node ends as `_.assign` of what
      it held and the update, and every other location is untouched. */
  lemma UpdateIsSetOfMerge(store: Store, loc: Location, value: Option<Json>)
    requires value.Some? && value.value.Obj?
    ensures StoreUpdate(store, loc, value) == StoreSet(store, loc, Some(Assign(ExportVal(store, loc), value)))
  {
  }

  /** Merging with an empty object keeps an object's fields, and turns
      anything else into the empty object. */
  lemma AssignEmpty(target: Json)
    ensures Assign(target, Some(Obj(map[]))) == Obj(OwnFields(Some(target)))
    ensures target.Obj? ==> Assign(target, Some(Obj(map[]))) == target
  {
  }

  /** One operation put to targaryen, with the time a write is judged at. */
  datatype RuleOp =
    | Read(path: string)
    | Write(path: string, data: Option<Json>, now: real)
    | Patch(path: string, data: Option<Json>, now: real)

  /** A targaryen database: its rules and its own copy of the data, which
      an allowed write replaces. */
  datatype Db = Db(rules: Json, data: Json)

  datatype Verdict = Denied | Allowed(newDatabase: Db)

  /** `db.as(auth).read/write/update(...)`. */
  type RuleEngine = (Db, Option<Json>, RuleOp) -> Verdict

  /** The rules a new server starts with: everyone may read and write. */
  const OPEN_RULES: Json := Obj(map[".read" := Bool(true), ".write" := Bool(true)])

  /** The older modular version's ruleset: `tryRead(path, root, auth)` and
      `tryWrite(path, root, newData, auth)`, answering only whether the
      operation is allowed. The root snapshot it judges against is the
      whole data tree. */
  datatype LegacyOp = ReadAt(path: string) | WriteAt(path: string, newData: Option<Json>)

  type LegacyRuleset = (LegacyOp, Store, Option<Json>) -> bool

  /** The status a reply carries. */
  datatype Status = OkStatus | PermissionDenied | DataStale | InvalidToken

  function StatusCode(s: Status): (r: string)
    ensures r in {"ok", "permission_denied", "datastale", "invalid_token"}
  {
    match s
    case OkStatus => "ok"
    case PermissionDenied => "permission_denied"
    case DataStale => "datastale"
    case InvalidToken => "invalid_token"
  }

  function StatusOf(code: string): (r: Option<Status>)
    ensures r.Some? ==> StatusCode(r.value) == code
  {
    if code == "ok" then Some(OkStatus)
    else if code == "permission_denied" then Some(PermissionDenied)
    else if code == "datastale" then Some(DataStale)
    else if code == "invalid_token" then Some(InvalidToken)
    else None
  }

  /** A message to the client: a data push for a path, or the reply to a
      request. */
  datatype Envelope =
    | Push(path: string, data: Json)
    | Reply(requestId: Option<Json>, status: Status, body: Json)

  function OkReply(requestId: Option<Json>): Envelope
  {
    Reply(requestId, OkStatus, Obj(map[]))
  }

  function DeniedReply(requestId: Option<Json>): Envelope
  {
    Reply(requestId, PermissionDenied, Str("Permission denied"))
  }

  function StaleReply(requestId: Option<Json>): Envelope
  {
    Reply(requestId, DataStale, Str("Transaction hash does not match"))
  }

  function InvalidTokenReply(requestId: Option<Json>): Envelope
  {
    Reply(requestId, InvalidToken, Str("Could not parse auth token."))
  }

  /** The object an envelope is sent as: a push is `{d: {a: 'd', b: {p, d}},
      t: 'd'}` (the older connection adds `t: null` to `b`), a reply
      `{d: {r, b: {s, d}}, t: 'd'}`, where an undefined request id is left
      out, as JSON.stringify leaves out undefined properties. */
  function EnvelopeJson(e: Envelope, legacy: bool): Json
  {
    match e
    case Push(path, data) =>
      var b := map["p" := Str(path), "d" := data];
      Obj(map["t" := Str("d"), "d" := Obj(map["a" := Str("d"), "b" := Obj(if legacy then b["t" := Null] else b)])])
    case Reply(requestId, status, body) =>
      var b := Obj(map["s" := Str(StatusCode(status)), "d" := body]);
      var d := if requestId.Some? then map["r" := requestId.value, "b" := b] else map["b" := b];
      Obj(map["t" := Str("d"), "d" := Obj(d)])
  }

  /** How a client reads an envelope: a data message with an action is a
      push, one without is a reply matched to its request by `r`. */
  function ReadEnvelope(j: Json): (r: Option<Envelope>)
    ensures r.Some? ==> Field(j, "t") == Some(Str("d"))
  {
    if Field(j, "t") != Some(Str("d")) then None
    else
      var d := GetPath(Some(j), ["d"]);
      var b := GetPath(d, ["b"]);
      if GetPath(d, ["a"]) == Some(Str("d")) then
        match (GetPath(b, ["p"]), GetPath(b, ["d"]))
        case (Some(Str(path)), Some(data)) => Some(Push(path, data))
        case _ => None
      else
        match (GetPath(b, ["s"]), GetPath(b, ["d"]))
        case (Some(Str(code)), Some(body)) =>
          (match StatusOf(code)
           case Some(status) => Some(Reply(GetPath(d, ["r"]), status, body))
           case None => None)
        case _ => None
  }

  /** Every envelope either generation sends reads back as itself: the
      request id, status and body of a reply, and the path and data of a
      push, survive the wire format. */
  lemma EnvelopeRoundTrip(e: Envelope, legacy: bool)
    ensures ReadEnvelope(EnvelopeJson(e, legacy)) == Some(e)
  {
    var j := EnvelopeJson(e, legacy);
    var d := GetPath(Some(j), ["d"]);
    match e
    case Push(path, data) =>
      assert GetPath(d, ["a"]) == Some(Str("d"));
      assert GetPath(GetPath(d, ["b"]), ["p"]) == Some(Str(path));
      assert GetPath(GetPath(d, ["b"]), ["d"]) == Some(data);
    case Reply(requestId, status, body) =>
      assert GetPath(d, ["a"]) == None;
      assert GetPath(GetPath(d, ["b"]), ["s"]) == Some(Str(StatusCode(status)));
      assert GetPath(GetPath(d, ["b"]), ["d"]) == Some(body);
      assert GetPath(d, ["r"]) == requestId;
      match status
      case OkStatus =>
      case PermissionDenied =>
      case DataStale =>
      case InvalidToken =>
  }

  /** So distinct envelopes are sent as distinct objects. */
  lemma EnvelopeJsonInjective(e1: Envelope, e2: Envelope, legacy: bool)
    requires EnvelopeJson(e1, legacy) == EnvelopeJson(e2, legacy)
    ensures e1 == e2
  {
    EnvelopeRoundTrip(e1, legacy);
    EnvelopeRoundTrip(e2, legacy);
  }

  /** The priority fold of a set on `<path>/.priority`: an object parent
      gets its `.priority` replaced and keeps every other key; any other
      parent, null included, is wrapped as `{'.value': parent, '.priority':
      data}`. An undefined `data` leaves `.priority` out, JSON-wise, of the
      object handed on. */
  function FoldPriority(parent: Json, data: Option<Json>): (r: Json)
    ensures r.Obj?
    ensures Field(r, ".priority") == data
    ensures parent.Obj? ==> forall k :: k in parent.fields && k != ".priority" ==>
      k in r.fields && r.fields[k] == parent.fields[k]
    ensures parent.Obj? ==> r.fields.Keys - {".priority"} == parent.fields.Keys - {".priority"}
    ensures !parent.Obj? ==> Field(r, ".value") == Some(parent) && r.fields.Keys <= {".value", ".priority"}
  {
    var wrapped := if parent.Obj? then parent.fields else map[".value" := parent];
    match data
    case Some(p) => Obj(wrapped[".priority" := p])
    case None => Obj(wrapped - {".priority"})
  }

  /** One `on('value')` subscription: the request it answers, the path its
      pushes name, the reference (refined by a query) it listens on, and
      the `sendOk` latch. */
  datatype Listener = Listener(requestId: Option<Json>, path: string, query: Ref, sendOk: bool)

  /** The envelopes one listener sends for successive value events: every
      event pushes the snapshot (in the older handler only a truthy one),
      and the first event, while the `sendOk` latch is still up, is
      followed by the ack. */
  function EventReplies(requestId: Option<Json>, path: string, sendOk: bool, pushFalsy: bool, snaps: seq<Json>): seq<Envelope>
    decreases |snaps|
  {
    if snaps == [] then []
    else
      (if pushFalsy || Truthy(snaps[0]) then [Push(path, snaps[0])] else [])
      + (if sendOk then [OkReply(requestId)] else [])
      + EventReplies(requestId, path, false, pushFalsy, snaps[1..])
  }

  function AckCount(es: seq<Envelope>, requestId: Option<Json>): nat
    decreases |es|
  {
    if es == [] then 0
    else (if es[0] == OkReply(requestId) then 1 else 0) + AckCount(es[1..], requestId)
  }

  lemma AckCountAppend(a: seq<Envelope>, b: seq<Envelope>, requestId: Option<Json>)
    ensures AckCount(a + b, requestId) == AckCount(a, requestId) + AckCount(b, requestId)
    decreases |a|
  {
    if a != [] {
      assert (a + b)[0] == a[0];
      assert (a + b)[1..] == a[1..] + b;
      AckCountAppend(a[1..], b, requestId);
    } else {
      assert a + b == b;
    }
  }

  /** A listener acknowledges its request exactly once over any run of one
      or more value events, and never again once the latch is down. */
  lemma {:induction false} AckedExactlyOnce(requestId: Option<Json>, path: string, sendOk: bool, pushFalsy: bool, snaps: seq<Json>)
    ensures AckCount(EventReplies(requestId, path, sendOk, pushFalsy, snaps), requestId)
      == if sendOk && snaps != [] then 1 else 0
    decreases |snaps|
  {
    if snaps != [] {
      var push := if pushFalsy || Truthy(snaps[0]) then [Push(path, snaps[0])] else [];
      var ack := if sendOk then [OkReply(requestId)] else [];
      var rest := EventReplies(requestId, path, false, pushFalsy, snaps[1..]);
      AckCountAppend(push + ack, rest, requestId);
      AckCountAppend(push, ack, requestId);
      assert AckCount(push, requestId) == 0 by {
        if push != [] {
          assert push[1..] == [];
        }
      }
      if sendOk {
        assert ack[1..] == [];
      }
      AckedExactlyOnce(requestId, path, false, pushFalsy, snaps[1..]);
    }
  }

  /** On the first event the push comes first and the ack right after it
      (index.ts), or the ack alone when the older handler has nothing truthy
      to push. */
  lemma FirstEventOrder(requestId: Option<Json>, path: string, pushFalsy: bool, snap: Json)
    ensures pushFalsy || Truthy(snap) ==>
      EventReplies(requestId, path, true, pushFalsy, [snap]) == [Push(path, snap), OkReply(requestId)]
    ensures !pushFalsy && !Truthy(snap) ==>
      EventReplies(requestId, path, true, pushFalsy, [snap]) == [OkReply(requestId)]
  {
    assert [snap][1..] == [];
  }
}
