/** lib/message.js: the older modular version's parsed envelope. The
    constructor computes every field once; nothing changes afterwards. */
module Messages {
  import opened Wrappers
  import opened Js
  import opened Actions
  import Paths

  datatype MessageError = SyntaxError | PathTypeError

  datatype Message = Message(
    raw: Json,
    rawAction: Option<Json>,
    action: Option<Action>,
    fullPath: string,
    isPriorityPath: bool,
    path: string,
    requestId: Option<Json>,
    data: Option<Json>,
    hash: Option<Json>,
    credentials: Option<Json>)

  /** `Mp.get(path, defaultValue)`: lodash's `_.get` on the raw envelope,
      with the path already split at its dots. */
  function Get(m: Message, path: seq<string>, defaultValue: Option<Json>): (r: Option<Json>)
    ensures GetPath(Some(m.raw), path).Some? ==> r == GetPath(Some(m.raw), path)
    ensures GetPath(Some(m.raw), path).None? ==> r == defaultValue
  {
    match GetPath(Some(m.raw), path)
    case Some(v) => Some(v)
    case None => defaultValue
  }

  /** `(path && path.substr(1)) || ''`: the first character is dropped,
      whatever it is; a falsy path gives ''; a truthy path that is not a
      string has no `substr` and throws. */
  function DropFirstChar(p: Option<Json>): (r: Result<string, MessageError>)
    ensures !TruthyOpt(p) ==> r == Ok("")
    ensures TruthyOpt(p) && p.value.Str? ==> r == Ok(p.value.s[1..])
    ensures TruthyOpt(p) && !p.value.Str? ==> r == Err(PathTypeError)
  {
    if !TruthyOpt(p) then Ok("")
    else if p.value.Str? then Ok(p.value.s[1..])
    else Err(PathTypeError)
  }

  /** `new Message(rawData)`; `parse` is JSON.parse, None standing for the
      SyntaxError it throws. */
  function NewMessage(rawData: Json, parse: string -> Option<Json>): (r: Result<Message, MessageError>)
    ensures rawData.Str? && parse(rawData.s).None? ==> r == Err(SyntaxError)
    ensures r.Ok? ==> r.value.raw == (if rawData.Str? then parse(rawData.s).value else rawData)
    ensures r.Ok? ==> var m := r.value;
      && m.rawAction == GetPath(Some(m.raw), ["d", "a"])
      && m.action == LookupAction(m.rawAction)
      && Ok(m.fullPath) == DropFirstChar(GetPath(Some(m.raw), ["d", "b", "p"]))
      && m.isPriorityPath == EndsWith(m.fullPath, ".priority")
      && m.path == Paths.LegacyNormalizePath(m.fullPath).path
      && m.requestId == GetPath(Some(m.raw), ["d", "r"])
      && m.data == GetPath(Some(m.raw), ["d", "b", "d"])
      && m.hash == GetPath(Some(m.raw), ["d", "b", "h"])
      && m.credentials == GetPath(Some(m.raw), ["d", "b", "cred"])
    ensures (!rawData.Str? || parse(rawData.s).Some?) ==>
      (r.Err? <==> DropFirstChar(GetPath(Some(if rawData.Str? then parse(rawData.s).value else rawData), ["d", "b", "p"])).Err?)
  {
    if rawData.Str? && parse(rawData.s).None? then Err(SyntaxError)
    else
      var raw := if rawData.Str? then parse(rawData.s).value else rawData;
      var rawAction := GetPath(Some(raw), ["d", "a"]);
      match DropFirstChar(GetPath(Some(raw), ["d", "b", "p"]))
      case Err(e) => Err(e)
      case Ok(fullPath) =>
        var isPriorityPath := Paths.MatchesPrioritySuffix(fullPath);
        var path := if isPriorityPath then Paths.StripPrioritySuffix(fullPath) else fullPath;
        Ok(Message(raw, rawAction, LookupAction(rawAction), fullPath, isPriorityPath, path,
          GetPath(Some(raw), ["d", "r"]), GetPath(Some(raw), ["d", "b", "d"]),
          GetPath(Some(raw), ["d", "b", "h"]), GetPath(Some(raw), ["d", "b", "cred"])))
  }

  /** The envelope `{d: {a, r, b: {p}}}` with the given action and path. */
  function Envelope(a: string, p: string): Json
  {
    Single("d", Obj(map["a" := Str(a), "r" := Num(1.0), "b" := Single("p", Str(p))]))
  }

  /** The unit-test vectors: the leading character is dropped before the
      suffix is looked for, and the action code is looked up. */
  lemma MessageVectors(parse: string -> Option<Json>)
    ensures var r := NewMessage(Envelope("l", "/a/b/c"), parse);
      r.Ok? && r.value.path == "a/b/c" && r.value.fullPath == "a/b/c" && !r.value.isPriorityPath
      && r.value.rawAction == Some(Str("l")) && r.value.action == Some(Listen)
  {
    EnvelopeFields("l", "/a/b/c");
    Paths.LegacyVectors();
    assert "/a/b/c"[1..] == "a/b/c";
  }

  lemma PriorityMessageVector(parse: string -> Option<Json>)
    ensures var r := NewMessage(Envelope("q", "/a/b/c/.priority"), parse);
      r.Ok? && r.value.path == "a/b/c" && r.value.fullPath == "a/b/c/.priority" && r.value.isPriorityPath
      && r.value.action == Some(Query)
  {
    EnvelopeFields("q", "/a/b/c/.priority");
    Paths.LegacyVectors();
    assert "/a/b/c/.priority"[1..] == "a/b/c/.priority";
  }

  /** The path and action an envelope carries. */
  lemma EnvelopeFields(a: string, p: string)
    ensures GetPath(Some(Envelope(a, p)), ["d", "b", "p"]) == Some(Str(p))
    ensures GetPath(Some(Envelope(a, p)), ["d", "a"]) == Some(Str(a))
  {
    var d := Obj(map["a" := Str(a), "r" := Num(1.0), "b" := Single("p", Str(p))]);
    assert Field(Envelope(a, p), "d") == Some(d);
    assert Field(d, "b") == Some(Single("p", Str(p)));
    assert GetPath(Some(Single("p", Str(p))), ["p"]) == Some(Str(p));
    assert ["d", "b", "p"][1..] == ["b", "p"];
    assert ["b", "p"][1..] == ["p"];
    assert ["d", "a"][1..] == ["a"];
  }

  /** A path of "/" or "" gives '' for both fields, and any first character
      is dropped, a slash or not. */
  lemma {:induction false} FirstCharacterDropped(parse: string -> Option<Json>, p: string)
    requires p == "/" || p == "" || p == "xa/b"
    ensures var r := NewMessage(Envelope("m", p), parse);
      r.Ok? && r.value.fullPath == (if p == "xa/b" then "a/b" else "")
      && r.value.path == r.value.fullPath && !r.value.isPriorityPath
  {
    EnvelopeFields("m", p);
  }
}
