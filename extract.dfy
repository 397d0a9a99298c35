/** lib/extract.js: accessors over a raw wire envelope, used by the older
    listen handler. */
module Extract {
  import opened Wrappers
  import opened Js
  import opened Refs
  import Paths
  import Messages

  /** `message.d.b.p`: a TypeError when `message.d` or `message.d.b` is
      missing or null. */
  function WirePath(message: Json): (r: Result<Option<Json>, TypeError>)
    ensures r.Ok? <==> (message.Obj? && "d" in message.fields && message.fields["d"] != Null
      && Field(message.fields["d"], "b").Some? && Field(message.fields["d"], "b").value != Null)
    ensures r.Ok? ==> r.value == GetPath(Some(message), ["d", "b", "p"])
  {
    match Prop(Some(message), "d")
    case Err(e) => Err(e)
    case Ok(d) =>
      match Prop(d, "b")
      case Err(e) => Err(e)
      case Ok(b) => Prop(b, "p")
  }

  /** extractPath: `p.substr(1)` when `p` is defined (which throws unless
      it is a string), then lib/normalize-path.js on the result or ''. */
  function ExtractPath(message: Json): (r: Result<Paths.NormalizedPath, TypeError>)
    ensures WirePath(message).Err? ==> r.Err?
    ensures WirePath(message) == Ok(None) ==> r == Ok(Paths.NormalizedPath("", "", false))
    ensures WirePath(message).Ok? && WirePath(message).value.Some? ==>
      (r.Ok? <==> WirePath(message).value.value.Str?)
    ensures WirePath(message).Ok? && WirePath(message).value.Some? && WirePath(message).value.value.Str? ==>
      var s := WirePath(message).value.value.s;
      r == Ok(Paths.LegacyNormalizePath(if s == "" then "" else s[1..]))
  {
    match WirePath(message)
    case Err(e) => Err(e)
    case Ok(None) => Ok(Paths.LegacyNormalizePath(""))
    case Ok(Some(Str(s))) => Ok(Paths.LegacyNormalizePath(if s == "" then "" else s[1..]))
    case Ok(Some(_)) => Err(TypeError)
  }

  /** extractFbRef: the base reference for an empty path, its child otherwise. */
  function ExtractFbRef(message: Json, baseRef: Ref): (r: Result<Ref, TypeError>)
    ensures ExtractPath(message).Err? <==> r.Err?
    ensures ExtractPath(message).Ok? && ExtractPath(message).value.path == "" ==> r == Ok(baseRef)
    ensures ExtractPath(message).Ok? && ExtractPath(message).value.path != "" ==>
      r == Ok(ChildRef(baseRef, ExtractPath(message).value.path))
  {
    match ExtractPath(message)
    case Err(e) => Err(e)
    case Ok(np) => if np.path == "" then Ok(baseRef) else Ok(ChildRef(baseRef, np.path))
  }

  /** `fromPath(path, defaultValue)`: lodash's `_.get` on the envelope. */
  function FromPath(path: seq<string>, defaultValue: Option<Json>, message: Json): (r: Option<Json>)
    ensures GetPath(Some(message), path).Some? ==> r == GetPath(Some(message), path)
    ensures GetPath(Some(message), path).None? ==> r == defaultValue
  {
    match GetPath(Some(message), path)
    case Some(v) => Some(v)
    case None => defaultValue
  }

  /** `requestId`: `d.r`, undefined when any step of the path is missing. */
  function RequestId(message: Json): (r: Option<Json>)
    ensures r.Some? <==> (message.Obj? && "d" in message.fields && message.fields["d"].Obj?
      && "r" in message.fields["d"].fields)
    ensures r.Some? ==> r.value == message.fields["d"].fields["r"]
  {
    FromPath(["d", "r"], None, message)
  }

  /** `data`: `d.b.d`, undefined when any step of the path is missing. */
  function Data(message: Json): (r: Option<Json>)
    ensures r.Some? <==> (message.Obj? && "d" in message.fields && message.fields["d"].Obj?
      && "b" in message.fields["d"].fields && message.fields["d"].fields["b"].Obj?
      && "d" in message.fields["d"].fields["b"].fields)
    ensures r.Some? ==> r.value == message.fields["d"].fields["b"].fields["d"]
  {
    FromPath(["d", "b", "d"], None, message)
  }

  /** `hash`: `d.b.h`, likewise. */
  function Hash(message: Json): (r: Option<Json>)
    ensures r.Some? <==> (message.Obj? && "d" in message.fields && message.fields["d"].Obj?
      && "b" in message.fields["d"].fields && message.fields["d"].fields["b"].Obj?
      && "h" in message.fields["d"].fields["b"].fields)
    ensures r.Some? ==> r.value == message.fields["d"].fields["b"].fields["h"]
  {
    FromPath(["d", "b", "h"], None, message)
  }

  /** `credentials`: `d.b.cred`, likewise. */
  function Credentials(message: Json): (r: Option<Json>)
    ensures r.Some? <==> (message.Obj? && "d" in message.fields && message.fields["d"].Obj?
      && "b" in message.fields["d"].fields && message.fields["d"].fields["b"].Obj?
      && "cred" in message.fields["d"].fields["b"].fields)
    ensures r.Some? ==> r.value == message.fields["d"].fields["b"].fields["cred"]
  {
    FromPath(["d", "b", "cred"], None, message)
  }

  /** A missing `p` normalises '' to the empty, non-priority path. */
  lemma MissingPathIsRoot(message: Json)
    requires WirePath(message) == Ok(None)
    ensures ExtractPath(message) == Ok(Paths.NormalizedPath("", "", false))
    ensures ExtractFbRef(message, BaseRef) == Ok(BaseRef)
  {
  }

  /** Where both succeed on a string path, extract.js and message.js derive
      the same three path fields: both drop the first character and strip one
      priority suffix. They differ on errors: a missing `d.b` throws here but
      gives '' in message.js, and a null `p` throws here but is falsy there. */
  lemma {:induction false} ExtractAgreesWithMessage(message: Json, parse: string -> Option<Json>)
    requires !message.Str?
    requires WirePath(message).Ok? && WirePath(message).value.Some? && WirePath(message).value.value.Str?
    ensures var m := Messages.NewMessage(message, parse);
      m.Ok? && ExtractPath(message) == Ok(Paths.NormalizedPath(m.value.path, m.value.fullPath, m.value.isPriorityPath))
  {
    var s := WirePath(message).value.value.s;
    assert GetPath(Some(message), ["d", "b", "p"]) == Some(Str(s));
    var m := Messages.NewMessage(message, parse);
    assert m.Ok?;
  }
}
