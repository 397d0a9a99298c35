/** lib/lookup-action.js: the table from wire action codes to the names the
    older modular connection emits as events. */
module Actions {
  import opened Wrappers
  import opened Js

  /** The five values of ACTION_KEYS, and a member ACTION_KEYS inherits
      from Object.prototype (a function, or for `__proto__` the prototype
      itself: truthy either way), identified by the key it was read under. */
  datatype Action = Listen | Query | Update | Set | Auth | Inherited(key: string)

  /** The value a table key stands for. */
  function ActionName(a: Action): string
    requires !a.Inherited?
  {
    match a
    case Listen => "listen"
    case Query => "query"
    case Update => "update"
    case Set => "set"
    case Auth => "auth"
  }

  /** The own keys of ACTION_KEYS. */
  const ACTION_KEYS: set<string> := {"l", "q", "m", "p", "auth"}

  /** The properties every object literal inherits from Object.prototype. */
  const PROTOTYPE_KEYS: set<string> := {"constructor", "__proto__", "hasOwnProperty", "isPrototypeOf",
    "propertyIsEnumerable", "toString", "toLocaleString", "valueOf", "__defineGetter__", "__defineSetter__",
    "__lookupGetter__", "__lookupSetter__"}

  /** `ACTION_KEYS[actionKey] || null`, with None for null. A string key
      reads an own entry, or else an inherited member; a non-string key is
      converted to its string form, and none of `null`, `undefined`, a
      boolean, a number or `[object Object]` spells either kind of key. */
  function LookupAction(actionKey: Option<Json>): (r: Option<Action>)
    ensures r == Some(Listen) <==> actionKey == Some(Str("l"))
    ensures r == Some(Query) <==> actionKey == Some(Str("q"))
    ensures r == Some(Update) <==> actionKey == Some(Str("m"))
    ensures r == Some(Set) <==> actionKey == Some(Str("p"))
    ensures r == Some(Auth) <==> actionKey == Some(Str("auth"))
    ensures r.Some? && r.value.Inherited? <==>
      actionKey.Some? && actionKey.value.Str? && actionKey.value.s in PROTOTYPE_KEYS
    ensures r.Some? && r.value.Inherited? ==> r.value.key == actionKey.value.s
  {
    match actionKey
    case Some(Str("l")) => Some(Listen)
    case Some(Str("q")) => Some(Query)
    case Some(Str("m")) => Some(Update)
    case Some(Str("p")) => Some(Set)
    case Some(Str("auth")) => Some(Auth)
    case Some(Str(k)) => if k in PROTOTYPE_KEYS then Some(Inherited(k)) else None
    case _ => None
  }

  /** Null comes back exactly for keys that are neither in the table nor
      inherited: 'gauth' and undefined among them. */
  lemma LookupTotal(actionKey: Option<Json>)
    ensures LookupAction(actionKey).None? <==>
      !(actionKey.Some? && actionKey.value.Str? && actionKey.value.s in ACTION_KEYS + PROTOTYPE_KEYS)
  {
  }

  /** The action a table key yields is named after what the key stands for;
      `constructor` finds the inherited member. */
  lemma LookupNames()
    ensures ActionName(LookupAction(Some(Str("l"))).value) == "listen"
    ensures ActionName(LookupAction(Some(Str("q"))).value) == "query"
    ensures ActionName(LookupAction(Some(Str("m"))).value) == "update"
    ensures ActionName(LookupAction(Some(Str("p"))).value) == "set"
    ensures ActionName(LookupAction(Some(Str("auth"))).value) == "auth"
    ensures LookupAction(Some(Str("gauth"))) == None && LookupAction(None) == None
    ensures LookupAction(Some(Str("constructor"))) == Some(Inherited("constructor"))
  {
  }
}
