/** Store references: a location in the tree and the query directives that
    refine it (the Firebase client's Reference and Query objects, reduced to
    what the server builds). */
module Refs {
  import opened Wrappers
  import opened Js

  datatype Location = Root | Child(path: string)

  /** One refinement of a query, in the order applied. */
  datatype Directive =
    | StartAt(value: Json, name: Option<Json>)
    | EndAt(value: Json, name: Option<Json>)
    | OrderByKey
    | OrderByValue
    | OrderByChild(child: Json)
    | LimitToFirst(limit: Json)
    | LimitToLast(limit: Json)

  datatype Ref = Ref(location: Location, directives: seq<Directive>)

  /** The database's root reference, `baseRef`. */
  const BaseRef: Ref := Ref(Root, [])

  /** `ref.child(path)` for a non-empty path. */
  function ChildRef(ref: Ref, path: string): (r: Ref)
    requires path != ""
    ensures r.directives == []
    ensures ref.location == Root ==> r.location == Child(path)
  {
    match ref.location
    case Root => Ref(Child(path), [])
    case Child(p) => Ref(Child(p + "/" + path), [])
  }

  /** `path ? baseRef.child(path) : baseRef`, the reference both generations
      derive from a normalised path. */
  function RefFor(path: string): (r: Ref)
    ensures path == "" ==> r == BaseRef
    ensures path != "" ==> r == Ref(Child(path), [])
  {
    if path == "" then BaseRef else ChildRef(BaseRef, path)
  }
}
