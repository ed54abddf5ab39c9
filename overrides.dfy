/**
 * The pieces of the slot wrapper (src/MarkedVue.ts) that the render engine
 * needs: what a user slot does with the `content` callback it is given, and
 * how `content()` turns a rule's result into a list of nodes.
 */
module Overrides {
  import opened Tokens
  import opened Vnodes

  /**
   * What a slot does when called with `{ token, content }`. A slot is a
   * deterministic function of the token; for a given token it either renders
   * without calling `content()`, or calls it and builds its result from the
   * nodes `content()` returned (calling it again would give the same nodes).
   */
  datatype Demand =
    | Renders(node: Node)
    | UsesContent(build: seq<Node> -> Node)

  /** A user slot, as an abstract function of the token. */
  type SlotFn = Token -> Demand

  /**
   * `result?.children`: the children of an element or a comment; every other
   * value has no `children` property.
   */
  function ChildrenOf(result: Node): (c: Node)
    ensures result.Elem? ==> c == result.children
    ensures result.Comment? ==> c == result.body
    ensures !result.Elem? && !result.Comment? ==> c == Undefined
  {
    match result
    case Elem(_, _, children) => children
    case Comment(body) => body
    case _ => Undefined
  }

  /** `h('span', s)` */
  function Span(s: string): Node
  {
    Elem("span", map[], Str(s))
  }

  /**
   * The case split at the end of `content()`: falsy children give `[]`, a
   * string is wrapped in a span, an array is returned as it is and any other
   * value becomes a one-element list.
   */
  function NormalizeChildren(children: Node): (r: seq<Node>)
    ensures !Truthy(children) ==> r == []
    ensures children.Str? && children.s != "" ==> r == [Span(children.s)]
    ensures children.Arr? ==> r == children.items
    ensures Truthy(children) && !children.Str? && !children.Arr? ==> r == [children]
  {
    if !Truthy(children) then []
    else if children.Str? then [Span(children.s)]
    else if children.Arr? then children.items
    else [children]
  }

  /**
   * Normalising is idempotent: feeding the list `content()` returned back in
   * as an array gives the same list, and the list is empty exactly when the
   * children were falsy or an empty array.
   */
  lemma NormalizeStable(children: Node)
    ensures NormalizeChildren(Arr(NormalizeChildren(children))) == NormalizeChildren(children)
    ensures NormalizeChildren(children) == [] <==> !Truthy(children) || children == Arr([])
  {
  }
}
