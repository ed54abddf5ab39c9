/**
 * What the renderer produces. `Node` stands for Vue's `VNodeChild` as built
 * by `h(...)`: an element with its props and the children argument exactly
 * as it was passed, a comment, a string, an array, `null` or `undefined`.
 * The `ChildrenNotAvaliable` symbol is a value too, since rules may pass it
 * on to `h` unchanged.
 */
module Vnodes {

  /** A prop value. */
  datatype Attr = AttrText(s: string) | AttrNum(n: int) | AttrBool(b: bool) | AttrAbsent

  /** Element props; `null` and `{}` are both the empty map. */
  type Props = map<string, Attr>

  datatype Node =
    | Elem(tag: string, props: Props, children: Node)
    | Comment(body: Node)
    | Str(s: string)
    | Arr(items: seq<Node>)
    | Null
    | Undefined
    | NoChildrenSymbol

  /** The second argument of every factory rule. */
  datatype Children = NotAvailable | Present(nodes: seq<Node>)

  /** JavaScript truthiness of a node value. */
  predicate Truthy(n: Node)
  {
    !(n.Null? || n.Undefined? || n == Str(""))
  }

  /** The children argument as the JavaScript value a rule hands on to `h`. */
  function AsNode(c: Children): (n: Node)
    ensures c.NotAvailable? <==> n == NoChildrenSymbol
    ensures c.Present? ==> n == Arr(c.nodes)
  {
    match c
    case NotAvailable => NoChildrenSymbol
    case Present(xs) => Arr(xs)
  }

  /** Why a render pass threw. */
  datatype Fault =
    | StackOverflow   // the call stack ran out (unbounded re-entry)
    | TypeError       // a rule used a value of the wrong shape

  /** The outcome of a computation that may throw. */
  datatype Result<+T> = Ok(value: T) | Err(fault: Fault) {

    predicate IsFailure() {
      Err?
    }

    function PropagateFailure<U>(): Result<U>
      requires Err?
    {
      Err(fault)
    }

    function Extract(): T
      requires Ok?
    {
      value
    }
  }
}
