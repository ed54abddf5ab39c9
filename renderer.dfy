/**
 * The token-to-node engine of src/renderer.ts: the default rule of every
 * token kind, the factory table that maps a token type to its rule, and
 * `render`, which renders a token's nested tokens first and then dispatches
 * on its type through the table.
 *
 * A table entry is either a default rule or the wrapper that the component
 * installs for a user slot (src/MarkedVue.ts). Both are interpreted here,
 * because a wrapper's `content()` callback re-enters the table and a default
 * rule (`list`, `list_item`, `table`) re-enters `render`.
 */
module Renderer {
  import opened Wrappers
  import opened Tokens
  import opened Vnodes
  import opened Overrides

  /** The default rules, one per standard token kind, plus `checkbox`. */
  datatype Builtin =
    | Space | Def | Escape | Code | Blockquote | Html | Heading | Hr
    | List | ListItem | Checkbox | Paragraph | Table
    | Strong | Em | Codespan | Br | Del | Link | Image | Text

  /** The factory key of each default rule. */
  function Name(b: Builtin): string
  {
    match b
    case Space => "space"
    case Def => "def"
    case Escape => "escape"
    case Code => "code"
    case Blockquote => "blockquote"
    case Html => "html"
    case Heading => "heading"
    case Hr => "hr"
    case List => "list"
    case ListItem => "list_item"
    case Checkbox => "checkbox"
    case Paragraph => "paragraph"
    case Table => "table"
    case Strong => "strong"
    case Em => "em"
    case Codespan => "codespan"
    case Br => "br"
    case Del => "del"
    case Link => "link"
    case Image => "image"
    case Text => "text"
  }

  /** The default rule registered under a key, if any. */
  function BuiltinNamed(k: string): (r: Option<Builtin>)
  {
    match k
    case "space" => Some(Space)
    case "def" => Some(Def)
    case "escape" => Some(Escape)
    case "code" => Some(Code)
    case "blockquote" => Some(Blockquote)
    case "html" => Some(Html)
    case "heading" => Some(Heading)
    case "hr" => Some(Hr)
    case "list" => Some(List)
    case "list_item" => Some(ListItem)
    case "checkbox" => Some(Checkbox)
    case "paragraph" => Some(Paragraph)
    case "table" => Some(Table)
    case "strong" => Some(Strong)
    case "em" => Some(Em)
    case "codespan" => Some(Codespan)
    case "br" => Some(Br)
    case "del" => Some(Del)
    case "link" => Some(Link)
    case "image" => Some(Image)
    case "text" => Some(Text)
    case _ => None
  }

  /** Every default rule is found under its own name. */
  lemma NameRoundTrip(b: Builtin)
    ensures BuiltinNamed(Name(b)) == Some(b)
  {
  }

  /** No two default rules share a key. */
  lemma NamesDistinct(b1: Builtin, b2: Builtin)
    ensures Name(b1) == Name(b2) ==> b1 == b2
  {
    NameRoundTrip(b1);
    NameRoundTrip(b2);
  }

  /** All default rules. */
  function AllBuiltins(): set<Builtin>
  {
    {Space, Def, Escape, Code, Blockquote, Html, Heading, Hr,
     List, ListItem, Checkbox, Paragraph, Table,
     Strong, Em, Codespan, Br, Del, Link, Image, Text}
  }

  lemma AllBuiltinsComplete(b: Builtin)
    ensures b in AllBuiltins()
  {
    match b
    case Space => case Def => case Escape => case Code => case Blockquote =>
    case Html => case Heading => case Hr => case List => case ListItem =>
    case Checkbox => case Paragraph => case Table => case Strong => case Em =>
    case Codespan => case Br => case Del => case Link => case Image => case Text =>
  }

  /** A factory entry. */
  datatype Rule =
    | Default(kind: Builtin)   // a rule of getDefaultVNodeFactory
    | Wrapper(id: string)      // the slot wrapper installed for slot `id`

  type Factory = map<string, Rule>

  /** `getDefaultVNodeFactory()`: every standard key holds its own default rule. */
  function DefaultFactory(): Factory
  {
    map k | k in DefaultNames() :: Default(BuiltinNamed(k).value)
  }

  /** The keys of the default table. */
  function DefaultNames(): set<string>
  {
    set b | b in AllBuiltins() :: Name(b)
  }

  /** Everything a render pass reads: the table, the user slots and `he.unescape`. */
  datatype Env = Env(factory: Factory, slots: string -> Option<SlotFn>, heUnescape: string -> string)

  /**
   * The shape of every table the component builds: a default rule sits under
   * its own name, a wrapper under its own slot id, and a wrapper's slot exists.
   */
  predicate Fits(k: string, rule: Rule, slots: string -> Option<SlotFn>)
  {
    match rule
    case Default(b) => Name(b) == k
    case Wrapper(id) => id == k && slots(id).Some?
  }

  predicate Coherent(factory: Factory, slots: string -> Option<SlotFn>)
  {
    forall k :: k in factory ==> Fits(k, factory[k], slots)
  }

  /**
   * The two keys the checkbox record can be looked up under: "undefined",
   * which names no default rule, and "checkbox", which names only the
   * `checkbox` rule.
   */
  lemma CheckboxKeys()
    ensures forall b :: Name(b) != "undefined"
    ensures forall b :: Name(b) == "checkbox" ==> b == Checkbox
  {
    forall b ensures Name(b) != "undefined" && (Name(b) == "checkbox" ==> b == Checkbox) {
      NameRoundTrip(b);
    }
  }

  /** The default table holds every default rule under the rule's own name. */
  lemma DefaultFactoryHasAll(b: Builtin)
    ensures Name(b) in DefaultFactory() && DefaultFactory()[Name(b)] == Default(b)
  {
    AllBuiltinsComplete(b);
    NameRoundTrip(b);
  }

  /** Every key of the default table is the name of a default rule, and holds that rule. */
  lemma DefaultFactoryOnlyNames(k: string)
    requires k in DefaultFactory()
    ensures exists b :: Name(b) == k && DefaultFactory()[k] == Default(b)
  {
    var b :| b in AllBuiltins() && Name(b) == k;
    NameRoundTrip(b);
  }

  /** So the default table is coherent whatever the slots. */
  lemma DefaultFactoryCoherent(slots: string -> Option<SlotFn>)
    ensures Coherent(DefaultFactory(), slots)
  {
    forall k | k in DefaultFactory() ensures Fits(k, DefaultFactory()[k], slots) {
      DefaultFactoryOnlyNames(k);
    }
  }

  /** The checkbox record reaches a default rule only through the `checkbox` entry. */
  predicate CheckboxFits(factory: Factory, key: string, t: Token)
    requires key in factory
  {
    t.CheckboxToken? && factory[key].Default? ==> factory[key].kind == Checkbox
  }

  // ---------------------------------------------------------------------
  // Default rules that build a node without re-entering the engine

  /** `unescape`: `he.unescape` on strings, the identity on anything else. */
  function Unescape(he: string -> string, text: Option<string>): (r: Option<string>)
    ensures text.None? ==> r == None
    ensures text.Some? ==> r == Some(he(text.value))
  {
    match text
    case None => None
    case Some(s) => Some(he(s))
  }

  /** A string field as a node value (`undefined` when absent). */
  function TextOf(text: Option<string>): Node
  {
    match text
    case None => Undefined
    case Some(s) => Str(s)
  }

  function OptAttr(o: Option<string>): Attr
  {
    match o
    case None => AttrAbsent
    case Some(s) => AttrText(s)
  }

  function DigitChar(d: nat): char
    requires d < 10
  {
    "0123456789"[d]
  }

  function NatToString(n: nat): string
  {
    if n < 10 then [DigitChar(n)] else NatToString(n / 10) + [DigitChar(n % 10)]
  }

  /** The decimal form of a number, as a template literal writes it. */
  function IntToString(n: int): string
  {
    if n < 0 then "-" + NatToString(-n) else NatToString(n)
  }

  function CodeProps(lang: string): Props
  {
    if lang != "" then map["class" := AttrText("language-" + lang), "data-lang" := AttrText(lang)]
    else map[]
  }

  function CheckboxProps(checked: bool): Props
  {
    map["type" := AttrText("checkbox"), "checked" := AttrBool(checked), "disabled" := AttrBool(true)]
  }

  /** The tag of a rule that wraps its children in one element. */
  function WrapperTag(b: Builtin): string
  {
    match b
    case Blockquote => "blockquote"
    case Paragraph => "p"
    case Strong => "strong"
    case Em => "em"
    case Del => "del"
    case _ => ""
  }

  predicate IsWrapping(b: Builtin)
  {
    b == Blockquote || b == Paragraph || b == Strong || b == Em || b == Del
  }

  predicate Reenters(b: Builtin)
  {
    b == List || b == ListItem || b == Table
  }

  /** `code`: a `pre` around a `code` holding the unescaped text, tagged with the language if there is one. */
  function CodeRule(he: string -> string, t: Token): (r: Node)
    requires t.Token?
    ensures r.Elem? && r.tag == "pre"
    ensures "class" in r.props <==> t.lang != ""
    ensures "data-lang" in r.props <==> t.lang != ""
    ensures r.props.Keys <= {"class", "data-lang"}
    ensures t.lang != "" ==> r.props["class"] == AttrText("language-" + t.lang)
                             && r.props["data-lang"] == AttrText(t.lang)
    ensures r.children == Elem("code", map[], Arr([TextOf(Unescape(he, t.text))]))
  {
    Elem("pre", CodeProps(t.lang), Elem("code", map[], Arr([TextOf(Unescape(he, t.text))])))
  }

  /** `heading`: an `h<depth>` element around the children. */
  function HeadingRule(t: Token, c: Children): (r: Node)
    requires t.Token?
    ensures r.Elem? && r.props == map[] && r.children == AsNode(c)
    ensures 1 <= t.depth <= 9 ==> r.tag == ['h', "0123456789"[t.depth]]
  {
    Elem("h" + IntToString(t.depth), map[], AsNode(c))
  }

  /** `checkbox`: a disabled checkbox input reflecting `checked`. */
  function CheckboxRule(t: Token): (r: Node)
    ensures r.Elem? && r.tag == "input" && r.children == Null
    ensures r.props.Keys == {"type", "checked", "disabled"}
    ensures r.props["type"] == AttrText("checkbox")
    ensures r.props["checked"] == AttrBool(t.checked) && r.props["disabled"] == AttrBool(true)
  {
    Elem("input", CheckboxProps(t.checked), Null)
  }

  /** `link`: an anchor with `href` and `title` around the children. */
  function LinkRule(t: Token, c: Children): (r: Node)
    requires t.Token?
    ensures r.Elem? && r.tag == "a" && r.children == AsNode(c)
    ensures r.props.Keys == {"href", "title"}
    ensures r.props["href"] == AttrText(t.href) && r.props["title"] == OptAttr(t.title)
  {
    Elem("a", map["href" := AttrText(t.href), "title" := OptAttr(t.title)], AsNode(c))
  }

  /** `image`: a void `img` element; the children are not used. */
  function ImageRule(t: Token): (r: Node)
    requires t.Token?
    ensures r.Elem? && r.tag == "img" && r.children == Null
    ensures r.props.Keys == {"src", "alt", "title"}
    ensures r.props["src"] == AttrText(t.href) && r.props["alt"] == OptAttr(t.text)
    ensures r.props["title"] == OptAttr(t.title)
  {
    Elem("img", map["src" := AttrText(t.href), "alt" := OptAttr(t.text), "title" := OptAttr(t.title)], Null)
  }

  /**
   * `text`: the unescaped literal text when the token has no `tokens` (the
   * sentinel), otherwise the children exactly as they were passed.
   */
  function TextRule(he: string -> string, t: Token, c: Children): (r: Node)
    requires t.Token?
    ensures c.NotAvailable? ==> r == TextOf(Unescape(he, t.text))
    ensures c.Present? ==> r == Arr(c.nodes)
    ensures t.text.None? && c.NotAvailable? ==> r == Undefined
  {
    if c.NotAvailable? then TextOf(Unescape(he, t.text)) else AsNode(c)
  }

  /** The default rules other than `list`, `list_item` and `table`. */
  function LeafRule(he: string -> string, b: Builtin, t: Token, c: Children): Node
    requires !Reenters(b)
    requires t.CheckboxToken? ==> b == Checkbox
  {
    match b
    case Space => Str(" ")
    case Def => Null
    case Escape => Null
    case Code => CodeRule(he, t)
    case Blockquote => Elem("blockquote", map[], AsNode(c))
    case Html => Comment(TextOf(t.text))
    case Heading => HeadingRule(t, c)
    case Hr => Elem("hr", map[], Null)
    case Checkbox => CheckboxRule(t)
    case Paragraph => Elem("p", map[], AsNode(c))
    case Strong => Elem("strong", map[], AsNode(c))
    case Em => Elem("em", map[], AsNode(c))
    case Codespan => Elem("code", map[], TextOf(t.text))
    case Br => Elem("br", map[], Null)
    case Del => Elem("del", map[], AsNode(c))
    case Link => LinkRule(t, c)
    case Image => ImageRule(t)
    case Text => TextRule(he, t, c)
  }

  // ---------------------------------------------------------------------
  // Node builders of the re-entering rules

  function ListProps(t: Token): Props
    requires t.Token?
  {
    if t.ordered && t.start != 1 then map["start" := AttrNum(t.start)] else map[]
  }

  /**
   * `h(ordered ? 'ol' : 'ul', props, renderedItems)`: an ordered list carries
   * its first number exactly when that number is not 1.
   */
  function ListNode(t: Token, items: seq<Node>): (r: Node)
    requires t.Token?
    ensures r.Elem? && (r.tag == "ol" <==> t.ordered) && (r.tag == "ul" <==> !t.ordered)
    ensures "start" in r.props <==> t.ordered && t.start != 1
    ensures r.props.Keys <= {"start"}
    ensures "start" in r.props ==> r.props["start"] == AttrNum(t.start)
    ensures r.children == Arr(items)
  {
    Elem(if t.ordered then "ol" else "ul", ListProps(t), Arr(items))
  }

  /**
   * The `li` built from the copied children and, for a task item, the
   * checkbox: the checkbox comes first, the children follow in order, and a
   * loose item puts all of them, checkbox included, in a single `p`.
   */
  function ListItemNode(loose: bool, checkbox: Option<Node>, children: seq<Node>): (r: Node)
    ensures r.Elem? && r.tag == "li" && r.props == map[] && r.children.Arr?
    ensures loose ==> |r.children.items| == 1 && r.children.items[0].Elem?
                      && r.children.items[0].tag == "p" && r.children.items[0].children.Arr?
    ensures var flow := if loose then r.children.items[0].children.items else r.children.items;
            && |flow| == |children| + (if checkbox.Some? then 1 else 0)
            && (checkbox.Some? ==> flow[0] == checkbox.value && flow[1..] == children)
            && (checkbox.None? ==> flow == children)
  {
    var withBox := if checkbox.Some? then [checkbox.value] + children else children;
    var body := if loose then [Elem("p", map[], Arr(withBox))] else withBox;
    Elem("li", map[], Arr(body))
  }

  function CellProps(cell: Cell): Props
  {
    if cell.align.Some? && cell.align.value != "" then map["align" := AttrText(cell.align.value)] else map[]
  }

  /**
   * `renderCell(type, cell)` once the cell's tokens are rendered: the cell
   * carries an `align` prop exactly when its alignment is truthy, and its
   * one child is the rendering of its tokens.
   */
  function CellNode(tag: string, cell: Cell, content: Node): (r: Node)
    ensures r.Elem? && r.tag == tag && r.children == Arr([content])
    ensures "align" in r.props <==> cell.align.Some? && cell.align.value != ""
    ensures r.props.Keys <= {"align"}
    ensures "align" in r.props ==> r.props["align"] == AttrText(cell.align.value)
  {
    Elem(tag, CellProps(cell), Arr([content]))
  }

  function TableNode(headCells: seq<Node>, bodyRows: seq<Node>, rowCount: nat): Node
  {
    Elem("table", map[], Arr([
      Elem("thead", map[], Arr([Elem("tr", map[], Arr(headCells))])),
      if rowCount > 0 then Elem("tbody", map[], Arr(bodyRows)) else Null
    ]))
  }

  // ---------------------------------------------------------------------
  // The engine

  /** The argument of `render`: null/undefined/a non-object, one token, or an array. */
  datatype Input = Nothing | One(token: Token) | Many(tokens: seq<Token>)

  function InputSize(input: Input): nat
  {
    match input
    case Nothing => 0
    case One(t) => Size(t)
    case Many(ts) => SeqSize(ts)
  }

  /**
   * `c` at src/renderer.ts:143, from the `children` of line 140 (`None` for
   * `false`): an array is passed on, another truthy value is wrapped, and
   * anything else becomes the sentinel.
   */
  function ChildrenArg(kids: Option<Node>): Children
  {
    match kids
    case Some(Arr(xs)) => Present(xs)
    case Some(n) => if Truthy(n) then Present([n]) else NotAvailable
    case None => NotAvailable
  }

  /** `children || null` at src/renderer.ts:147. */
  function Fallback(kids: Option<Node>): Node
  {
    match kids
    case Some(n) => if Truthy(n) then n else Null
    case None => Null
  }

  /**
   * `render(tokens)`. `depth` is the room left on the call stack for nested
   * `content()` calls; when it runs out the pass throws a stack overflow.
   */
  function RenderValue(env: Env, depth: nat, input: Input): Result<Node>
    requires Coherent(env.factory, env.slots)
    decreases depth, InputSize(input), 6
  {
    match input
    case Nothing => Ok(Null)
    case One(t) => RenderToken(env, depth, t)
    case Many(ts) =>
      var xs :- RenderSeq(env, depth, ts);
      Ok(Arr(xs))
  }

  /** `tokens.map(token => renderToken(token))`, stopping at the first throw. */
  function RenderSeq(env: Env, depth: nat, ts: seq<Token>): Result<seq<Node>>
    requires Coherent(env.factory, env.slots)
    decreases depth, SeqSize(ts), 5
  {
    if ts == [] then Ok([])
    else
      var x :- RenderToken(env, depth, ts[0]);
      var rest :- RenderSeq(env, depth, ts[1..]);
      Ok([x] + rest)
  }

  /** `children` at src/renderer.ts:140: the rendered `tokens` array, if the token has one. */
  function RenderedChildren(env: Env, depth: nat, t: Token): Result<Option<Node>>
    requires Coherent(env.factory, env.slots)
    decreases depth, Size(t), 3
  {
    if t.Token? && t.tokens.TokenArray? then
      assert SeqSize(t.tokens.list) == ListSize(t.tokens) < Size(t);
      var n :- RenderValue(env, depth, Many(t.tokens.list));
      Ok(Some(n))
    else Ok(None)
  }

  /** `renderToken(token)` */
  function RenderToken(env: Env, depth: nat, t: Token): Result<Node>
    requires Coherent(env.factory, env.slots)
    decreases depth, Size(t), 4
  {
    var kids :- RenderedChildren(env, depth, t);
    var key := TypeKey(t);
    if key in env.factory then
      assert Fits(key, env.factory[key], env.slots);
      CheckboxKeys();
      Apply(env, depth, key, t, ChildrenArg(kids))
    else Ok(Fallback(kids))
  }

  /** `factory[key](token, c, ctx)` */
  function Apply(env: Env, depth: nat, key: string, t: Token, c: Children): Result<Node>
    requires Coherent(env.factory, env.slots)
    requires key in env.factory && CheckboxFits(env.factory, key, t)
    decreases depth, Size(t), 2
  {
    assert Fits(key, env.factory[key], env.slots);
    match env.factory[key]
    case Default(b) => ApplyDefault(env, depth, b, t, c)
    case Wrapper(id) =>
      // slot({ token, content })
      match env.slots(id).value(t)
      case Renders(n) => Ok(n)
      case UsesContent(build) =>
        if depth == 0 then Err(StackOverflow)
        else
          var xs :- Content(env, depth - 1, id, t, c);
          Ok(build(xs))
  }

  /**
   * `content()` of the wrapper for slot `id`: looks `factory[id]` up when it
   * is called, applies it to the same token and children, and normalises the
   * result's `children`.
   */
  function Content(env: Env, depth: nat, id: string, t: Token, c: Children): Result<seq<Node>>
    requires Coherent(env.factory, env.slots)
    requires id in env.factory ==> CheckboxFits(env.factory, id, t)
    decreases depth, Size(t), 3
  {
    if id !in env.factory then Ok([])
    else
      var r :- Apply(env, depth, id, t, c);
      Ok(NormalizeChildren(ChildrenOf(r)))
  }

  /** The default rule `b` applied to a token. */
  function ApplyDefault(env: Env, depth: nat, b: Builtin, t: Token, c: Children): Result<Node>
    requires Coherent(env.factory, env.slots)
    requires t.CheckboxToken? ==> b == Checkbox
    decreases depth, Size(t), 1
  {
    match b
    case List =>
      var items :- RenderItems(env, depth, t.items);
      Ok(ListNode(t, items))
    case ListItem =>
      if c.NotAvailable? then Err(TypeError)   // spreading the sentinel symbol
      else
        var checkbox :- ListItemCheckbox(env, depth, t);
        Ok(ListItemNode(t.loose, checkbox, c.nodes))
    case Table =>
      var head :- RenderCells(env, depth, "th", t.header);
      var body :- RenderRows(env, depth, t.rows);
      Ok(TableNode(head, body, |t.rows|))
    case _ => Ok(LeafRule(env.heUnescape, b, t, c))
  }

  /**
   * `ctx.factory.checkbox({ checked: !!token.checked }, ChildrenNotAvaliable, ctx)`
   * for a task item; calling a missing entry throws.
   */
  function ListItemCheckbox(env: Env, depth: nat, t: Token): Result<Option<Node>>
    requires Coherent(env.factory, env.slots)
    requires t.Token?
    decreases depth, Size(t), 0
  {
    if !t.task then Ok(None)
    else if "checkbox" !in env.factory then Err(TypeError)
    else
      assert Fits("checkbox", env.factory["checkbox"], env.slots);
      CheckboxKeys();
      var n :- Apply(env, depth, "checkbox", CheckboxToken(t.checked), NotAvailable);
      Ok(Some(n))
  }

  /** `items.map(item => ctx.render(item))` */
  function RenderItems(env: Env, depth: nat, items: seq<Token>): Result<seq<Node>>
    requires Coherent(env.factory, env.slots)
    decreases depth, SeqSize(items), 7
  {
    if items == [] then Ok([])
    else
      var x :- RenderValue(env, depth, One(items[0]));
      var rest :- RenderItems(env, depth, items[1..]);
      Ok([x] + rest)
  }

  /** `cells.map(cell => renderCell(tag, cell))` */
  function RenderCells(env: Env, depth: nat, tag: string, cells: seq<Cell>): Result<seq<Node>>
    requires Coherent(env.factory, env.slots)
    decreases depth, CellsSize(cells), 7
  {
    if cells == [] then Ok([])
    else
      var content :- RenderValue(env, depth, Many(cells[0].tokens));
      var rest :- RenderCells(env, depth, tag, cells[1..]);
      Ok([CellNode(tag, cells[0], content)] + rest)
  }

  /** `rows.map(row => h('tr', null, row.map(cell => renderCell('td', cell))))` */
  function RenderRows(env: Env, depth: nat, rows: seq<Row>): Result<seq<Node>>
    requires Coherent(env.factory, env.slots)
    decreases depth, RowsSize(rows), 7
  {
    if rows == [] then Ok([])
    else
      var cells :- RenderCells(env, depth, "td", rows[0].cells);
      var rest :- RenderRows(env, depth, rows[1..]);
      Ok([Elem("tr", map[], Arr(cells))] + rest)
  }

  /**
   * Rendering an array maps `renderToken` over it one-to-one and in order;
   * the pass throws exactly when some token throws, and then with the fault
   * of the first token that does.
   */
  lemma {:induction false} RenderSeqShape(env: Env, depth: nat, ts: seq<Token>)
    requires Coherent(env.factory, env.slots)
    ensures RenderSeq(env, depth, ts).Ok?
            <==> forall i :: 0 <= i < |ts| ==> RenderToken(env, depth, ts[i]).Ok?
    ensures RenderSeq(env, depth, ts).Ok? ==>
              && |RenderSeq(env, depth, ts).value| == |ts|
              && forall i :: 0 <= i < |ts| ==>
                   RenderSeq(env, depth, ts).value[i] == RenderToken(env, depth, ts[i]).value
    ensures RenderSeq(env, depth, ts).Err? ==>
              exists i :: && 0 <= i < |ts|
                          && RenderToken(env, depth, ts[i]).Err?
                          && (forall j :: 0 <= j < i ==> RenderToken(env, depth, ts[j]).Ok?)
                          && RenderSeq(env, depth, ts).fault == RenderToken(env, depth, ts[i]).fault
  {
    if ts != [] {
      RenderSeqShape(env, depth, ts[1..]);
      var head := RenderToken(env, depth, ts[0]);
      var tail := RenderSeq(env, depth, ts[1..]);
      assert forall i :: 1 <= i < |ts| ==> ts[i] == ts[1..][i - 1];
      if head.Err? {
        assert RenderSeq(env, depth, ts).fault == head.fault;
      } else if tail.Err? {
        var i' :| && 0 <= i' < |ts| - 1
                  && RenderToken(env, depth, ts[1..][i']).Err?
                  && (forall j :: 0 <= j < i' ==> RenderToken(env, depth, ts[1..][j]).Ok?)
                  && tail.fault == RenderToken(env, depth, ts[1..][i']).fault;
        assert ts[i' + 1] == ts[1..][i'];
        assert forall j :: 1 <= j < i' + 1 ==> RenderToken(env, depth, ts[j]).Ok? by {
          forall j | 1 <= j < i' + 1 ensures RenderToken(env, depth, ts[j]).Ok? {
            assert ts[j] == ts[1..][j - 1];
          }
        }
      }
    }
  }

  /** The renderer object: its factory table is a field that callers overwrite entry by entry. */
  class VueMarkedRenderer {
    var factory: Factory

    constructor()
      ensures factory == DefaultFactory()
    {
      factory := DefaultFactory();
    }

    /**
     * `render(tokens)` over the current table: null-ish input gives `null`,
     * one token is dispatched, and an array gives an array of the same length
     * whose element i is the rendering of token i.
     */
    function Render(slots: string -> Option<SlotFn>, he: string -> string, depth: nat, input: Input): (r: Result<Node>)
      reads this
      requires Coherent(factory, slots)
      ensures input.Nothing? ==> r == Ok(Null)
      ensures input.One? ==> r == RenderToken(Env(factory, slots, he), depth, input.token)
      ensures input.Many? ==>
                (r.Ok? <==> forall i :: 0 <= i < |input.tokens| ==>
                              RenderToken(Env(factory, slots, he), depth, input.tokens[i]).Ok?)
      ensures input.Many? && r.Ok? ==>
                && r.value.Arr?
                && |r.value.items| == |input.tokens|
                && forall i :: 0 <= i < |input.tokens| ==>
                     r.value.items[i] == RenderToken(Env(factory, slots, he), depth, input.tokens[i]).value
    {
      var env := Env(factory, slots, he);
      if input.Many? then RenderSeqShape(env, depth, input.tokens); RenderValue(env, depth, input)
      else RenderValue(env, depth, input)
    }
  }
}
