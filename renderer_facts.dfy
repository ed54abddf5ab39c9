/*
 * What the rendering pass promises, stated over the engine of module
 * Renderer: how children reach a rule, what happens to a token type the
 * table does not know, the shape of the three rules that render nested
 * tokens themselves (list, list_item, table), and what a slot wrapper does
 * with the slot's answer.
 */
module RendererFacts {
  import opened Wrappers
  import opened Tokens
  import opened Vnodes
  import opened Overrides
  import opened Renderer

  // ---------------------------------------------------------------------
  // Children and dispatch

  /**
   * A token without a `tokens` array reaches its rule with the sentinel; a
   * token with one reaches it with one rendered child per nested token, in
   * order, even when the array is empty. The branch that would wrap a single
   * non-array value is never taken.
   */
  lemma ChildrenArgument(env: Env, depth: nat, t: Token)
    requires Coherent(env.factory, env.slots)
    ensures !(t.Token? && t.tokens.TokenArray?) ==>
              RenderedChildren(env, depth, t) == Ok(None) && ChildrenArg(None) == NotAvailable
    ensures t.Token? && t.tokens.TokenArray? ==>
              && (RenderedChildren(env, depth, t).Ok?
                  <==> forall i :: 0 <= i < |t.tokens.list| ==> RenderToken(env, depth, t.tokens.list[i]).Ok?)
              && (RenderedChildren(env, depth, t).Ok? ==>
                    var kids := RenderedChildren(env, depth, t).value;
                    && kids.Some? && kids.value.Arr?
                    && ChildrenArg(kids) == Present(kids.value.items)
                    && |kids.value.items| == |t.tokens.list|
                    && forall i :: 0 <= i < |t.tokens.list| ==>
                         kids.value.items[i] == RenderToken(env, depth, t.tokens.list[i]).value)
  {
    if t.Token? && t.tokens.TokenArray? {
      RenderSeqShape(env, depth, t.tokens.list);
    }
  }

  /**
   * `renderToken` renders the nested tokens first; a failure there is the
   * failure of the token. Otherwise a registered type is handed to the
   * current table's entry for it, and an unregistered one renders as its
   * children, which is the rendering of its `tokens` array when it has one
   * (an array, so truthy even when empty) and `null` when it has none.
   */
  lemma Dispatch(env: Env, depth: nat, t: Token)
    requires Coherent(env.factory, env.slots)
    ensures RenderedChildren(env, depth, t).Err? ==>
              RenderToken(env, depth, t) == Err(RenderedChildren(env, depth, t).fault)
    ensures RenderedChildren(env, depth, t).Ok? && TypeKey(t) in env.factory ==>
              && CheckboxFits(env.factory, TypeKey(t), t)
              && RenderToken(env, depth, t)
                 == Apply(env, depth, TypeKey(t), t, ChildrenArg(RenderedChildren(env, depth, t).value))
    ensures TypeKey(t) !in env.factory && t.Token? && t.tokens.TokenArray? ==>
              RenderToken(env, depth, t) == RenderValue(env, depth, Many(t.tokens.list))
    ensures TypeKey(t) !in env.factory && !(t.Token? && t.tokens.TokenArray?) ==>
              RenderToken(env, depth, t) == Ok(Null)
  {
    if TypeKey(t) in env.factory {
      assert Fits(TypeKey(t), env.factory[TypeKey(t)], env.slots);
      CheckboxKeys();
    }
  }

  /**
   * A table entry holding a default rule runs that rule on the token and the
   * children argument, whatever the slots are.
   */
  lemma DefaultEntryRunsRule(env: Env, depth: nat, key: string, t: Token, c: Children)
    requires Coherent(env.factory, env.slots)
    requires key in env.factory && CheckboxFits(env.factory, key, t)
    requires env.factory[key].Default?
    ensures Apply(env, depth, key, t, c) == ApplyDefault(env, depth, env.factory[key].kind, t, c)
  {
  }

  /**
   * The default rules that ignore the engine: `space` is a single space,
   * `def` and `escape` render nothing, `codespan` and `html` show the raw
   * text without unescaping it, and `code` and `text` unescape theirs.
   */
  lemma LeafRules(env: Env, depth: nat, t: Token, c: Children)
    requires Coherent(env.factory, env.slots)
    requires t.Token?
    ensures ApplyDefault(env, depth, Space, t, c) == Ok(Str(" "))
    ensures ApplyDefault(env, depth, Def, t, c) == Ok(Null)
    ensures ApplyDefault(env, depth, Escape, t, c) == Ok(Null)
    ensures ApplyDefault(env, depth, Codespan, t, c) == Ok(Elem("code", map[], TextOf(t.text)))
    ensures ApplyDefault(env, depth, Html, t, c) == Ok(Comment(TextOf(t.text)))
    ensures ApplyDefault(env, depth, Code, t, c) == Ok(CodeRule(env.heUnescape, t))
    ensures ApplyDefault(env, depth, Text, t, c) == Ok(TextRule(env.heUnescape, t, c))
  {
    DefaultIsLeaf(env, depth, Space, t, c);
    DefaultIsLeaf(env, depth, Def, t, c);
    DefaultIsLeaf(env, depth, Escape, t, c);
    DefaultIsLeaf(env, depth, Codespan, t, c);
    DefaultIsLeaf(env, depth, Html, t, c);
    DefaultIsLeaf(env, depth, Code, t, c);
    DefaultIsLeaf(env, depth, Text, t, c);
  }

  /** `hr` and `br` are empty elements with no props, whatever the token and children. */
  lemma VoidRules(env: Env, depth: nat, t: Token, c: Children)
    requires Coherent(env.factory, env.slots)
    requires t.Token?
    ensures ApplyDefault(env, depth, Hr, t, c) == Ok(Elem("hr", map[], Null))
    ensures ApplyDefault(env, depth, Br, t, c) == Ok(Elem("br", map[], Null))
  {
    DefaultIsLeaf(env, depth, Hr, t, c);
    DefaultIsLeaf(env, depth, Br, t, c);
  }

  /** `blockquote`, `paragraph`, `strong`, `em` and `del` hand the children argument to their element. */
  lemma WrappingRules(env: Env, depth: nat, t: Token, c: Children)
    requires Coherent(env.factory, env.slots)
    requires t.Token?
    ensures forall b :: IsWrapping(b) ==> ApplyDefault(env, depth, b, t, c) == Ok(Elem(WrapperTag(b), map[], AsNode(c)))
  {
    forall b | IsWrapping(b)
      ensures ApplyDefault(env, depth, b, t, c) == Ok(Elem(WrapperTag(b), map[], AsNode(c)))
    {
      DefaultIsLeaf(env, depth, b, t, c);
    }
  }

  /** A default rule that does not re-enter the engine always succeeds with its leaf node. */
  lemma DefaultIsLeaf(env: Env, depth: nat, b: Builtin, t: Token, c: Children)
    requires Coherent(env.factory, env.slots)
    requires !Reenters(b)
    requires t.CheckboxToken? ==> b == Checkbox
    ensures ApplyDefault(env, depth, b, t, c) == Ok(LeafRule(env.heUnescape, b, t, c))
  {
  }

  // ---------------------------------------------------------------------
  // The list rule

  /** The list items are rendered one by one through `ctx.render`, in order. */
  lemma {:induction false} RenderItemsShape(env: Env, depth: nat, items: seq<Token>)
    requires Coherent(env.factory, env.slots)
    ensures RenderItems(env, depth, items).Ok?
            <==> forall i :: 0 <= i < |items| ==> RenderValue(env, depth, One(items[i])).Ok?
    ensures RenderItems(env, depth, items).Ok? ==>
              && |RenderItems(env, depth, items).value| == |items|
              && forall i :: 0 <= i < |items| ==>
                   RenderItems(env, depth, items).value[i] == RenderValue(env, depth, One(items[i])).value
  {
    if items != [] {
      RenderItemsShape(env, depth, items[1..]);
      assert forall i :: 1 <= i < |items| ==> items[i] == items[1..][i - 1];
    }
  }

  /**
   * The default `list` rule: `ol` exactly for an ordered list, a `start`
   * prop exactly when an ordered list does not start at 1, and one child per
   * item, each the full rendering of that item, in order.
   */
  lemma ListRule(env: Env, depth: nat, t: Token, c: Children)
    requires Coherent(env.factory, env.slots)
    requires t.Token?
    ensures var r := ApplyDefault(env, depth, List, t, c);
            && (r.Ok? <==> forall i :: 0 <= i < |t.items| ==> RenderValue(env, depth, One(t.items[i])).Ok?)
            && (r.Ok? ==>
                  && r.value.Elem?
                  && (r.value.tag == "ol" <==> t.ordered)
                  && (r.value.tag == "ul" <==> !t.ordered)
                  && ("start" in r.value.props <==> t.ordered && t.start != 1)
                  && ("start" in r.value.props ==> r.value.props["start"] == AttrNum(t.start))
                  && r.value.children.Arr?
                  && |r.value.children.items| == |t.items|
                  && forall i :: 0 <= i < |t.items| ==>
                       r.value.children.items[i] == RenderValue(env, depth, One(t.items[i])).value)
  {
    RenderItemsShape(env, depth, t.items);
  }

  // ---------------------------------------------------------------------
  // The list_item rule

  /**
   * The default `list_item` rule: the sentinel makes it throw; an item that
   * is not a task keeps its children as they are; a task item asks the
   * table's current `checkbox` entry for its box (throwing when the entry is
   * gone) and puts that box in front of the children. How the box and the
   * children are laid out, `p` included, is `ListItemNode`'s contract.
   */
  lemma ListItemRule(env: Env, depth: nat, t: Token, c: Children)
    requires Coherent(env.factory, env.slots)
    requires t.Token?
    ensures c.NotAvailable? ==> ApplyDefault(env, depth, ListItem, t, c) == Err(TypeError)
    ensures c.Present? && !t.task ==>
              ApplyDefault(env, depth, ListItem, t, c) == Ok(ListItemNode(t.loose, None, c.nodes))
    ensures c.Present? && t.task && "checkbox" !in env.factory ==>
              ApplyDefault(env, depth, ListItem, t, c) == Err(TypeError)
    ensures c.Present? && t.task && "checkbox" in env.factory ==>
              && CheckboxFits(env.factory, "checkbox", CheckboxToken(t.checked))
              && var box := Apply(env, depth, "checkbox", CheckboxToken(t.checked), NotAvailable);
                 ApplyDefault(env, depth, ListItem, t, c)
                 == if box.Ok? then Ok(ListItemNode(t.loose, Some(box.value), c.nodes)) else Err(box.fault)
  {
    if "checkbox" in env.factory {
      assert Fits("checkbox", env.factory["checkbox"], env.slots);
      CheckboxKeys();
    }
  }

  /**
   * The box of a task item comes from the entry the table holds when the
   * item is rendered: the default `checkbox` rule draws a disabled checkbox
   * input, and an overriding slot's own answer is used as it is.
   */
  lemma TaskCheckbox(env: Env, depth: nat, checked: bool)
    requires Coherent(env.factory, env.slots)
    requires "checkbox" in env.factory
    ensures CheckboxFits(env.factory, "checkbox", CheckboxToken(checked))
    ensures env.factory["checkbox"] == Default(Checkbox) ==>
              Apply(env, depth, "checkbox", CheckboxToken(checked), NotAvailable)
              == Ok(CheckboxRule(CheckboxToken(checked)))
    ensures env.factory["checkbox"].Wrapper?
            && env.slots("checkbox").Some?
            && env.slots("checkbox").value(CheckboxToken(checked)).Renders? ==>
              Apply(env, depth, "checkbox", CheckboxToken(checked), NotAvailable)
              == Ok(env.slots("checkbox").value(CheckboxToken(checked)).node)
  {
    assert Fits("checkbox", env.factory["checkbox"], env.slots);
    CheckboxKeys();
  }

  // ---------------------------------------------------------------------
  // The table rule

  /** Each cell's tokens are rendered as one array and placed in the cell. */
  lemma {:induction false} RenderCellsShape(env: Env, depth: nat, tag: string, cells: seq<Cell>)
    requires Coherent(env.factory, env.slots)
    ensures RenderCells(env, depth, tag, cells).Ok?
            <==> forall i :: 0 <= i < |cells| ==> RenderValue(env, depth, Many(cells[i].tokens)).Ok?
    ensures RenderCells(env, depth, tag, cells).Ok? ==>
              && |RenderCells(env, depth, tag, cells).value| == |cells|
              && forall i :: 0 <= i < |cells| ==>
                   RenderCells(env, depth, tag, cells).value[i]
                   == CellNode(tag, cells[i], RenderValue(env, depth, Many(cells[i].tokens)).value)
  {
    if cells != [] {
      RenderCellsShape(env, depth, tag, cells[1..]);
      assert forall i :: 1 <= i < |cells| ==> cells[i] == cells[1..][i - 1];
    }
  }

  /** Each body row becomes one `tr` holding its `td` cells, in order. */
  lemma {:induction false} RenderRowsShape(env: Env, depth: nat, rows: seq<Row>)
    requires Coherent(env.factory, env.slots)
    ensures RenderRows(env, depth, rows).Ok?
            <==> forall i :: 0 <= i < |rows| ==> RenderCells(env, depth, "td", rows[i].cells).Ok?
    ensures RenderRows(env, depth, rows).Ok? ==>
              && |RenderRows(env, depth, rows).value| == |rows|
              && forall i :: 0 <= i < |rows| ==>
                   RenderRows(env, depth, rows).value[i]
                   == Elem("tr", map[], Arr(RenderCells(env, depth, "td", rows[i].cells).value))
  {
    if rows != [] {
      RenderRowsShape(env, depth, rows[1..]);
      assert forall i :: 1 <= i < |rows| ==> rows[i] == rows[1..][i - 1];
    }
  }

  /**
   * The default `table` rule: a `thead` with one row of `th` cells, one per
   * header cell, then a `tbody` with one `tr` per body row, or `null` in its
   * place when there are no body rows.
   */
  lemma TableRule(env: Env, depth: nat, t: Token, c: Children)
    requires Coherent(env.factory, env.slots)
    requires t.Token?
    ensures var r := ApplyDefault(env, depth, Table, t, c);
            && (r.Ok? <==> RenderCells(env, depth, "th", t.header).Ok? && RenderRows(env, depth, t.rows).Ok?)
            && (r.Ok? ==>
                  && r.value.Elem? && r.value.tag == "table"
                  && r.value.children.Arr? && |r.value.children.items| == 2
                  && var thead := r.value.children.items[0];
                     var tbody := r.value.children.items[1];
                     && thead.Elem? && thead.tag == "thead"
                     && thead.children == Arr([Elem("tr", map[], Arr(RenderCells(env, depth, "th", t.header).value))])
                     && |RenderCells(env, depth, "th", t.header).value| == |t.header|
                     && (t.rows == [] <==> tbody == Null)
                     && (t.rows != [] ==>
                           && tbody.Elem? && tbody.tag == "tbody"
                           && tbody.children == Arr(RenderRows(env, depth, t.rows).value)
                           && |RenderRows(env, depth, t.rows).value| == |t.rows|))
  {
    RenderCellsShape(env, depth, "th", t.header);
    RenderRowsShape(env, depth, t.rows);
  }

  // ---------------------------------------------------------------------
  // Slot wrappers and content()

  /**
   * A wrapper whose slot renders without calling `content()` yields the
   * slot's own answer, whatever the default rule would have produced.
   */
  lemma WrapperReturnsSlot(env: Env, depth: nat, key: string, t: Token, c: Children)
    requires Coherent(env.factory, env.slots)
    requires key in env.factory && CheckboxFits(env.factory, key, t)
    requires env.factory[key].Wrapper?
    ensures env.factory[key] == Wrapper(key) && env.slots(key).Some?
    ensures env.slots(key).value(t).Renders? ==> Apply(env, depth, key, t, c) == Ok(env.slots(key).value(t).node)
  {
    assert Fits(key, env.factory[key], env.slots);
  }

  /**
   * `content()` finds the rule for its slot name in the table at the time it
   * is called; when nothing is registered under that name it yields no
   * children, and otherwise the normalised children of that rule's result.
   */
  lemma ContentLooksUpTable(env: Env, depth: nat, id: string, t: Token, c: Children)
    requires Coherent(env.factory, env.slots)
    requires id in env.factory ==> CheckboxFits(env.factory, id, t)
    ensures id !in env.factory ==> Content(env, depth, id, t, c) == Ok([])
    ensures id in env.factory && Apply(env, depth, id, t, c).Ok? ==>
              Content(env, depth, id, t, c) == Ok(NormalizeChildren(ChildrenOf(Apply(env, depth, id, t, c).value)))
    ensures id in env.factory && Apply(env, depth, id, t, c).Err? ==>
              Content(env, depth, id, t, c) == Err(Apply(env, depth, id, t, c).fault)
  {
  }

  /**
   * A `content()` kept by the slot and called after the slot has returned
   * (from a child component's render, say), while the same table is still
   * installed, re-enters the wrapper with a slot that now renders without
   * calling it: it yields the normalised children of the slot's own answer,
   * and `[]` when that answer is an array. After the slots are installed
   * again without this slot, the lookup reaches whatever the new table holds
   * (see `MarkedVue.DeferredContentAfterReinstall`).
   */
  lemma DeferredContent(env: Env, depth: nat, id: string, t: Token, c: Children)
    requires Coherent(env.factory, env.slots)
    requires id in env.factory && env.factory[id].Wrapper? && CheckboxFits(env.factory, id, t)
    requires env.slots(id).Some? && env.slots(id).value(t).Renders?
    ensures Content(env, depth, id, t, c) == Ok(NormalizeChildren(ChildrenOf(env.slots(id).value(t).node)))
    ensures env.slots(id).value(t).node.Arr? ==> Content(env, depth, id, t, c) == Ok([])
  {
    WrapperReturnsSlot(env, depth, id, t, c);
    ContentLooksUpTable(env, depth, id, t, c);
  }

  /**
   * Once a slot wrapper is installed under the slot's name, the table entry
   * `content()` finds is that same wrapper, so a slot that calls `content()`
   * while it is itself being called re-enters itself until the stack is
   * exhausted: for every stack budget, rendering through it throws a stack
   * overflow.
   */
  lemma {:induction false} ContentReentersWrapper(env: Env, depth: nat, id: string, t: Token, c: Children)
    requires Coherent(env.factory, env.slots)
    requires id in env.factory && env.factory[id].Wrapper? && CheckboxFits(env.factory, id, t)
    requires env.slots(id).Some? && env.slots(id).value(t).UsesContent?
    ensures Apply(env, depth, id, t, c) == Err(StackOverflow)
    ensures Content(env, depth, id, t, c) == Err(StackOverflow)
    decreases depth
  {
    assert Fits(id, env.factory[id], env.slots);
    if depth > 0 {
      ContentReentersWrapper(env, depth - 1, id, t, c);
    }
  }
}
