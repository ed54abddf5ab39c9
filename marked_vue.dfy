/*
 * The MarkedVue component: each non-empty slot is installed over the default
 * table under the slot's own name, and every update fixes a dangling link at
 * the end of the content, lexes it and renders the tokens, showing nothing
 * when the pass throws.
 */
module MarkedVue {
  import opened Wrappers
  import opened Tokens
  import opened Vnodes
  import opened Overrides
  import opened Renderer
  import opened LinkFix
  import RendererFacts

  /**
   * The table after the slots named `ids` are installed, in order, over
   * `base`: every name whose slot is non-empty gets that slot's wrapper, and
   * other entries stay as they were.
   */
  function Installed(base: Factory, ids: seq<string>, slots: string -> Option<SlotFn>): Factory
  {
    if ids == [] then base
    else
      var before := Installed(base, ids[..|ids| - 1], slots);
      var id := ids[|ids| - 1];
      if slots(id).Some? then before[id := Wrapper(id)] else before
  }

  /**
   * Entry by entry: a name holds its slot's wrapper exactly when it is among
   * the slot names and its slot is non-empty; every other entry of the base
   * table is kept, and no other entry appears.
   */
  lemma {:induction false} InstalledAt(base: Factory, ids: seq<string>, slots: string -> Option<SlotFn>, k: string)
    ensures k in Installed(base, ids, slots) <==> k in base || (k in ids && slots(k).Some?)
    ensures k in ids && slots(k).Some? ==> Installed(base, ids, slots)[k] == Wrapper(k)
    ensures !(k in ids && slots(k).Some?) && k in base ==> Installed(base, ids, slots)[k] == base[k]
  {
    if ids != [] {
      var prefix := ids[..|ids| - 1];
      InstalledAt(base, prefix, slots, k);
      assert ids == prefix + [ids[|ids| - 1]];
      assert k in ids <==> k in prefix || k == ids[|ids| - 1];
    }
  }

  /** Every table the component builds is coherent with its slots. */
  lemma InstalledCoherent(ids: seq<string>, slots: string -> Option<SlotFn>)
    ensures Coherent(Installed(DefaultFactory(), ids, slots), slots)
  {
    var f := Installed(DefaultFactory(), ids, slots);
    DefaultFactoryCoherent(slots);
    forall k | k in f ensures Fits(k, f[k], slots) {
      InstalledAt(DefaultFactory(), ids, slots, k);
    }
  }

  /** The order in which slots are installed, and repeated names, do not matter. */
  lemma InstalledOrderIrrelevant(base: Factory, ids1: seq<string>, ids2: seq<string>, slots: string -> Option<SlotFn>)
    requires forall k :: k in ids1 <==> k in ids2
    ensures Installed(base, ids1, slots) == Installed(base, ids2, slots)
  {
    var f1 := Installed(base, ids1, slots);
    var f2 := Installed(base, ids2, slots);
    forall k ensures (k in f1 <==> k in f2) && (k in f1 ==> f1[k] == f2[k]) {
      InstalledAt(base, ids1, slots, k);
      InstalledAt(base, ids2, slots, k);
    }
  }

  /** Installing the same slots again changes nothing. */
  lemma InstalledIdempotent(base: Factory, ids: seq<string>, slots: string -> Option<SlotFn>)
    ensures Installed(Installed(base, ids, slots), ids, slots) == Installed(base, ids, slots)
  {
    var f := Installed(base, ids, slots);
    var g := Installed(f, ids, slots);
    forall k ensures (k in g <==> k in f) && (k in g ==> g[k] == f[k]) {
      InstalledAt(base, ids, slots, k);
      InstalledAt(f, ids, slots, k);
    }
  }

  /**
   * A slot that calls `content()` while it is being called never gets the
   * default rendering: the wrapper `content()` finds under the slot's name is
   * the slot's own, so rendering through it throws a stack overflow for every
   * stack budget.
   */
  lemma SlotContentOverflows(
    ids: seq<string>, slots: string -> Option<SlotFn>, he: string -> string,
    depth: nat, id: string, t: Token, c: Children)
    requires id in ids && slots(id).Some? && slots(id).value(t).UsesContent?
    ensures var f := Installed(DefaultFactory(), ids, slots);
            && Coherent(f, slots)
            && id in f && f[id] == Wrapper(id) && CheckboxFits(f, id, t)
            && Apply(Env(f, slots, he), depth, id, t, c) == Err(StackOverflow)
  {
    var f := Installed(DefaultFactory(), ids, slots);
    InstalledCoherent(ids, slots);
    InstalledAt(DefaultFactory(), ids, slots, id);
    RendererFacts.ContentReentersWrapper(Env(f, slots, he), depth, id, t, c);
  }

  /**
   * `content()` reads the table the component holds when it is called: once
   * the slots are installed again without a `paragraph` slot, a kept
   * `content()` of the old `paragraph` wrapper reaches the default rule and
   * yields the children argument itself.
   */
  lemma DeferredContentAfterReinstall(
    ids: seq<string>, s2: string -> Option<SlotFn>, he: string -> string,
    depth: nat, t: Token, xs: seq<Node>)
    requires t.Token? && s2("paragraph").None?
    ensures var f := Installed(DefaultFactory(), ids, s2);
            && Coherent(f, s2)
            && "paragraph" in f && f["paragraph"] == Default(Paragraph)
            && Content(Env(f, s2, he), depth, "paragraph", t, Present(xs)) == Ok(xs)
  {
    var f := Installed(DefaultFactory(), ids, s2);
    InstalledCoherent(ids, s2);
    DefaultFactoryHasAll(Paragraph);
    InstalledAt(DefaultFactory(), ids, s2, "paragraph");
    RendererFacts.DefaultEntryRunsRule(Env(f, s2, he), depth, "paragraph", t, Present(xs));
    RendererFacts.WrappingRules(Env(f, s2, he), depth, t, Present(xs));
  }

  /** The component's state: its slots, its renderer and the tree it shows. */
  class Component {
    var slots: string -> Option<SlotFn>
    var renderer: VueMarkedRenderer
    var renderedVnode: Node

    predicate Valid()
      reads this, renderer
    {
      Coherent(renderer.factory, slots)
    }

    /**
     * The part of `setup` before the watchers fire: nothing is shown yet, and
     * the slots present are installed.
     */
    constructor(ids: seq<string>, s: string -> Option<SlotFn>)
      ensures Valid()
      ensures slots == s && renderer.factory == Installed(DefaultFactory(), ids, s)
      ensures renderedVnode == Null
    {
      renderedVnode := Null;
      slots := s;
      renderer := new VueMarkedRenderer();
      new;
      InstallSlots(ids, s);
    }

    /**
     * The synchronous effect on the slots: a fresh renderer whose table is
     * the default one with every non-empty slot among `ids` wrapped in.
     */
    method InstallSlots(ids: seq<string>, s: string -> Option<SlotFn>)
      modifies this`renderer, this`slots
      ensures fresh(renderer)
      ensures slots == s && renderer.factory == Installed(DefaultFactory(), ids, s)
      ensures Valid()
    {
      var r := new VueMarkedRenderer();
      var k := 0;
      while k < |ids|
        invariant 0 <= k <= |ids|
        invariant r.factory == Installed(DefaultFactory(), ids[..k], s)
      {
        var id := ids[k];
        assert ids[..k + 1][..k] == ids[..k];
        if s(id).Some? {
          r.factory := r.factory[id := Wrapper(id)];
        }
        k := k + 1;
      }
      assert ids[..|ids|] == ids;
      renderer := r;
      slots := s;
      InstalledCoherent(ids, s);
    }

    /**
     * `update`: the content with its dangling link fixed is lexed and
     * rendered; the result is shown, or `null` when the pass throws, which
     * happens exactly when some top-level token fails to render.
     */
    method Update(content: string, lexer: string -> seq<Token>, he: string -> string, depth: nat)
      requires Valid()
      modifies this`renderedVnode
      ensures var r := renderer.Render(slots, he, depth, Many(lexer(FixLink(content))));
              renderedVnode == if r.Ok? then r.value else Null
      ensures var tokens := lexer(FixLink(content));
              renderedVnode == Null
              <==> exists i :: 0 <= i < |tokens| && RenderToken(Env(renderer.factory, slots, he), depth, tokens[i]).Err?
    {
      var fixedContent := FixLink(content);
      var parsed := lexer(fixedContent);
      var r := renderer.Render(slots, he, depth, Many(parsed));
      if r.Ok? {
        renderedVnode := r.value;
      } else {
        renderedVnode := Null;
      }
    }
  }
}
