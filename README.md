# marked-vue: a verified model of the token renderer and the slot layer

marked-vue turns the token tree of the Marked lexer into Vue virtual nodes. This
project models its two core pieces in Dafny and proves what they promise.

- **The renderer** (`src/renderer.ts`):
  - `VueMarkedRenderer` holds a mutable `factory` table from token type to rule.
  - `render` returns `null` for a missing input and maps an array one-to-one.
  - For a single token, `render` first renders the token's own `tokens` array. It then hands the token to the rule registered for its type, passing either the rendered children or the `ChildrenNotAvaliable` sentinel. An unregistered type renders as its children, or as `null`.
  - `getDefaultVNodeFactory` supplies one rule per token kind plus the synthetic `checkbox` rule.
  - Three rules re-enter the engine: `list`, `list_item` and `table`.
- **The component** (`src/MarkedVue.ts`):
  - Every non-empty slot is installed on a fresh renderer under the slot's own name.
  - The installed wrapper calls the slot with `{ token, content }`. `content()` looks up `renderer.factory[id]` when it is called and normalises that rule's `.children`.
  - Before lexing, `update` cuts a half-typed link at the end of the content down to `[text]…`.
  - `update` then shows the rendered tree, or `null` when the pass throws.

## How the model is built

- **Values.** Tokens, nodes and props are datatypes (`tokens.dfy`, `vnodes.dfy`).
  - One `Token` constructor carries every field a token kind can read.
  - The hand-built checkbox record `{ checked }` is a constructor of its own. It has no `type`, so its dispatch key is the string `"undefined"`.
- **Rules.** A table entry is `Default(b)` for a default rule or `Wrapper(id)` for an installed slot. The engine interprets both (`renderer.dfy`):
  - `RenderValue`, `RenderSeq`, `RenderedChildren`, `RenderToken`, `Apply`, `Content`, `ApplyDefault`, `ListItemCheckbox` and the three map helpers are one mutually recursive group of functions.
  - Termination follows the token tree. In addition, each nested `content()` call spends one unit of `depth`, the room left on the call stack.
- **Slots.** A slot is an abstract function of the token (`overrides.dfy`). For a given token it either renders without calling `content()`, or calls `content()` and builds its answer from the nodes returned.
- **Errors.** The outcome of a pass is a `Result`. Given well-formed tokens (see "Token fields" below), the engine can throw in three ways:
  - a stack overflow when `depth` runs out;
  - a `TypeError` when `list_item` spreads the sentinel;
  - a `TypeError` when `list_item` calls a `checkbox` entry that does not exist.
- **Mutable state.** The renderer's table is a field of the class `VueMarkedRenderer`. The component is the class `MarkedVue.Component`:
  - its slot-installation loop is a `while` loop over the slot names (`InstallSlots`);
  - `Update` writes `renderedVnode`.
- **The link fix** (`link_fix.dfy`) is a string function. The regular expression `/\]\(([^)\s]*)$/` is an explicit predicate over positions (`LinkTailAt`), and `FindLinkTail` finds its leftmost match.

Behaviours of the code worth knowing:

- **`content()` re-enters the slot's own wrapper.** `content()` reads `renderer.factory[id]` when it is called, and that entry is the wrapper installed for the slot. So a slot that calls `content()` while it is being called re-enters itself until the stack overflows (`RendererFacts.ContentReentersWrapper`, `MarkedVue.SlotContentOverflows`). A slot that keeps `content` and calls it only after it has returned, while the same renderer is installed, gets the normalised children of its own answer, which is `[]` when that answer is an array (`RendererFacts.DeferredContent`). `content()` reads the `renderer` variable, so after the slots are installed again the lookup goes to the new table: without the slot it reaches the default rule (`MarkedVue.DeferredContentAfterReinstall`).
- **The slot receives only `token` and `content`.** No other callback gives it the result of the rule that was in the table before.
- **The link fix keeps the `]`.** `"see [my link](http://exa"` becomes `"see [my link]…"` (`LinkFix.FixLinkExample`).
- **A loose task item puts its checkbox inside the `p`**, together with the children, because the checkbox is added before the `loose` rewrap.

## Model

| member | source | states |
|---|---|---|
| Renderer.NameRoundTrip | src/renderer.ts:31-121 | every default rule is found under its own key |
| Renderer.AllBuiltinsComplete | src/renderer.ts:31-121 | the default table covers every default rule, `checkbox` included |
| Renderer.NamesDistinct | src/renderer.ts:31-121 | no two default rules share a key |
| Renderer.DefaultFactory | src/renderer.ts:31-121 | `getDefaultVNodeFactory()`; `DefaultFactoryHasAll` and `DefaultFactoryOnlyNames` state that it holds exactly one entry per standard name, the rule of that name |
| Renderer.DefaultFactoryHasAll | src/renderer.ts:31-121 | `getDefaultVNodeFactory()` holds each default rule under its own key |
| Renderer.DefaultFactoryOnlyNames | src/renderer.ts:31-121 | every key of the default table is a standard name and holds the rule of that name |
| Renderer.CheckboxKeys | src/renderer.ts:75 | the hand-built checkbox record, looked up as "undefined", finds no default rule, and "checkbox" names only the checkbox rule |
| Renderer.DefaultFactoryCoherent | src/renderer.ts:130 | the default table a new renderer starts with is well-formed for any slots |
| Renderer.Unescape | src/renderer.ts:26-29 | `he.unescape` on a string; a non-string (absent text) is returned unchanged |
| Renderer.CodeRule | src/renderer.ts:36-43 | a `pre` around a `code` holding the unescaped text; `class = "language-"+lang` and `data-lang` are present exactly when `lang` is non-empty |
| Renderer.HeadingRule | src/renderer.ts:54-56 | `h<depth>` around the children argument, with no props |
| Renderer.CheckboxRule | src/renderer.ts:82-88 | a disabled checkbox `input` whose `checked` prop is the record's `checked` |
| Renderer.LinkRule | src/renderer.ts:118 | an `a` with exactly `href` and `title` around the children |
| Renderer.ImageRule | src/renderer.ts:119 | an `img` with exactly `src`, `alt` and `title`, ignoring the children |
| Renderer.TextRule | src/renderer.ts:120 | with the sentinel, the unescaped text; with children, those children verbatim |
| Renderer.LeafRule | src/renderer.ts:32-120 | the default rules that never re-enter the engine; `LeafRules`, `WrappingRules` and `VoidRules` state the node of each |
| Renderer.ListNode | src/renderer.ts:62-68 | tag `ol` iff ordered, else `ul`; a `start` prop iff ordered and start is not 1, holding start; the items as children |
| Renderer.ListItemNode | src/renderer.ts:70-80 | an `li`; the checkbox, if any, comes first and the children follow in order; a loose item puts all of them, checkbox included, in one `p` |
| Renderer.CellNode | src/renderer.ts:95-99 | a `th`/`td` with an `align` prop exactly when the alignment is truthy, and the rendered cell tokens as its one child |
| Renderer.TableNode | src/renderer.ts:101-109 | the `table` skeleton; `TableRule` states its `thead`, `tbody` and the `null` for an empty body |
| Renderer.ChildrenArg | src/renderer.ts:143 | the children argument; `ChildrenArgument` states that it is the sentinel without a `tokens` array and the rendered array otherwise |
| Renderer.Fallback | src/renderer.ts:147 | `children \|\| null`; `Dispatch` states that an unregistered type renders as its rendered `tokens` array, or `null` without one |
| Renderer.RenderValue | src/renderer.ts:135-152 | `render`; `VueMarkedRenderer.Render` and `RenderSeqShape` state its three input cases |
| Renderer.RenderSeq | src/renderer.ts:150 | `tokens.map(renderToken)`; `RenderSeqShape` states it is one-to-one, in order, and fails at the first failing token |
| Renderer.RenderedChildren | src/renderer.ts:140 | the rendered `tokens` array; `ChildrenArgument` states it |
| Renderer.RenderToken | src/renderer.ts:138-148 | `renderToken`; `Dispatch` states that children come first and the current table entry, or the fallback, decides |
| Renderer.Apply | src/renderer.ts:144 | `factory[type](token, c, ctx)`; `DefaultEntryRunsRule` states that a default entry runs its rule, and `WrapperReturnsSlot`, `ContentReentersWrapper` and `DeferredContent` cover the slot wrappers of src/MarkedVue.ts:46-49 |
| RendererFacts.DefaultEntryRunsRule | src/renderer.ts:144 | a table entry holding a default rule runs that rule on the token and the children argument, whatever the slots are |
| Renderer.Content | src/MarkedVue.ts:49-58 | `content()`; `ContentLooksUpTable` states its lookup and normalisation |
| Renderer.ApplyDefault | src/renderer.ts:31-121 | the default rules; `DefaultIsLeaf`, `LeafRules`, `WrappingRules`, `VoidRules`, `ListRule`, `ListItemRule` and `TableRule` state each one's result |
| Renderer.ListItemCheckbox | src/renderer.ts:74-76 | the task box; `ListItemRule` and `TaskCheckbox` state where it comes from and when it throws |
| Renderer.RenderItems | src/renderer.ts:67 | `items.map(item => ctx.render(item))`; `RenderItemsShape` states it |
| Renderer.RenderCells | src/renderer.ts:95-103 | `header.map(renderCell)`; `RenderCellsShape` states it |
| Renderer.RenderRows | src/renderer.ts:105-107 | `rows.map(...)`; `RenderRowsShape` states it |
| Renderer.RenderSeqShape | src/renderer.ts:150 | an array renders one-to-one and in order; the pass throws iff some token throws, with the first failing token's error |
| Renderer.VueMarkedRenderer.constructor | src/renderer.ts:129-130 | a new renderer's table is the default table |
| Renderer.VueMarkedRenderer.Render | src/renderer.ts:135-152 | missing input gives `null`; one token is dispatched; an array gives an array of the same length whose element i is token i's rendering, and fails iff some token fails |
| Tokens.TypeKey | src/renderer.ts:139 | the dispatch key is `token.type`; the hand-built checkbox record has none and is looked up as "undefined" |
| RendererFacts.ChildrenArgument | src/renderer.ts:140-143 | no `tokens` array gives the sentinel; an array gives exactly one rendered child per nested token, in order, even when empty; the single-value wrap is never taken |
| RendererFacts.Dispatch | src/renderer.ts:138-147 | nested tokens are rendered first; a registered type goes to the current table entry; an unregistered one renders as its `tokens` array, or `null` without one |
| RendererFacts.LeafRules | src/renderer.ts:32-120 | `space` is " ", `def` and `escape` are `null`, `codespan` and `html` keep the raw text, and `code` and `text` unescape; none of them fails |
| RendererFacts.DefaultIsLeaf | src/renderer.ts:31-121 | every default rule other than `list`, `list_item` and `table` succeeds with its own node, whatever the table and the stack budget |
| RendererFacts.VoidRules | src/renderer.ts:58-116 | `hr` and `br` are empty elements with no props |
| RendererFacts.WrappingRules | src/renderer.ts:45-117 | `blockquote`, `paragraph`, `strong`, `em` and `del` put the children argument, as passed, in their own element with no props |
| RendererFacts.RenderItemsShape | src/renderer.ts:67 | each list item is rendered by a full `render` call, in order, and the map throws iff some item throws |
| RendererFacts.ListRule | src/renderer.ts:62-68 | the list rule's result: `ol`/`ul` by `ordered`, `start` iff ordered and not 1, one child per item from `render(item)` |
| RendererFacts.ListItemRule | src/renderer.ts:70-80 | the sentinel throws; a task item gets its box from the current `checkbox` entry (throwing if it is gone) in front of the copied children |
| RendererFacts.TaskCheckbox | src/renderer.ts:75 | the default `checkbox` entry gives the disabled input; an overriding slot's own answer is used instead |
| RendererFacts.RenderCellsShape | src/renderer.ts:95-103 | each cell becomes one `th`/`td` holding `render(cell.tokens)`, in order |
| RendererFacts.RenderRowsShape | src/renderer.ts:106-107 | each body row becomes one `tr` of `td` cells, in order |
| RendererFacts.TableRule | src/renderer.ts:94-110 | `table` has exactly a `thead` with one `th` per header cell and then a `tbody` with one `tr` per row, or `null` iff there are no rows |
| RendererFacts.WrapperReturnsSlot | src/MarkedVue.ts:46-49 | an installed wrapper sits under its slot's name, and a slot that does not call `content()` yields exactly its own answer |
| RendererFacts.ContentLooksUpTable | src/MarkedVue.ts:49-54 | `content()` looks the name up when called; a missing entry gives `[]`; otherwise the normalised children of that entry's result |
| RendererFacts.ContentReentersWrapper | src/MarkedVue.ts:46-58 | under a table holding the slot's wrapper, a slot that calls `content()` while it is being called throws a stack overflow for every stack budget |
| RendererFacts.DeferredContent | src/MarkedVue.ts:46-58 | while the table still holds the slot's wrapper, a `content()` called after its slot has returned yields the normalised children of the slot's own answer, and `[]` when that answer is an array |
| MarkedVue.DeferredContentAfterReinstall | src/MarkedVue.ts:41-54 | after the slots are installed again without a `paragraph` slot, a kept `content()` for `paragraph` reaches the default rule and yields the children argument |
| Overrides.ChildrenOf | src/MarkedVue.ts:52 | `?.children` of an element or comment is its children; other values have none |
| Overrides.NormalizeChildren | src/MarkedVue.ts:54-57 | falsy gives `[]`, a string becomes `[span(s)]`, an array is returned as is, anything else becomes a one-element list |
| Overrides.NormalizeStable | src/MarkedVue.ts:54-57 | normalising the normalised list again changes nothing; the list is empty iff the children were falsy or an empty array |
| LinkFix.LastNewline | src/MarkedVue.ts:69 | `lastIndexOf('\n')` is -1 or the position of a newline |
| LinkFix.LastNewlineAfter | src/MarkedVue.ts:69 | no newline follows the last newline |
| LinkFix.LastNewlineUnique | src/MarkedVue.ts:69 | the last newline is the one newline with no newline after it |
| LinkFix.LastLine | src/MarkedVue.ts:69 | the text after the last newline, never longer than the content; `FixedLastLine` states how the fix changes it |
| LinkFix.LinkTailAt | src/MarkedVue.ts:70 | `/\]\(([^)\s]*)$/` matching from a position; `FindLinkTail`, `DanglingLink` and `CutHasNoTail` state facts about it |
| LinkFix.FindLinkTail | src/MarkedVue.ts:70 | the regex match found is the leftmost position where `](` is followed only by non-`)`, non-space characters to the end |
| LinkFix.FindsLeftmost | src/MarkedVue.ts:70 | the scan stops at the first matching position |
| LinkFix.DanglingLink | src/MarkedVue.ts:70 | a match is reported iff the last line has a `[` and some matching position; it is the leftmost one |
| LinkFix.FixLink | src/MarkedVue.ts:66-73 | the fix; `FixLinkUnchanged`, `FixLinkCut`, `FixLinkApplied` and `FixLinkIdempotent` characterise it |
| LinkFix.FixLinkUnchanged | src/MarkedVue.ts:69-73 | the content is unchanged iff its last line has no `[` or no dangling `](…` |
| LinkFix.FixLinkCut | src/MarkedVue.ts:70-72 | the cut falls just after the `]` of the leftmost match in the last line |
| LinkFix.FixLinkApplied | src/MarkedVue.ts:70-72 | the result is the content through the `]` of the leftmost match plus `…`; the lines before the last are untouched and the result is never longer |
| LinkFix.FixedLastLine | src/MarkedVue.ts:69-72 | after the fix, the last line is the old last line cut after its `]`, plus `…` |
| LinkFix.CutHasNoTail | src/MarkedVue.ts:70-72 | the cut line has no dangling `](` left |
| LinkFix.FixLinkIdempotent | src/MarkedVue.ts:66-73 | fixing fixed content changes nothing |
| LinkFix.FixLinkExample | src/MarkedVue.ts:72 | `"see [my link](http://exa"` becomes `"see [my link]…"` |
| LinkFix.FixLinkFinishedExample | src/MarkedVue.ts:70-71 | a finished link is left alone |
| LinkFix.FixLinkEarlierLineExample | src/MarkedVue.ts:69-71 | a dangling link on an earlier line is left alone |
| MarkedVue.Installed | src/MarkedVue.ts:42-46 | the table after the install loop; `InstalledAt` states it entry by entry |
| MarkedVue.InstalledAt | src/MarkedVue.ts:42-46 | a key holds its slot's wrapper iff it is a slot name with a non-empty slot, custom names included; every other default entry is kept |
| MarkedVue.InstalledCoherent | src/MarkedVue.ts:40-61 | every installed table is well-formed for its slots |
| MarkedVue.InstalledOrderIrrelevant | src/MarkedVue.ts:42 | the order of the slot names, and repeated names, do not change the table |
| MarkedVue.InstalledIdempotent | src/MarkedVue.ts:40-61 | installing the same slots twice equals installing them once |
| MarkedVue.SlotContentOverflows | src/MarkedVue.ts:46-58 | in the component's own table, a slot that calls `content()` while it is being called always ends in a stack overflow |
| MarkedVue.Component.constructor | src/MarkedVue.ts:27-62 | nothing is shown yet, and the renderer holds the installed table |
| MarkedVue.Component.InstallSlots | src/MarkedVue.ts:40-61 | a fresh renderer whose table is the default table with each non-empty slot wrapped in under its own name |
| MarkedVue.Component.Update | src/MarkedVue.ts:64-83 | shows the rendering of the lexed, link-fixed content, or `null` iff some top-level token fails to render |

## Left out

- **Vue itself.** The reactivity and lifecycle (`watchEffect`, `watchSyncEffect`, `watch` with `flush: 'post'`, `shallowRef`, `defineComponent`, `render`) are scheduling, not logic. `InstallSlots` and `Update` are the effects they run.
- **The Marked library.** `new Marked()`, `setOptions`, the user `setup` callback and `lexer` are out of scope. `Update` takes the lexer as a function parameter.
- **Lexer errors.** `Update` does not model the lexer or the Marked setup throwing.
- **Throwing slots.** A slot is modelled as never throwing.
- **Deferred `content()` calls.** A slot is either one that calls `content()` during its own call or one that does not. A `content()` kept and called later runs outside the render pass. Its lookup uses whatever table `renderer` holds at call time. While the same table is installed it yields the normalised children of the slot's answer, `[]` for an array (`RendererFacts.DeferredContent`). After a re-run of the slot effect without the slot it reaches the default rule, or nothing for a custom name (`MarkedVue.DeferredContentAfterReinstall` shows the `paragraph` case). When such a call happens is not modelled.
- **`he.unescape`** is a function parameter; only its use on strings and the pass-through of non-strings are modelled.
- **Vue's `h`.** Nodes record the children argument exactly as it was passed to `h`. Not modelled:
  - Vue's later normalisation, which wraps a single vnode child, drops `null`s and makes strings text nodes;
  - the difference between `null` and `{}` props, which are both the empty map.
- **JavaScript `in`.** The check at src/renderer.ts:142 is plain key membership. JavaScript's `in` would also find `Object.prototype` keys such as `"constructor"`.
- **Stack depth.** `depth` stands for the JavaScript call stack only as far as nested `content()` calls are concerned. Deep token trees are not charged against it.
- **Strings** are sequences of code points, not UTF-16 units. The link fix cuts just after an ASCII `]`, so the two agree on it.
- **Token fields** are already coerced: `lang` is `""` when absent, and `checked` is `!!checked`.
- **Missing token arrays.** A `list` token's `items` and a `table` token's `header` and `rows` are assumed present, as the Marked lexer always supplies them. A token missing one of them throws a `TypeError` in the source (src/renderer.ts:67, 103, 105); the model's `Token` holds a sequence there, so that throw is not modelled.
- MarkedVue.Component.Update: an error thrown by the lexer, or by a slot, is not modelled. The `try/catch` is modelled only for errors the engine itself raises, and its `console.error(err)` logging is left out as I/O.
- Renderer.HeadingRule: the tag is stated for depths 1 to 9 only. For other depths it is `"h"` followed by the decimal form of the depth, which the contract does not spell out.
