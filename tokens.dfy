/**
 * The token tree handed to the renderer by the markdown lexer.
 *
 * One constructor carries every field a token kind may read; a field a kind
 * does not have is given its empty value (`NoTokens`, `None`, `[]`, `false`,
 * `""`). The checkbox record that the `list_item` rule builds by hand has
 * only a `checked` field (and no `type`), so it is a constructor of its own.
 */
module Tokens {
  import opened Wrappers

  /** The `tokens` field: absent (or not an array), or an array of tokens. */
  datatype TokenList = NoTokens | TokenArray(list: seq<Token>)

  /** A table cell: its inline tokens and its alignment (`null` when none). */
  datatype Cell = Cell(tokens: seq<Token>, align: Option<string>)

  /** A body row of a table. */
  datatype Row = Row(cells: seq<Cell>)

  datatype Token =
    | Token(
        tokenType: string,            // `type`
        tokens: TokenList,
        text: Option<string>,         // `undefined` when absent
        depth: int,                   // heading level
        ordered: bool,
        start: int,                   // first number of an ordered list
        items: seq<Token>,            // list items
        task: bool,
        checked: bool,                // `!!checked`
        loose: bool,
        lang: string,                 // code language, "" when absent
        header: seq<Cell>,
        rows: seq<Row>,
        href: string,
        title: Option<string>)        // `null` when absent
    | CheckboxToken(checked: bool)    // `{ checked: !!token.checked }`

  /**
   * The key under which a token is looked up in the factory: `token.type`,
   * which JavaScript turns into the string "undefined" for the checkbox
   * record.
   */
  function TypeKey(t: Token): (k: string)
    ensures t.Token? ==> k == t.tokenType
    ensures t.CheckboxToken? ==> k == "undefined"
  {
    if t.Token? then t.tokenType else "undefined"
  }

  /** A termination measure covering nested tokens, list items and table cells. */
  function Size(t: Token): (n: nat)
    ensures t.Token? ==> n >= 2
    ensures n >= 1
  {
    match t
    case CheckboxToken(_) => 1
    case Token(_, tokens, _, _, _, _, items, _, _, _, _, header, rows, _, _) =>
      2 + ListSize(tokens) + SeqSize(items) + CellsSize(header) + RowsSize(rows)
  }

  function ListSize(l: TokenList): nat
  {
    match l
    case NoTokens => 0
    case TokenArray(ts) => SeqSize(ts)
  }

  function SeqSize(ts: seq<Token>): nat
  {
    if ts == [] then 0 else Size(ts[0]) + SeqSize(ts[1..])
  }

  function CellsSize(cells: seq<Cell>): nat
  {
    if cells == [] then 0 else 1 + SeqSize(cells[0].tokens) + CellsSize(cells[1..])
  }

  function RowsSize(rows: seq<Row>): nat
  {
    if rows == [] then 0 else 1 + CellsSize(rows[0].cells) + RowsSize(rows[1..])
  }
}
