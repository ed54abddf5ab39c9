/*
 * The "unfinished link" fix applied to streamed markdown before it is lexed:
 * when the last line of the content holds a `[` and ends in `](` followed by
 * an unterminated URL, everything after the `]` is replaced by an ellipsis,
 * so that half-typed links do not flash as raw markdown.
 */
module LinkFix {
  import opened Wrappers

  /** U+2026 HORIZONTAL ELLIPSIS. */
  const Ellipsis: char := '\U{2026}'

  /** The characters `\s` matches in an ECMAScript regular expression. */
  predicate IsJsWhitespace(c: char)
  {
    || c == '\t' || c == '\n' || c == '\U{000B}' || c == '\U{000C}' || c == '\r' || c == ' '
    || c == '\U{00A0}' || c == '\U{1680}' || ('\U{2000}' <= c <= '\U{200A}')
    || c == '\U{2028}' || c == '\U{2029}' || c == '\U{202F}' || c == '\U{205F}'
    || c == '\U{3000}' || c == '\U{FEFF}'
  }

  /** `s.lastIndexOf('\n')`: the position of the last newline, or -1 when there is none. */
  function LastNewline(s: string): (k: int)
    ensures -1 <= k < |s|
    ensures k >= 0 ==> s[k] == '\n'
  {
    if s == [] then -1
    else if s[|s| - 1] == '\n' then |s| - 1
    else LastNewline(s[..|s| - 1])
  }

  /** `s.slice(s.lastIndexOf('\n') + 1)`: the text after the last newline, or all of it. */
  function LastLine(s: string): (r: string)
    ensures |r| <= |s|
  {
    s[LastNewline(s) + 1..]
  }

  /**
   * `/\]\(([^)\s]*)$/` matches `line` from position `i`: a `](` there, and
   * nothing after it up to the end of the line is `)` or whitespace.
   */
  predicate LinkTailAt(line: string, i: int)
  {
    && 0 <= i && i + 1 < |line|
    && line[i] == ']' && line[i + 1] == '('
    && forall j :: i + 2 <= j < |line| ==> line[j] != ')' && !IsJsWhitespace(line[j])
  }

  /** `exec` of that pattern, scanning from `from`: the leftmost position where it matches. */
  function FindLinkTail(line: string, from: nat): (r: Option<nat>)
    requires from <= |line|
    ensures r.Some? ==> from <= r.value && LinkTailAt(line, r.value)
    ensures r.Some? ==> forall j :: from <= j < r.value ==> !LinkTailAt(line, j)
    ensures r.None? ==> forall j :: from <= j ==> !LinkTailAt(line, j)
    decreases |line| - from
  {
    if from == |line| then None
    else if LinkTailAt(line, from) then Some(from)
    else FindLinkTail(line, from + 1)
  }

  /**
   * `lastLine.includes('[') && pattern.exec(lastLine)`: where the dangling
   * link tail of the last line starts, if the fix applies to it.
   */
  function DanglingLink(line: string): (r: Option<nat>)
    ensures r.Some? <==> '[' in line && exists i :: LinkTailAt(line, i)
    ensures r.Some? ==> LinkTailAt(line, r.value)
    ensures r.Some? ==> forall j :: 0 <= j < r.value ==> !LinkTailAt(line, j)
  {
    if '[' in line then FindLinkTail(line, 0) else None
  }

  /**
   * The fix: `content.slice(0, -match.length + 1) + '…'` when there is a
   * dangling link. The match runs to the end of the content, so cutting
   * `match.length - 1` characters keeps the `]`.
   */
  function FixLink(s: string): string
  {
    var line := LastLine(s);
    match DanglingLink(line)
    case Some(i) => s[..|s| - (|line| - i) + 1] + [Ellipsis]
    case None => s
  }

  /** The content is left alone exactly when its last line has no `[` or no dangling `](…`. */
  lemma FixLinkUnchanged(s: string)
    ensures FixLink(s) == s <==> DanglingLink(LastLine(s)).None?
  {
    var nl := LastNewline(s);
    var line := LastLine(s);
    if DanglingLink(line).Some? {
      var i := DanglingLink(line).value;
      var fixed := s[..nl + i + 2] + [Ellipsis];
      assert FixLink(s) == fixed;
      assert fixed[nl + i + 2] == Ellipsis;
      assert s[nl + i + 2] == line[i + 1] == '(';
    }
  }

  /**
   * When the fix applies, the result is the content up to and including the
   * `]` of the leftmost dangling `](`, then an ellipsis; earlier lines are
   * untouched and the content never grows.
   */
  lemma FixLinkApplied(s: string, i: nat)
    requires '[' in LastLine(s)
    requires LinkTailAt(LastLine(s), i)
    requires forall j :: 0 <= j < i ==> !LinkTailAt(LastLine(s), j)
    ensures var k := LastNewline(s) + 1 + i;
            && FixLink(s) == s[..k + 1] + [Ellipsis]
            && s[k] == ']' && s[k + 1] == '('
            && |FixLink(s)| <= |s|
            && FixLink(s)[..LastNewline(s) + 1] == s[..LastNewline(s) + 1]
  {
    var line := LastLine(s);
    var k := LastNewline(s) + 1 + i;
    FixLinkCut(s, i);
    assert s[k] == line[i] && s[k + 1] == line[i + 1];
  }

  /** Where the cut falls: just after the `]` of the leftmost dangling `](`. */
  lemma FixLinkCut(s: string, i: nat)
    requires '[' in LastLine(s)
    requires LinkTailAt(LastLine(s), i)
    requires forall j :: 0 <= j < i ==> !LinkTailAt(LastLine(s), j)
    ensures FixLink(s) == s[..LastNewline(s) + 2 + i] + [Ellipsis]
  {
    FindsLeftmost(LastLine(s), 0, i);
  }

  /** Fixing twice is fixing once: the fixed text no longer ends in a dangling `](`. */
  lemma FixLinkIdempotent(s: string)
    ensures FixLink(FixLink(s)) == FixLink(s)
  {
    var line := LastLine(s);
    if DanglingLink(line).Some? {
      var i := DanglingLink(line).value;
      FixedLastLine(s, i);
      CutHasNoTail(line, i, LastLine(FixLink(s)));
      FixLinkUnchanged(FixLink(s));
    }
  }

  /** The fix only shortens the last line: the fixed text's last line is the cut line. */
  lemma FixedLastLine(s: string, i: nat)
    requires DanglingLink(LastLine(s)) == Some(i)
    ensures LastLine(FixLink(s)) == LastLine(s)[..i + 1] + [Ellipsis]
  {
    var line := LastLine(s);
    var nl := LastNewline(s);
    var r := FixLink(s);
    assert r == s[..nl + i + 2] + [Ellipsis];
    forall j | nl < j < |r| ensures r[j] != '\n' {
      if j < |r| - 1 {
        LastNewlineAfter(s, j);
      }
    }
    LastNewlineUnique(r, nl);
  }

  /** Cutting a line after the `]` of its leftmost dangling `](` leaves no dangling `](`. */
  lemma CutHasNoTail(line: string, i: nat, cut: string)
    requires LinkTailAt(line, i)
    requires forall j :: 0 <= j < i ==> !LinkTailAt(line, j)
    requires cut == line[..i + 1] + [Ellipsis]
    ensures forall j :: !LinkTailAt(cut, j)
  {
    forall j | LinkTailAt(cut, j) ensures false {
      if j < i {
        forall m | j + 2 <= m < |line| ensures line[m] != ')' && !IsJsWhitespace(line[m]) {
          if m <= i {
            assert line[m] == cut[m];
          }
        }
        assert LinkTailAt(line, j);
      }
    }
  }

  /** The scan stops at the first position where the pattern matches. */
  lemma {:induction false} FindsLeftmost(line: string, from: nat, i: nat)
    requires from <= i && LinkTailAt(line, i)
    requires forall j :: from <= j < i ==> !LinkTailAt(line, j)
    ensures FindLinkTail(line, from) == Some(i)
    decreases i - from
  {
    if from < i {
      FindsLeftmost(line, from + 1, i);
    }
  }

  /** No newline comes after the last one. */
  lemma {:induction false} LastNewlineAfter(s: string, j: int)
    requires LastNewline(s) < j < |s|
    ensures s[j] != '\n'
  {
    if s[|s| - 1] != '\n' && j < |s| - 1 {
      LastNewlineAfter(s[..|s| - 1], j);
    }
  }

  /** The last newline is the newline with no newline after it. */
  lemma {:induction false} LastNewlineUnique(s: string, k: int)
    requires -1 <= k < |s|
    requires k >= 0 ==> s[k] == '\n'
    requires forall j :: k < j < |s| ==> s[j] != '\n'
    ensures LastNewline(s) == k
  {
    if s != [] && s[|s| - 1] != '\n' {
      LastNewlineUnique(s[..|s| - 1], k);
    }
  }

  /** A link cut off inside its URL keeps its text and gets an ellipsis. */
  lemma FixLinkExample()
    ensures FixLink("see [my link](http://exa") == "see [my link]\U{2026}"
  {
    var s := "see [my link](http://exa";
    ExampleMatch(s);
    FixLinkApplied(s, 12);
    assert s[..13] == "see [my link]";
  }

  /** The example's only line holds a `[`, and the pattern first matches at its `]`. */
  lemma ExampleMatch(s: string)
    requires s == "see [my link](http://exa"
    ensures LastLine(s) == s && '[' in s
    ensures LinkTailAt(s, 12) && forall j :: 0 <= j < 12 ==> !LinkTailAt(s, j)
  {
    LastNewlineUnique(s, -1);
    assert s[4] == '[';
    ExampleTail(s);
    assert forall j :: 0 <= j < 12 ==> s[j] != ']';
  }

  /** What follows the example's `](` holds no `)` and no whitespace. */
  lemma ExampleTail(s: string)
    requires s == "see [my link](http://exa"
    ensures LinkTailAt(s, 12)
  {
    var url := s[14..];
    assert url == "http://exa";
    forall j | 0 <= j < |url| ensures url[j] != ')' && !IsJsWhitespace(url[j]) {
      assert url[j] in "htp:/exa";
    }
  }

  /** A finished link is left alone. */
  lemma FixLinkFinishedExample()
    ensures FixLink("see [my link](http://example.com)") == "see [my link](http://example.com)"
  {
    var s := "see [my link](http://example.com)";
    LastNewlineUnique(s, -1);
    assert s[|s| - 1] == ')';
    FixLinkUnchanged(s);
  }

  /** A dangling link on an earlier line is left alone. */
  lemma FixLinkEarlierLineExample()
    ensures FixLink("[a](b\nc") == "[a](b\nc"
  {
    var u := "[a](b\nc";
    LastNewlineUnique(u, 5);
    assert LastLine(u) == "c";
    FixLinkUnchanged(u);
  }
}
