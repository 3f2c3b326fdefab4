/** The text buffer with its rune, character and cell coordinates (tui/textbuffer/textbuffer.go). */
module TextBuffer {
  import opened Bytes
  import opened Utf8

  type Width = x: nat | x <= 2

  /** runewidth.RuneWidth, of which only the width of the space matters. */
  type Widths = Rune -> Width

  const SPACE: Rune := 32

  ghost predicate Sane(w: Widths) {
    w(32) == 1
  }

  /** charWidth is 1 for narrow, 2 for the first and 0 for the second half of wide characters. */
  datatype Cell = Cell(charIndex: nat, charWidth: nat)

  /** chars[x] is where character x ends in runes. */
  datatype Line = Line(runes: seq<Rune>, chars: seq<nat>, cells: seq<Cell>)

  const EMPTY_LINE := Line([], [], [])

  // --- what a line has to look like

  function Start(l: Line, k: nat): nat
    requires k <= |l.chars|
  {
    if k == 0 then 0 else l.chars[k - 1]
  }

  /** The characters are consecutive, none is empty, and together they are all runes. */
  ghost predicate CharsPartition(l: Line) {
    && (forall k {:trigger Start(l, k)} :: 0 <= k < |l.chars| ==> Start(l, k) < l.chars[k] <= |l.runes|)
    && Start(l, |l.chars|) == |l.runes|
  }

  /** A character is one rune of positive width with the combining runes after it. */
  ghost predicate CharsAreWhole(w: Widths, l: Line)
    requires CharsPartition(l)
  {
    forall k {:trigger Start(l, k)} :: 0 <= k < |l.chars| ==>
      && w(l.runes[Start(l, k)]) > 0
      && forall x :: Start(l, k) < x < l.chars[k] ==> w(l.runes[x]) == 0
  }

  function CharWidths(w: Widths, l: Line): (ws: seq<Width>)
    requires CharsPartition(l)
    ensures |ws| == |l.chars|
  {
    seq(|l.chars|, k requires 0 <= k < |l.chars| => w(l.runes[Start(l, k)]))
  }

  function CellsOf(k: nat, width: Width): seq<Cell> {
    if width == 2 then [Cell(k, 2), Cell(k, 0)] else [Cell(k, 1)]
  }

  function CellsFor(ws: seq<Width>): seq<Cell> {
    if ws == [] then [] else CellsFor(ws[..|ws| - 1]) + CellsOf(|ws| - 1, ws[|ws| - 1])
  }

  ghost predicate LineOk(w: Widths, l: Line) {
    CharsPartition(l) && CharsAreWhole(w, l) && l.cells == CellsFor(CharWidths(w, l))
  }

  // --- parsing

  /** What parseRow does with one rune. */
  function Extended(w: Widths, l: Line, r: Rune): Line
    requires l.runes == [] || l.chars != []
  {
    match w(r)
    case 0 =>
      var l1 := if l.runes == [] then Line([SPACE], l.chars + [1], l.cells + [Cell(0, 1)]) else l;
      Line(l1.runes + [r], l1.chars[|l1.chars| - 1 := l1.chars[|l1.chars| - 1] + 1], l1.cells)
    case 1 =>
      Line(l.runes + [r], l.chars + [|l.runes| + 1], l.cells + [Cell(|l.chars|, 1)])
    case _ =>
      Line(l.runes + [r], l.chars + [|l.runes| + 1], l.cells + [Cell(|l.chars|, 2), Cell(|l.chars|, 0)])
  }

  function LineOf(w: Widths, rs: seq<Rune>): (l: Line)
    ensures l.runes == [] || l.chars != []
  {
    if rs == [] then EMPTY_LINE else Extended(w, LineOf(w, rs[..|rs| - 1]), rs[|rs| - 1])
  }

  /** A space is put before a leading combining rune. */
  function Normal(w: Widths, rs: seq<Rune>): seq<Rune> {
    if rs != [] && w(rs[0]) == 0 then [32] + rs else rs
  }

  function Parse(w: Widths, b: Bytes): seq<Line> {
    var rows := SplitRows(b);
    seq(|rows|, k requires 0 <= k < |rows| => LineOf(w, DecodeAll(rows[k])))
  }

  predicate AddsCombining(l: Line, r: Rune, l': Line) {
    && l.chars != [] && l'.runes == l.runes + [r]
    && l'.chars == l.chars[..|l.chars| - 1] + [l.chars[|l.chars| - 1] + 1]
  }

  lemma CombiningChars(w: Widths, l: Line, r: Rune, l': Line)
    requires CharsPartition(l) && CharsAreWhole(w, l) && w(r) == 0 && AddsCombining(l, r, l')
    ensures CharsPartition(l') && CharsAreWhole(w, l')
    ensures CharWidths(w, l') == CharWidths(w, l)
  {
    CombiningPartition(l, r, l');
    forall k | 0 <= k < |l'.chars| ensures w(l'.runes[Start(l', k)]) > 0
      ensures CharWidths(w, l')[k] == CharWidths(w, l)[k]
      ensures forall x :: Start(l', k) < x < l'.chars[k] ==> w(l'.runes[x]) == 0
    {
      assert Start(l', k) == Start(l, k);
      assert l'.runes[Start(l', k)] == l.runes[Start(l, k)];
      assert k == |l.chars| - 1 ==> l.chars[k] == Start(l, |l.chars|);
    }
  }

  lemma CombiningPartition(l: Line, r: Rune, l': Line)
    requires CharsPartition(l) && AddsCombining(l, r, l')
    ensures CharsPartition(l')
  {
    var n := |l.chars|;
    assert Start(l, n) == l.chars[n - 1];
    forall k | 0 <= k < n ensures Start(l', k) < l'.chars[k] <= |l'.runes| {
      assert Start(l', k) == Start(l, k);
      assert Start(l, k) < l.chars[k] <= |l.runes|;
    }
    assert Start(l', n) == l'.chars[n - 1];
  }

  lemma CombiningKeeps(w: Widths, l: Line, r: Rune)
    requires LineOk(w, l) && l.chars != [] && l.runes != [] && w(r) == 0
    ensures LineOk(w, Extended(w, l, r))
  {
    hide CharsPartition, CharsAreWhole, CharWidths, CellsFor;
    CombiningChars(w, l, r, Extended(w, l, r));
  }

  predicate AddsCharacter(l: Line, r: Rune, l': Line) {
    l'.runes == l.runes + [r] && l'.chars == l.chars + [|l.runes| + 1]
  }

  lemma SameStart(l: Line, r: Rune, l': Line, k: nat)
    requires AddsCharacter(l, r, l') && k <= |l.chars|
    ensures Start(l', k) == Start(l, k)
  {
  }

  lemma CharacterPartition(l: Line, r: Rune, l': Line)
    requires CharsPartition(l) && AddsCharacter(l, r, l')
    ensures CharsPartition(l')
  {
    forall k | 0 <= k < |l'.chars| ensures Start(l', k) < l'.chars[k] <= |l'.runes| {
      SameStart(l, r, l', k);
      assert k < |l.chars| ==> Start(l, k) < l.chars[k] <= |l.runes|;
    }
    assert Start(l', |l'.chars|) == l'.chars[|l.chars|];
  }

  lemma CharacterChars(w: Widths, l: Line, r: Rune, l': Line)
    requires CharsPartition(l) && CharsAreWhole(w, l) && w(r) > 0 && AddsCharacter(l, r, l')
    ensures CharsPartition(l') && CharsAreWhole(w, l')
    ensures CharWidths(w, l') == CharWidths(w, l) + [w(r)]
  {
    CharacterPartition(l, r, l');
    forall k | 0 <= k < |l'.chars| ensures w(l'.runes[Start(l', k)]) > 0
      ensures CharWidths(w, l')[k] == (CharWidths(w, l) + [w(r)])[k]
      ensures forall x :: Start(l', k) < x < l'.chars[k] ==> w(l'.runes[x]) == 0
    {
      SameStart(l, r, l', k);
      if k < |l.chars| {
        assert l'.runes[Start(l', k)] == l.runes[Start(l, k)];
      } else {
        assert Start(l, k) == |l.runes|;
      }
    }
  }

  lemma CharacterKeeps(w: Widths, l: Line, r: Rune)
    requires LineOk(w, l) && w(r) > 0 && (l.runes == [] || l.chars != [])
    ensures LineOk(w, Extended(w, l, r))
  {
    hide CharsPartition, CharsAreWhole, CharWidths;
    var l', ws := Extended(w, l, r), CharWidths(w, l);
    CharacterChars(w, l, r, l');
    assert (ws + [w(r)])[..|ws|] == ws;
    assert CellsFor(ws + [w(r)]) == CellsFor(ws) + CellsOf(|ws|, w(r));
  }

  lemma {:induction false} LineOfOk(w: Widths, rs: seq<Rune>)
    requires Sane(w)
    ensures LineOk(w, LineOf(w, rs))
    ensures LineOf(w, rs).runes == Normal(w, rs)
    decreases |rs|
  {
    hide LineOk, Extended;
    EmptyOk(w);
    if rs != [] {
      var front, r := rs[..|rs| - 1], rs[|rs| - 1];
      LineOfOk(w, front);
      assert rs == front + [r];
      Step(w, LineOf(w, front), r);
      assert front != [] ==> front[0] == rs[0];
    }
  }

  lemma EmptyOk(w: Widths)
    ensures LineOk(w, EMPTY_LINE)
  {
  }

  lemma Step(w: Widths, l: Line, r: Rune)
    requires Sane(w) && LineOk(w, l) && (l.runes == [] || l.chars != [])
    ensures LineOk(w, Extended(w, l, r))
    ensures Extended(w, l, r).runes == if l.runes == [] then Normal(w, [r]) else l.runes + [r]
  {
    hide LineOk;
    if w(r) > 0 {
      CharacterKeeps(w, l, r);
    } else if l.runes == [] {
      EmptyIsEmpty(w, l);
      EmptyOk(w);
      CharacterKeeps(w, EMPTY_LINE, SPACE);
      var l1 := Extended(w, EMPTY_LINE, SPACE);
      CombiningKeeps(w, l1, r);
      assert Extended(w, l1, r) == Extended(w, EMPTY_LINE, r);
    } else {
      CombiningKeeps(w, l, r);
    }
  }

  lemma EmptyIsEmpty(w: Widths, l: Line)
    requires LineOk(w, l) && l.runes == []
    ensures l == EMPTY_LINE
  {
    if l.chars != [] {
      FirstCharHasRunes(l);
    }
  }

  lemma FirstCharHasRunes(l: Line)
    requires CharsPartition(l) && l.chars != []
    ensures l.runes != []
  {
    assert Start(l, 0) < l.chars[0] <= |l.runes|;
  }

  /** Every line of a parsed buffer is well formed, whatever the bytes. */
  lemma ParsedLinesOk(w: Widths, b: Bytes, y: nat)
    requires Sane(w) && y < |Parse(w, b)|
    ensures LineOk(w, Parse(w, b)[y])
    ensures Parse(w, b)[y].runes == Normal(w, DecodeAll(SplitRows(b)[y]))
  {
    LineOfOk(w, DecodeAll(SplitRows(b)[y]));
  }

  // --- the form is determined by the runes

  lemma {:induction false} CharsDetermined(w: Widths, l: Line, m: Line, k: nat)
    requires LineOk(w, l) && LineOk(w, m) && l.runes == m.runes && k <= |l.chars|
    ensures k <= |m.chars| && l.chars[..k] == m.chars[..k]
  {
    hide LineOk, Start;
    if k > 0 {
      CharsDetermined(w, l, m, k - 1);
      SamePrefixSameStart(w, l, m, k - 1);
      NextEnd(w, l, m, k - 1);
      LongerPrefix(l.chars, m.chars, k - 1);
    }
  }

  lemma LongerPrefix(x: seq<nat>, y: seq<nat>, k: nat)
    requires k < |x| && k < |y| && x[..k] == y[..k] && x[k] == y[k]
    ensures x[..k + 1] == y[..k + 1]
  {
    assert x[..k + 1] == x[..k] + [x[k]] && y[..k + 1] == y[..k] + [y[k]];
  }

  lemma SamePrefixSameStart(w: Widths, l: Line, m: Line, k: nat)
    requires LineOk(w, l) && k < |l.chars| && k <= |m.chars| && l.chars[..k] == m.chars[..k]
    ensures Start(l, k) == Start(m, k) < |l.runes|
  {
    if k > 0 {
      assert l.chars[..k][k - 1] == m.chars[..k][k - 1];
    }
  }

  /** From the same start, the same end: the next rune of positive width, or the end of the line. */
  lemma NextEnd(w: Widths, l: Line, m: Line, k: nat)
    requires LineOk(w, l) && LineOk(w, m) && l.runes == m.runes
    requires k < |l.chars| && k <= |m.chars| && Start(l, k) == Start(m, k) < |l.runes|
    ensures k < |m.chars| && l.chars[k] == m.chars[k]
  {
    assert k < |m.chars|;
    EndsAtCharacter(w, l, k);
    EndsAtCharacter(w, m, k);
  }

  lemma EndsAtCharacter(w: Widths, l: Line, k: nat)
    requires LineOk(w, l) && k < |l.chars|
    ensures Start(l, k) < l.chars[k] <= |l.runes|
    ensures l.chars[k] < |l.runes| ==> w(l.runes[l.chars[k]]) > 0
  {
    assert Start(l, k) < l.chars[k];
    assert Start(l, k + 1) == l.chars[k];
  }

  /** Two well-formed lines with the same runes are the same line. */
  lemma LineDetermined(w: Widths, l: Line, m: Line)
    requires LineOk(w, l) && LineOk(w, m) && l.runes == m.runes
    ensures l == m
  {
    CharsDetermined(w, l, m, |l.chars|);
    CharsDetermined(w, m, l, |m.chars|);
    assert l.chars == l.chars[..|l.chars|] && m.chars == m.chars[..|m.chars|];
    assert CharWidths(w, l) == CharWidths(w, m);
  }

  // --- characters and cells

  function CharAt(l: Line, k: nat): seq<Rune>
    requires CharsPartition(l) && k < |l.chars|
  {
    l.runes[Start(l, k)..l.chars[k]]
  }

  function Concatenated(l: Line, k: nat): seq<Rune>
    requires CharsPartition(l) && k <= |l.chars|
  {
    if k == 0 then [] else Concatenated(l, k - 1) + CharAt(l, k - 1)
  }

  /** The characters in order are all the runes. */
  lemma {:induction false} CharsAreAllRunes(l: Line, k: nat)
    requires CharsPartition(l) && k <= |l.chars|
    ensures Start(l, k) <= |l.runes| && Concatenated(l, k) == l.runes[..Start(l, k)]
    ensures k == |l.chars| ==> Concatenated(l, k) == l.runes
  {
    if k > 0 {
      CharsAreAllRunes(l, k - 1);
      assert Start(l, k) == l.chars[k - 1];
    }
  }

  /** Cells taken by the first k characters. */
  function CellOffset(ws: seq<Width>, k: nat): nat
    requires k <= |ws|
  {
    if k == 0 then 0 else CellOffset(ws, k - 1) + (if ws[k - 1] == 2 then 2 else 1)
  }

  lemma {:induction false} OffsetOfPrefix(ws: seq<Width>, n: nat, k: nat)
    requires k <= n <= |ws|
    ensures CellOffset(ws[..n], k) == CellOffset(ws, k)
  {
    if k > 0 {
      OffsetOfPrefix(ws, n, k - 1);
    }
  }

  lemma CellsStep(ws: seq<Width>)
    requires ws != []
    ensures var n := |ws| - 1; CellsFor(ws) == CellsFor(ws[..n]) + CellsOf(n, ws[n])
  {
  }

  lemma OffsetStep(ws: seq<Width>, k: nat)
    requires k < |ws|
    ensures CellOffset(ws, k + 1) == CellOffset(ws, k) + |CellsOf(k, ws[k])|
  {
  }

  lemma {:induction false} CellCount(ws: seq<Width>)
    ensures |CellsFor(ws)| == CellOffset(ws, |ws|)
    decreases |ws|
  {
    if ws != [] {
      var n := |ws| - 1;
      CellCount(ws[..n]);
      OffsetOfPrefix(ws, n, n);
    }
  }

  /** Character k owns one cell of width 1, or two adjacent cells of widths 2 and 0, right after the
      cells of the characters before it; there are no other cells. */
  lemma {:induction false} CellsInOrder(ws: seq<Width>, k: nat)
    requires k < |ws|
    ensures CellOffset(ws, k + 1) == CellOffset(ws, k) + |CellsOf(k, ws[k])| <= |CellsFor(ws)| == CellOffset(ws, |ws|)
    ensures CellsFor(ws)[CellOffset(ws, k)..CellOffset(ws, k + 1)] == CellsOf(k, ws[k])
    ensures CellsOf(k, ws[k]) == if ws[k] == 2 then [Cell(k, 2), Cell(k, 0)] else [Cell(k, 1)]
    decreases |ws|
  {
    hide CellsFor, CellOffset;
    var n := |ws| - 1;
    var front := ws[..n];
    CellCount(ws);
    CellsStep(ws);
    OffsetStep(ws, k);
    if k < n {
      CellsInOrder(front, k);
      OffsetOfPrefix(ws, n, k);
      OffsetOfPrefix(ws, n, k + 1);
      SliceOfFirst(CellsFor(front), CellsOf(n, ws[n]), CellOffset(ws, k), CellOffset(ws, k + 1));
    } else {
      CellCount(front);
      OffsetOfPrefix(ws, n, n);
      SliceOfSecond(CellsFor(front), CellsOf(n, ws[n]));
    }
  }

  lemma SliceOfFirst(x: seq<Cell>, y: seq<Cell>, i: nat, j: nat)
    requires i <= j <= |x|
    ensures (x + y)[i..j] == x[i..j]
  {
  }

  lemma SliceOfSecond(x: seq<Cell>, y: seq<Cell>)
    ensures (x + y)[|x|..|x| + |y|] == y
  {
  }

  // --- writing

  function Text(lines: seq<Line>): (rows: seq<Bytes>)
    ensures |rows| == |lines|
  {
    seq(|lines|, k requires 0 <= k < |lines| => EncodeAll(lines[k].runes))
  }

  function Written(lines: seq<Line>): Bytes {
    if lines == [] then [] else JoinRows(Text(lines))
  }

  lemma RowText(w: Widths, row: Bytes)
    requires Sane(w) && NEWLINE !in row
    ensures NEWLINE !in EncodeAll(LineOf(w, DecodeAll(row)).runes)
    ensures LineOf(w, DecodeAll(EncodeAll(LineOf(w, DecodeAll(row)).runes))) == LineOf(w, DecodeAll(row))
  {
    hide LineOk, LineOf;
    var rs := DecodeAll(row);
    var l := LineOf(w, rs);
    LineOfOk(w, rs);
    DecodedWithoutNewline(row);
    EncodedWithoutNewline(l.runes);
    DecodeAllEncoded(l.runes);
    LineOfOk(w, l.runes);
    assert Normal(w, l.runes) == l.runes;
    LineDetermined(w, LineOf(w, l.runes), l);
  }

  lemma ParsedText(w: Widths, b: Bytes)
    requires Sane(w)
    ensures NewlineFree(Text(Parse(w, b))) && |Parse(w, b)| == |SplitRows(b)|
    ensures SplitRows(Written(Parse(w, b))) == Text(Parse(w, b))
  {
    hide LineOf, DecodeAll, EncodeAll;
    var rows := SplitRows(b);
    SplitIsNewlineFree(b);
    forall k | 0 <= k < |rows| ensures NEWLINE !in Text(Parse(w, b))[k] {
      RowText(w, rows[k]);
    }
    SplitJoin(Text(Parse(w, b)));
  }

  /** Writing a parsed buffer and parsing it again gives the same lines, for every input bytes. */
  lemma WriteThenParse(w: Widths, b: Bytes)
    requires Sane(w)
    ensures Parse(w, Written(Parse(w, b))) == Parse(w, b)
  {
    hide LineOf, DecodeAll, EncodeAll;
    var rows, lines := SplitRows(b), Parse(w, b);
    ParsedText(w, b);
    SplitIsNewlineFree(b);
    var again := Parse(w, Written(lines));
    forall k | 0 <= k < |rows| ensures again[k] == lines[k] {
      RowText(w, rows[k]);
    }
    assert |again| == |lines|;
  }

  // --- when writing gives back the input

  predicate StartsCombining(w: Widths, row: Bytes) {
    row != [] && w(Decode(row).0) == 0
  }

  lemma RowIsKept(w: Widths, row: Bytes)
    requires Sane(w)
    ensures EncodeAll(LineOf(w, DecodeAll(row)).runes) == row <==> ValidUtf8(row) && !StartsCombining(w, row)
  {
    hide LineOf, Decode, LineOk;
    var rs := DecodeAll(row);
    LineOfOk(w, rs);
    ValidMeansStable(row);
    if EncodeAll(Normal(w, rs)) == row {
      DecodeAllEncoded(Normal(w, rs));
      assert |Normal(w, rs)| == |rs|;
      assert EncodeAll(rs) == row;
    }
  }

  lemma {:induction false} ValidRows(rows: seq<Bytes>)
    requires |rows| >= 1 && NewlineFree(rows)
    ensures ValidUtf8(JoinRows(rows)) <==> forall k :: 0 <= k < |rows| ==> ValidUtf8(rows[k])
    decreases |rows|
  {
    hide ValidUtf8;
    if |rows| > 1 {
      var rest := JoinRows(rows[1..]);
      ValidRows(rows[1..]);
      ValidRow(rows[0], rest);
      assert forall k :: 0 <= k < |rows| ==> rows[k] == if k == 0 then rows[0] else rows[1..][k - 1];
    }
  }

  lemma ValidRow(row: Bytes, rest: Bytes)
    requires NEWLINE !in row
    ensures ValidUtf8(row + [NEWLINE] + rest) <==> ValidUtf8(row) && ValidUtf8(rest)
  {
    hide ValidUtf8, DecodeAll;
    var b := row + [NEWLINE] + rest;
    ValidMeansStable(b);
    ValidMeansStable(row);
    ValidMeansStable(rest);
    DecodeAllAcrossNewline(row, rest);
    var x, y := EncodeAll(DecodeAll(row)), EncodeAll(DecodeAll(rest));
    EncodeAllAppend(DecodeAll(row), [NEWLINE]);
    EncodeAllAppend(DecodeAll(row) + [NEWLINE], DecodeAll(rest));
    assert EncodeAll([NEWLINE]) == [NEWLINE];
    assert EncodeAll(DecodeAll(b)) == x + [NEWLINE] + y;
    DecodedWithoutNewline(row);
    EncodedWithoutNewline(DecodeAll(row));
    if x + [NEWLINE] + y == b {
      SplitAtNewline(x, y, row, rest);
    }
  }

  lemma SplitAtNewline(x: Bytes, y: Bytes, row: Bytes, rest: Bytes)
    requires NEWLINE !in x && NEWLINE !in row && x + [NEWLINE] + y == row + [NEWLINE] + rest
    ensures x == row && y == rest
  {
    SplitRow(x, y);
    SplitRow(row, rest);
    assert ([x] + SplitRows(y))[0] == x && ([row] + SplitRows(rest))[0] == row;
    assert (x + [NEWLINE] + y)[|x| + 1..] == y && (row + [NEWLINE] + rest)[|row| + 1..] == rest;
  }

  /** Writing gives back exactly the input if and only if the input is valid UTF-8 and no row starts
      with a combining rune. */
  lemma WriteIsFaithful(w: Widths, b: Bytes)
    requires Sane(w)
    ensures Written(Parse(w, b)) == b <==>
            ValidUtf8(b) && forall k :: 0 <= k < |SplitRows(b)| ==> !StartsCombining(w, SplitRows(b)[k])
  {
    hide LineOf, EncodeAll, StartsCombining, ValidUtf8;
    var rows, texts := SplitRows(b), Text(Parse(w, b));
    JoinSplit(b);
    SplitIsNewlineFree(b);
    ValidRows(rows);
    ParsedText(w, b);
    assert Written(Parse(w, b)) == b <==> texts == rows;
    forall k | 0 <= k < |rows| ensures texts[k] == rows[k] <==> ValidUtf8(rows[k]) && !StartsCombining(w, rows[k]) {
      RowIsKept(w, rows[k]);
    }
  }

  // --- the buffer

  /** The body of parseRow's loop. */
  method ExtendLine(w: Widths, line: Line, r: Rune) returns (l: Line)
    requires line.runes == [] || line.chars != []
    requires line.runes == [] ==> line == EMPTY_LINE
    ensures l == Extended(w, line, r)
  {
    l := line;
    match w(r)
    case 0 =>
      if |l.runes| == 0 {
        // a line cannot start with a combining rune: put a space before it
        l := Line(l.runes + [SPACE], l.chars + [1], l.cells + [Cell(0, 1)]);
      }
      l := l.(runes := l.runes + [r]);
      l := l.(chars := l.chars[|l.chars| - 1 := l.chars[|l.chars| - 1] + 1]);
    case 1 =>
      l := l.(runes := l.runes + [r]);
      l := l.(chars := l.chars + [|l.runes|]);
      l := l.(cells := l.cells + [Cell(|l.chars| - 1, 1)]);
    case _ =>
      l := l.(runes := l.runes + [r]);
      l := l.(chars := l.chars + [|l.runes|]);
      l := l.(cells := l.cells + [Cell(|l.chars| - 1, 2)]);
      l := l.(cells := l.cells + [Cell(|l.chars| - 1, 0)]);
      assert line.cells + [Cell(|line.chars|, 2)] + [Cell(|line.chars|, 0)]
          == line.cells + [Cell(|line.chars|, 2), Cell(|line.chars|, 0)];
  }

  /** parseRow: the loop over the runes of a row. */
  method ParseRow(w: Widths, bytes: Bytes) returns (l: Line)
    ensures l == LineOf(w, DecodeAll(bytes))
  {
    hide Decode, Extended, DecodeAll, LineOf;
    l := EMPTY_LINE;
    NothingParsed(w);
    var row := bytes;
    ghost var done: seq<Rune> := [];
    while row != []
      invariant l == LineOf(w, done)
      invariant l.runes == [] ==> l == EMPTY_LINE
      invariant DecodeAll(bytes) == done + DecodeAll(row)
      decreases |row|
    {
      var (r, size) := Decode(row);
      ExtendedHasRunes(w, l, r);
      l := ExtendLine(w, l, r);
      RuneParsed(w, done, row);
      done := done + [r];
      row := row[size..];
    }
    assert done + [] == done;
  }

  lemma NothingParsed(w: Widths)
    ensures LineOf(w, []) == EMPTY_LINE && DecodeAll([]) == []
  {
  }

  lemma RuneParsed(w: Widths, done: seq<Rune>, row: Bytes)
    requires row != []
    ensures var (r, size) := Decode(row);
            && LineOf(w, done + [r]) == Extended(w, LineOf(w, done), r)
            && done + DecodeAll(row) == done + [r] + DecodeAll(row[size..])
  {
    hide Decode, Extended;
    var (r, size) := Decode(row);
    assert (done + [r])[..|done|] == done;
    assert done + ([r] + DecodeAll(row[size..])) == done + [r] + DecodeAll(row[size..]);
  }

  lemma ExtendedHasRunes(w: Widths, l: Line, r: Rune)
    requires l.runes == [] || l.chars != []
    ensures Extended(w, l, r).runes != []
  {
  }

  datatype Panic = IndexOutOfRange

  class Buffer {
    const w: Widths
    var lines: seq<Line>

    /** New. */
    constructor (w: Widths, b: Bytes)
      ensures this.w == w && lines == Parse(w, b)
      ensures Sane(w) ==> forall y :: 0 <= y < |lines| ==> LineOk(w, lines[y])
    {
      this.w := w;
      lines := [];
      new;
      var rows := SplitRows(b);
      for y := 0 to |rows|
        invariant this.w == w && lines == Parse(w, b)[..y]
      {
        var line := ParseRow(w, rows[y]);
        lines := lines + [line];
      }
      if Sane(w) {
        forall y | 0 <= y < |lines| ensures LineOk(w, lines[y]) {
          ParsedLinesOk(w, b, y);
        }
      }
    }

    /** A coordinate is only compared with the upper end, so a negative one that gets past the comparisons
        is an index out of range. */
    method GetChar(x: int, y: int) returns (r: Result<seq<Rune>, Panic>)
      requires 0 <= y < |lines| ==> LineOk(w, lines[y])
      ensures r.Err? <==> y < 0 || (y < |lines| && x < 0)
      ensures r.Ok? ==> r.value == if y < |lines| && x < |lines[y].chars| then CharAt(lines[y], x) else []
    {
      if y < |lines| {
        if y < 0 {
          return Err(IndexOutOfRange);
        }
        if x < |lines[y].chars| {
          if x < 0 {
            return Err(IndexOutOfRange);
          }
          var l := 0;
          if x > 0 {
            l := lines[y].chars[x - 1];
          }
          assert l == Start(lines[y], x);
          var h := lines[y].chars[x];
          return Ok(lines[y].runes[l..h]);
        }
      }
      r := Ok([]);
    }

    /** The character shown at a cell and the width of the cell. */
    method GetCell(x: int, y: int) returns (r: Result<(seq<Rune>, nat), Panic>)
      requires 0 <= y < |lines| ==> LineOk(w, lines[y])
      ensures r.Err? <==> y < 0 || (y < |lines| && x < 0)
      ensures r.Ok? && (y >= |lines| || x >= |lines[y].cells|) ==> r.value == ([], 0)
      ensures r.Ok? ==> forall k :: y < |lines| && 0 <= k < |lines[y].chars| ==>
                var ws := CharWidths(w, lines[y]);
                && (x == CellOffset(ws, k) ==> r.value == (CharAt(lines[y], k), ws[k]))
                && (ws[k] == 2 && x == CellOffset(ws, k) + 1 ==> r.value == (CharAt(lines[y], k), 0))
    {
      r := Ok(([], 0));
      if y < |lines| {
        if y < 0 {
          return Err(IndexOutOfRange);
        }
        if x < |lines[y].cells| {
          if x < 0 {
            return Err(IndexOutOfRange);
          }
          var cell := lines[y].cells[x];
          var c := GetChar(cell.charIndex, y);
          r := Ok((c.value, cell.charWidth));
        }
        forall k | 0 <= k < |lines[y].chars|
          ensures var ws := CharWidths(w, lines[y]);
                  && (x == CellOffset(ws, k) ==> r.value == (CharAt(lines[y], k), ws[k]))
                  && (ws[k] == 2 && x == CellOffset(ws, k) + 1 ==> r.value == (CharAt(lines[y], k), 0))
        {
          CellAt(lines[y], w, k);
        }
      }
    }

    /** The longest line in cells. */
    method MaxLineLenCell() returns (max: nat)
      ensures forall y :: 0 <= y < |lines| ==> |lines[y].cells| <= max
      ensures if lines == [] then max == 0 else exists y :: 0 <= y < |lines| && |lines[y].cells| == max
    {
      max := 0;
      for y := 0 to |lines|
        invariant forall k :: 0 <= k < y ==> |lines[k].cells| <= max
        invariant if y == 0 then max == 0 else exists k :: 0 <= k < y && |lines[k].cells| == max
      {
        var l := |lines[y].cells|;
        if l > max {
          max := l;
        }
        if y == 0 {
          assert |lines[0].cells| == max;
        }
      }
    }

    /** Write. */
    method Write() returns (out: Bytes)
      ensures out == Written(lines)
    {
      hide Encode, Written;
      out := [];
      NothingWritten();
      for y := 0 to |lines|
        invariant out == Written(lines[..y])
      {
        if y > 0 {
          out := out + [NEWLINE];
        }
        ghost var rowStart := out;
        for x := 0 to |lines[y].runes|
          invariant out == rowStart + EncodeAll(lines[y].runes[..x])
        {
          var rune := lines[y].runes[x];
          EncodingGrows(lines[y].runes, x);
          out := out + Encode(rune);
        }
        assert lines[y].runes[..|lines[y].runes|] == lines[y].runes;
        WrittenGrows(lines, y);
      }
      assert lines[..|lines|] == lines;
    }
  }

  lemma CellAt(l: Line, w: Widths, k: nat)
    requires LineOk(w, l) && k < |l.chars|
    ensures var ws := CharWidths(w, l);
            && CellOffset(ws, k) < |l.cells| && l.cells[CellOffset(ws, k)] == Cell(k, ws[k])
            && (ws[k] == 2 ==> CellOffset(ws, k) + 1 < |l.cells| && l.cells[CellOffset(ws, k) + 1] == Cell(k, 0))
  {
    hide CellsFor, CellOffset;
    var ws := CharWidths(w, l);
    CellsInOrder(ws, k);
    var i, j := CellOffset(ws, k), CellOffset(ws, k + 1);
    assert l.cells[i..j] == CellsOf(k, ws[k]);
    assert l.cells[i] == l.cells[i..j][0];
    if ws[k] == 2 {
      assert l.cells[i + 1] == l.cells[i..j][1];
    }
  }

  lemma {:induction false} JoinAppend(rows: seq<Bytes>, row: Bytes)
    requires |rows| >= 1
    ensures JoinRows(rows + [row]) == JoinRows(rows) + [NEWLINE] + row
    decreases |rows|
  {
    if |rows| == 1 {
      assert (rows + [row])[1..] == [row];
    } else {
      JoinAppend(rows[1..], row);
      assert (rows + [row])[1..] == rows[1..] + [row];
      var tail := JoinRows(rows[1..]);
      assert rows[0] + [NEWLINE] + (tail + [NEWLINE] + row) == (rows[0] + [NEWLINE] + tail) + [NEWLINE] + row;
    }
  }

  lemma NothingWritten()
    ensures Written([]) == []
  {
  }

  lemma EncodingGrows(rs: seq<Rune>, x: nat)
    requires x < |rs|
    ensures EncodeAll(rs[..x + 1]) == EncodeAll(rs[..x]) + Encode(rs[x])
  {
    hide Encode;
    EncodeAllAppend(rs[..x], [rs[x]]);
    assert rs[..x + 1] == rs[..x] + [rs[x]];
    assert EncodeAll([rs[x]]) == Encode(rs[x]) + EncodeAll([]);
  }

  lemma WrittenGrows(lines: seq<Line>, y: nat)
    requires y < |lines|
    ensures Written(lines[..y + 1])
         == Written(lines[..y]) + (if y > 0 then [NEWLINE] else []) + EncodeAll(lines[y].runes)
  {
    assert Text(lines[..y + 1]) == Text(lines[..y]) + [EncodeAll(lines[y].runes)];
    if y > 0 {
      JoinAppend(Text(lines[..y]), EncodeAll(lines[y].runes));
    }
  }
}
