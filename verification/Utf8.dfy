/** UTF-8 (section 3 of RFC 3629) as Go's unicode/utf8 has it, and splitting text at newlines. */
module Utf8 {
  import opened Bytes

  predicate ValidRune(r: nat) {
    r < 0xD800 || 0xE000 <= r <= 0x10FFFF
  }

  type Rune = r: nat | ValidRune(r)

  const RUNE_ERROR: Rune := 0xFFFD
  const NEWLINE: Byte := 10

  /** The lowest six bits as a continuation byte. */
  function Low(v: nat): (c: Byte)
    ensures Continues(c) && c == 0x80 + v % 64
  {
    0x80 + v % 64
  }

  function Encode(r: Rune): (b: Bytes)
    ensures 1 <= |b| <= 4
  {
    if r < 0x80 then [r]
    else if r < 0x800 then [0xC0 + r / 64, Low(r)]
    else if r < 0x10000 then [0xE0 + r / 64 / 64, Low(r / 64), Low(r)]
    else
      assert ValidRune(r);
      [0xF0 + r / 64 / 64 / 64, Low(r / 64 / 64), Low(r / 64), Low(r)]
  }

  predicate Continues(b: Byte) {
    0x80 <= b <= 0xBF
  }

  /** No overlong forms and no surrogates. */
  predicate Second3(b0: Byte, b1: Byte) {
    (if b0 == 0xE0 then 0xA0 else 0x80) <= b1 <= (if b0 == 0xED then 0x9F else 0xBF)
  }

  /** No overlong forms and nothing beyond U+10FFFF. */
  predicate Second4(b0: Byte, b1: Byte) {
    (if b0 == 0xF0 then 0x90 else 0x80) <= b1 <= (if b0 == 0xF4 then 0x8F else 0xBF)
  }

  /** The first rune and its length; bytes that start no rune give RuneError, one at a time. */
  function Decode(b: Bytes): (d: (Rune, nat))
    requires |b| > 0
    ensures 1 <= d.1 <= |b|
  {
    var x := b[0] as int;
    if x < 0x80 then (x, 1)
    else if 0xC2 <= x <= 0xDF && |b| >= 2 && Continues(b[1])
    then (Append(x - 0xC0, b[1]), 2)
    else if 0xE0 <= x <= 0xEF && |b| >= 3 && Second3(b[0], b[1]) && Continues(b[2])
    then (Append(Append(x - 0xE0, b[1]), b[2]), 3)
    else if 0xF0 <= x <= 0xF4 && |b| >= 4 && Second4(b[0], b[1]) && Continues(b[2]) && Continues(b[3])
    then (Append(Append(Append(x - 0xF0, b[1]), b[2]), b[3]), 4)
    else (RUNE_ERROR, 1)
  }

  /** Six more bits. */
  function Append(v: nat, c: Byte): nat
    requires Continues(c)
  {
    v * 64 + (c as int - 0x80)
  }

  lemma AppendLow(v: nat)
    ensures Append(v / 64, Low(v)) == v
  {
  }

  lemma DecodeTwo(r: Rune, b: Bytes)
    requires 0x80 <= r < 0x800 && |b| >= 2 && b[0] == 0xC0 + r / 64 && b[1] == Low(r)
    ensures Decode(b) == (r, 2)
  {
    AppendLow(r);
  }

  lemma DecodeThree(r: Rune, b: Bytes)
    requires 0x800 <= r < 0x10000 && |b| >= 3 && b[0] == 0xE0 + r / 64 / 64 && b[1] == Low(r / 64) && b[2] == Low(r)
    ensures Decode(b) == (r, 3)
  {
    hide Append, Low;
    SecondByte3(r);
    AppendLow(r / 64);
    AppendLow(r);
  }

  lemma DecodeFour(r: Rune, b: Bytes)
    requires 0x10000 <= r && |b| >= 4 && b[0] == 0xF0 + r / 64 / 64 / 64
    requires b[1] == Low(r / 64 / 64) && b[2] == Low(r / 64) && b[3] == Low(r)
    ensures Decode(b) == (r, 4)
  {
    hide Append, Low;
    SecondByte4(r);
    AppendLow(r / 64 / 64);
    AppendLow(r / 64);
    AppendLow(r);
  }

  lemma DecodeEncoded(r: Rune, rest: Bytes)
    ensures Decode(Encode(r) + rest) == (r, |Encode(r)|)
  {
    hide Decode;
    var b := Encode(r) + rest;
    assert forall i :: 0 <= i < |Encode(r)| ==> b[i] == Encode(r)[i];
    if r < 0x80 {
      DecodeOne(b);
    } else if r < 0x800 {
      DecodeTwo(r, b);
    } else if r < 0x10000 {
      DecodeThree(r, b);
    } else {
      DecodeFour(r, b);
    }
  }

  lemma DecodeOne(b: Bytes)
    requires |b| >= 1 && b[0] < 0x80
    ensures Decode(b) == (b[0], 1)
  {
  }

  lemma SecondByte3(r: Rune)
    requires 0x800 <= r < 0x10000
    ensures Second3(0xE0 + r / 64 / 64, Low(r / 64))
  {
    assert ValidRune(r);
  }

  lemma SecondByte4(r: Rune)
    requires 0x10000 <= r
    ensures r / 64 / 64 / 64 <= 4 && Second4(0xF0 + r / 64 / 64 / 64, Low(r / 64 / 64))
  {
    assert ValidRune(r);
  }

  /** The number of bytes and the bits in them, as in section 3 of RFC 3629. */
  lemma EncodedForm(r: Rune)
    ensures var b := Encode(r);
            if r <= 0x7F then b == [r]
            else if r <= 0x7FF then
              |b| == 2 && 0xC0 <= b[0] <= 0xDF && 0x80 <= b[1] <= 0xBF
              && r == (b[0] as int - 0xC0) * 64 + (b[1] - 0x80)
            else if r <= 0xFFFF then
              |b| == 3 && 0xE0 <= b[0] <= 0xEF && 0x80 <= b[1] <= 0xBF && 0x80 <= b[2] <= 0xBF
              && r == ((b[0] as int - 0xE0) * 64 + (b[1] - 0x80)) * 64 + (b[2] - 0x80)
            else
              |b| == 4 && 0xF0 <= b[0] <= 0xF4 && 0x80 <= b[1] <= 0xBF && 0x80 <= b[2] <= 0xBF && 0x80 <= b[3] <= 0xBF
              && r == (((b[0] as int - 0xF0) * 64 + (b[1] - 0x80)) * 64 + (b[2] - 0x80)) * 64 + (b[3] - 0x80)
  {
    assert ValidRune(r);
  }

  lemma Appended(v: nat, c: Byte)
    requires Continues(c)
    ensures Append(v, c) / 64 == v && Low(Append(v, c)) == c
  {
  }

  lemma EncodeTwo(b: Bytes)
    requires |b| >= 2 && 0xC2 <= b[0] <= 0xDF && Continues(b[1])
    ensures Encode(Decode(b).0) == [b[0], b[1]]
  {
    hide Low;
    Appended(b[0] - 0xC0, b[1]);
  }

  lemma EncodeThree(b: Bytes)
    requires |b| >= 3 && 0xE0 <= b[0] <= 0xEF && Second3(b[0], b[1]) && Continues(b[2])
    ensures Encode(Decode(b).0) == [b[0], b[1], b[2]]
  {
    hide Low;
    Appended(b[0] - 0xE0, b[1]);
    Appended(Append(b[0] - 0xE0, b[1]), b[2]);
  }

  lemma EncodeFour(b: Bytes)
    requires |b| >= 4 && 0xF0 <= b[0] <= 0xF4 && Second4(b[0], b[1]) && Continues(b[2]) && Continues(b[3])
    ensures Encode(Decode(b).0) == [b[0], b[1], b[2], b[3]]
  {
    hide Low;
    Appended(b[0] - 0xF0, b[1]);
    Appended(Append(b[0] - 0xF0, b[1]), b[2]);
    Appended(Append(Append(b[0] - 0xF0, b[1]), b[2]), b[3]);
  }

  lemma DecodedIsEncoded(b: Bytes)
    requires |b| > 0
    ensures Decode(b) == (0xFFFD, 1) || Encode(Decode(b).0) == b[..Decode(b).1]
  {
    hide Encode;
    if b[0] < 0x80 {
      EncodeOne(b[0]);
    } else if |b| >= 2 && 0xC2 <= b[0] <= 0xDF && Continues(b[1]) {
      EncodeTwo(b);
    } else if |b| >= 3 && 0xE0 <= b[0] <= 0xEF && Second3(b[0], b[1]) && Continues(b[2]) {
      EncodeThree(b);
    } else if |b| >= 4 && 0xF0 <= b[0] <= 0xF4 && Second4(b[0], b[1]) && Continues(b[2]) && Continues(b[3]) {
      EncodeFour(b);
    }
  }

  lemma EncodeOne(x: Byte)
    requires x < 0x80
    ensures Encode(x) == [x]
  {
  }

  /** Decoding takes the rune whose encoding the bytes start with; if there is none, RuneError and one byte. */
  lemma DecodesFirstRune(b: Bytes, r: Rune)
    requires |b| > 0
    ensures Encode(r) <= b ==> Decode(b) == (r, |Encode(r)|)
    ensures Encode(Decode(b).0) <= b || (Decode(b) == (0xFFFD, 1) && !(Encode(r) <= b))
  {
    hide Encode, Decode;
    if Encode(r) <= b {
      DecodeEncoded(r, b[|Encode(r)|..]);
      assert b == Encode(r) + b[|Encode(r)|..];
    }
    DecodedIsEncoded(b);
  }

  lemma NewlineStaysAlone(r: Rune)
    ensures NEWLINE in Encode(r) <==> r == NEWLINE
  {
  }

  /** A newline ends whatever comes before it. */
  lemma DecodeBeforeNewline(b: Bytes, rest: Bytes)
    requires |b| > 0
    ensures Decode(b + [NEWLINE] + rest) == Decode(b)
  {
    var x := b + [NEWLINE] + rest;
    assert forall i :: 0 <= i < |b| ==> x[i] == b[i];
    assert x[|b|] == NEWLINE;
  }

  lemma DecodedNewline(b: Bytes)
    requires |b| > 0 && Decode(b).0 == NEWLINE
    ensures b[0] == NEWLINE
  {
  }

  // --- whole texts

  function EncodeAll(rs: seq<Rune>): Bytes {
    if rs == [] then [] else Encode(rs[0]) + EncodeAll(rs[1..])
  }

  function DecodeAll(b: Bytes): seq<Rune> {
    if b == [] then [] else [Decode(b).0] + DecodeAll(b[Decode(b).1..])
  }

  lemma {:induction false} DecodeAllEncoded(rs: seq<Rune>)
    ensures DecodeAll(EncodeAll(rs)) == rs
    decreases |rs|
  {
    hide Encode, Decode;
    if rs != [] {
      DecodeEncoded(rs[0], EncodeAll(rs[1..]));
      DecodeAllEncoded(rs[1..]);
      var b := EncodeAll(rs);
      assert b[|Encode(rs[0])|..] == EncodeAll(rs[1..]);
    }
  }

  lemma {:induction false} EncodeAllAppend(rs: seq<Rune>, ss: seq<Rune>)
    ensures EncodeAll(rs + ss) == EncodeAll(rs) + EncodeAll(ss)
    decreases |rs|
  {
    hide Encode;
    if rs == [] {
      assert rs + ss == ss;
    } else {
      EncodeAllAppend(rs[1..], ss);
      assert (rs + ss)[1..] == rs[1..] + ss;
      assert Encode(rs[0]) + (EncodeAll(rs[1..]) + EncodeAll(ss)) ==
             (Encode(rs[0]) + EncodeAll(rs[1..])) + EncodeAll(ss);
    }
  }

  /** The bytes are the encoding of some runes. */
  ghost predicate ValidUtf8(b: Bytes) {
    exists rs :: EncodeAll(rs) == b
  }

  lemma ValidMeansStable(b: Bytes)
    ensures ValidUtf8(b) <==> EncodeAll(DecodeAll(b)) == b
  {
    if ValidUtf8(b) {
      var rs :| EncodeAll(rs) == b;
      DecodeAllEncoded(rs);
    }
  }

  lemma {:induction false} DecodeAllAcrossNewline(b: Bytes, rest: Bytes)
    ensures DecodeAll(b + [NEWLINE] + rest) == DecodeAll(b) + [NEWLINE] + DecodeAll(rest)
    decreases |b|
  {
    hide Decode;
    var x := b + [NEWLINE] + rest;
    if b == [] {
      NewlineDecodes(rest);
      assert x == [NEWLINE] + rest;
      assert x[1..] == rest;
    } else {
      DecodeBeforeNewline(b, rest);
      var n := Decode(b).1;
      assert x[n..] == b[n..] + [NEWLINE] + rest;
      DecodeAllAcrossNewline(b[n..], rest);
      assert DecodeAll(x) == [Decode(b).0] + DecodeAll(x[n..]);
    }
  }

  lemma NewlineDecodes(rest: Bytes)
    ensures Decode([NEWLINE] + rest) == (NEWLINE, 1)
  {
  }

  lemma {:induction false} DecodedWithoutNewline(b: Bytes)
    requires NEWLINE !in b
    ensures NEWLINE !in DecodeAll(b)
    decreases |b|
  {
    hide Decode;
    if b != [] {
      if Decode(b).0 == NEWLINE {
        DecodedNewline(b);
      }
      DecodedWithoutNewline(b[Decode(b).1..]);
    }
  }

  lemma {:induction false} EncodedWithoutNewline(rs: seq<Rune>)
    requires NEWLINE !in rs
    ensures NEWLINE !in EncodeAll(rs)
    decreases |rs|
  {
    hide Encode;
    if rs != [] {
      NewlineStaysAlone(rs[0]);
      assert rs[0] in rs;
      EncodedWithoutNewline(rs[1..]);
    }
  }

  // --- rows

  /** bytes.Split at newlines. */
  function SplitRows(b: Bytes): (rows: seq<Bytes>)
    ensures |rows| >= 1
  {
    if b == [] then [[]]
    else
      var rest := SplitRows(b[1..]);
      if b[0] == NEWLINE then [[]] + rest else [[b[0]] + rest[0]] + rest[1..]
  }

  function JoinRows(rows: seq<Bytes>): Bytes
    requires |rows| >= 1
  {
    if |rows| == 1 then rows[0] else rows[0] + [10] + JoinRows(rows[1..])
  }

  predicate NewlineFree(rows: seq<Bytes>) {
    forall k :: 0 <= k < |rows| ==> 10 !in rows[k]
  }

  lemma {:induction false} SplitIsNewlineFree(b: Bytes)
    ensures NewlineFree(SplitRows(b))
  {
    if b != [] {
      SplitIsNewlineFree(b[1..]);
    }
  }

  lemma JoinPrepend(x: Byte, first: Bytes, rows: seq<Bytes>)
    ensures JoinRows([[x] + first] + rows) == [x] + JoinRows([first] + rows)
  {
    if rows != [] {
      assert ([[x] + first] + rows)[1..] == rows && ([first] + rows)[1..] == rows;
      var tail := JoinRows(rows);
      assert ([x] + first) + [NEWLINE] + tail == [x] + (first + [NEWLINE] + tail);
    }
  }

  lemma {:induction false} JoinSplit(b: Bytes)
    ensures JoinRows(SplitRows(b)) == b
  {
    if b != [] {
      JoinSplit(b[1..]);
      var rest := SplitRows(b[1..]);
      assert b == [b[0]] + b[1..];
      if b[0] == NEWLINE {
        assert ([[]] + rest)[1..] == rest;
      } else {
        JoinPrepend(b[0], rest[0], rest[1..]);
        assert rest == [rest[0]] + rest[1..];
      }
    }
  }

  lemma {:induction false} SplitRow(row: Bytes, rest: Bytes)
    requires NEWLINE !in row
    ensures SplitRows(row + [NEWLINE] + rest) == [row] + SplitRows(rest)
    decreases |row|
  {
    var x := row + [NEWLINE] + rest;
    if row == [] {
      assert x[1..] == rest;
    } else {
      assert x[1..] == row[1..] + [NEWLINE] + rest;
      SplitRow(row[1..], rest);
      assert row[0] in row && x[0] == row[0];
      assert row == [row[0]] + row[1..];
    }
  }

  lemma {:induction false} SplitLast(row: Bytes)
    requires NEWLINE !in row
    ensures SplitRows(row) == [row]
    decreases |row|
  {
    if row != [] {
      SplitLast(row[1..]);
      assert row[0] in row;
      assert row == [row[0]] + row[1..];
    }
  }

  lemma {:induction false} SplitJoin(rows: seq<Bytes>)
    requires |rows| >= 1 && NewlineFree(rows)
    ensures SplitRows(JoinRows(rows)) == rows
    decreases |rows|
  {
    if |rows| == 1 {
      SplitLast(rows[0]);
    } else {
      SplitJoin(rows[1..]);
      SplitRow(rows[0], JoinRows(rows[1..]));
      assert rows == [rows[0]] + rows[1..];
    }
  }
}
