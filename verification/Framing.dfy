/** NDJSON framing: what the lines of a byte stream are, seen as a whole and seen in pieces. */
module Framing {
  import opened Wire

  /** `memchr(LF, b[from..])`, as an absolute position; |b| when there is none. */
  function FindLF(b: Bytes, from: nat): (n: nat)
    requires from <= |b|
    ensures from <= n <= |b| && (n < |b| ==> b[n] == LF)
    ensures forall i | from <= i < n :: b[i] != LF
    decreases |b| - from
  {
    if from == |b| || b[from] == LF then from else FindLF(b, from + 1)
  }

  predicate NoLF(b: Bytes) {
    forall i | 0 <= i < |b| :: b[i] != LF
  }

  /** The LF-terminated pieces of `b`, without their terminators. */
  function Terminated(b: Bytes): seq<Bytes>
    decreases |b|
  {
    var n := FindLF(b, 0);
    if n == |b| then [] else [b[..n]] + Terminated(b[n + 1..])
  }

  /** What follows the last LF. */
  function Tail(b: Bytes): Bytes
    decreases |b|
  {
    var n := FindLF(b, 0);
    if n == |b| then b else Tail(b[n + 1..])
  }

  function StripCR(line: Bytes): Bytes {
    if line != [] && line[|line| - 1] == CR then line[..|line| - 1] else line
  }

  function TrimEnd(b: Bytes): Bytes
    decreases |b|
  {
    if b != [] && (b[|b| - 1] == LF || b[|b| - 1] == CR) then TrimEnd(b[..|b| - 1]) else b
  }

  /** The non-empty lines among terminated pieces, one trailing CR removed from each. */
  function Kept(pieces: seq<Bytes>): seq<Bytes> {
    if pieces == [] then []
    else
      var line := StripCR(pieces[0]);
      (if line == [] then [] else [line]) + Kept(pieces[1..])
  }

  function Lines(b: Bytes): seq<Bytes> {
    Kept(Terminated(b))
  }

  /** The unterminated rest as a line of its own, if anything is left of it. */
  function LastLine(b: Bytes): seq<Bytes> {
    var line := TrimEnd(Tail(b));
    if line == [] then [] else [line]
  }

  /** The reference framing of a complete byte stream. */
  function WholeLines(b: Bytes): seq<Bytes> {
    Lines(b) + LastLine(b)
  }

  /** The bytes that the given lines and an unterminated tail spell. */
  function Spell(lines: seq<Bytes>, tail: Bytes): Bytes {
    if lines == [] then tail else lines[0] + [10] + Spell(lines[1..], tail)
  }

  /** Cutting is inverse to spelling: nothing is lost, moved or invented ... */
  lemma {:induction false} SpellTerminated(b: Bytes)
    ensures Spell(Terminated(b), Tail(b)) == b && NoLF(Tail(b))
    ensures forall line :: line in Terminated(b) ==> NoLF(line)
    decreases |b|
  {
    var n := FindLF(b, 0);
    if n < |b| {
      SpellTerminated(b[n + 1..]);
      assert b == b[..n] + [LF] + b[n + 1..];
    }
  }

  lemma CutFirst(line: Bytes, rest: Bytes)
    requires NoLF(line)
    ensures Terminated(line + [LF] + rest) == [line] + Terminated(rest)
    ensures Tail(line + [LF] + rest) == Tail(rest)
  {
    var b, n := line + [LF] + rest, |line|;
    FindAt(b, 0, n);
    assert b[..n] == line && b[n + 1..] == rest;
  }

  lemma FindAt(b: Bytes, from: nat, n: nat)
    requires from <= n < |b| && b[n] == LF && forall i | from <= i < n :: b[i] != LF
    ensures FindLF(b, from) == n
  {
  }

  /** ... and spelling determines the cut. */
  lemma {:induction false} TerminatedSpell(lines: seq<Bytes>, tail: Bytes)
    requires NoLF(tail) && forall line :: line in lines ==> NoLF(line)
    ensures Terminated(Spell(lines, tail)) == lines && Tail(Spell(lines, tail)) == tail
  {
    if lines == [] {
      assert FindLF(tail, 0) == |tail|;
    } else {
      assert lines[0] in lines;
      CutFirst(lines[0], Spell(lines[1..], tail));
      TerminatedSpell(lines[1..], tail);
    }
  }

  /** Feeding `a` and then `b` cuts like feeding both at once, provided the tail of `a` is kept. */
  lemma {:induction false} CutAppend(a: Bytes, b: Bytes)
    ensures Terminated(a + b) == Terminated(a) + Terminated(Tail(a) + b)
    ensures Tail(a + b) == Tail(Tail(a) + b)
    decreases |a|
  {
    hide Terminated, Tail;
    var n := FindLF(a, 0);
    if n == |a| {
      CutNone(a);
      assert [] + Terminated(a + b) == Terminated(a + b);
    } else {
      var line, rest := a[..n], a[n + 1..];
      CutFirst(line, rest);
      CutFirst(line, rest + b);
      assert a == line + [LF] + rest && a + b == line + [LF] + (rest + b);
      CutAppend(rest, b);
    }
  }

  lemma CutNone(b: Bytes)
    requires NoLF(b)
    ensures Terminated(b) == [] && Tail(b) == b
  {
    assert FindLF(b, 0) == |b|;
  }

  lemma {:induction false} KeptAppend(a: seq<Bytes>, b: seq<Bytes>)
    ensures Kept(a + b) == Kept(a) + Kept(b)
  {
    if a == [] {
      assert a + b == b;
    } else {
      assert (a + b)[1..] == a[1..] + b;
      KeptAppend(a[1..], b);
    }
  }

  lemma LinesAppend(a: Bytes, b: Bytes)
    ensures Lines(a + b) == Lines(a) + Lines(Tail(a) + b)
  {
    CutAppend(a, b);
    KeptAppend(Terminated(a), Terminated(Tail(a) + b));
  }

  /** A line an encoder writes: not empty, no LF inside, no CR at its end. */
  predicate CleanLine(line: Bytes) {
    line != [] && NoLF(line) && line[|line| - 1] != CR
  }

  // ---------------------------------------------------------------------------------------------
  // Which lines bytes write
  // ---------------------------------------------------------------------------------------------

  // In the bytes themselves: 10 ends a piece, 13 at its end is dropped.

  /** A terminated piece that writes no line. */
  predicate Blank(piece: Bytes) {
    piece == [] || piece == [13]
  }

  /** The piece is the line, with or without a CR behind it; a CR at the end is always the latter. */
  predicate Holds(piece: Bytes, line: Bytes) {
    line != [] && (piece == line + [13] || (piece == line && line[|line| - 1] != 13))
  }

  /** Blank pieces aside, the pieces hold the lines one by one. */
  predicate Renders(pieces: seq<Bytes>, lines: seq<Bytes>) {
    if pieces == [] then lines == []
    else if Blank(pieces[0]) then Renders(pieces[1..], lines)
    else lines != [] && Holds(pieces[0], lines[0]) && Renders(pieces[1..], lines[1..])
  }

  /** The terminated pieces, none with an LF inside, render the lines `whole`; the rest is a last line without
      terminator, or none, and some CRs. */
  ghost predicate WrittenAs(b: Bytes, lines: seq<Bytes>, pieces: seq<Bytes>, whole: seq<Bytes>, last: Bytes,
                            crs: Bytes)
  {
    && b == Spell(pieces, last + crs)
    && (forall piece | piece in pieces :: NoLF(piece)) && Renders(pieces, whole)
    && (forall i | 0 <= i < |crs| :: crs[i] == CR)
    && if last == [] then lines == whole else CleanLine(last) && lines == whole + [last]
  }

  /** The bytes write these lines. */
  ghost predicate Writes(b: Bytes, lines: seq<Bytes>) {
    exists pieces, whole, last, crs :: WrittenAs(b, lines, pieces, whole, last, crs)
  }

  lemma HoldsIff(piece: Bytes, line: Bytes)
    ensures Blank(piece) <==> StripCR(piece) == []
    ensures Holds(piece, line) <==> line != [] && StripCR(piece) == line
  {
    if piece != [] && piece[|piece| - 1] == CR {
      assert piece == StripCR(piece) + [CR];
    }
  }

  lemma {:induction false} RendersIff(pieces: seq<Bytes>, lines: seq<Bytes>)
    ensures Renders(pieces, lines) <==> Kept(pieces) == lines
  {
    if pieces == [] {
    } else {
      HoldsIff(pieces[0], if lines == [] then [] else lines[0]);
      RendersIff(pieces[1..], lines);
      if lines != [] {
        RendersIff(pieces[1..], lines[1..]);
      }
    }
  }

  lemma {:induction false} TrimmedEnd(b: Bytes)
    ensures TrimEnd(b) <= b
    ensures forall i | |TrimEnd(b)| <= i < |b| :: b[i] == LF || b[i] == CR
    ensures TrimEnd(b) != [] ==> b[|TrimEnd(b)| - 1] != LF && b[|TrimEnd(b)| - 1] != CR
    decreases |b|
  {
    if b != [] && (b[|b| - 1] == LF || b[|b| - 1] == CR) {
      TrimmedEnd(b[..|b| - 1]);
    }
  }

  lemma {:induction false} TrimsCRs(line: Bytes, crs: Bytes)
    requires forall i | 0 <= i < |crs| :: crs[i] == CR
    requires line == [] || CleanLine(line)
    ensures TrimEnd(line + crs) == line
    decreases |crs|
  {
    if crs == [] {
      assert line + crs == line;
    } else {
      var n := |crs| - 1;
      TrimsCRs(line, crs[..n]);
      assert (line + crs)[..|line + crs| - 1] == line + crs[..n];
    }
  }

  /** The framer finds exactly the lines that the bytes write: blank pieces and one CR behind a line are not
      part of them, and the last line needs no terminator. */
  lemma WholeLinesIff(b: Bytes, lines: seq<Bytes>)
    ensures WholeLines(b) == lines <==> Writes(b, lines)
  {
    if WholeLines(b) == lines {
      FramedAsWritten(b);
    }
    if pieces, whole, last, crs :| WrittenAs(b, lines, pieces, whole, last, crs) {
      WrittenAsFramed(b, lines, pieces, whole, last, crs);
    }
  }

  lemma TailParts(tail: Bytes)
    requires NoLF(tail)
    ensures TrimEnd(tail) <= tail && (TrimEnd(tail) == [] || CleanLine(TrimEnd(tail)))
    ensures var crs := tail[|TrimEnd(tail)|..];
            tail == TrimEnd(tail) + crs && forall i | 0 <= i < |crs| :: crs[i] == CR
  {
    TrimmedEnd(tail);
    hide TrimEnd;
  }

  lemma FramedAsWritten(b: Bytes)
    ensures Writes(b, WholeLines(b))
  {
    hide Terminated, Tail, TrimEnd, Spell, Kept, Renders, CleanLine;
    var pieces, tail := Terminated(b), Tail(b);
    SpellTerminated(b);
    RendersIff(pieces, Kept(pieces));
    TailParts(tail);
    var last := TrimEnd(tail);
    assert WrittenAs(b, WholeLines(b), pieces, Kept(pieces), last, tail[|last|..]);
  }

  lemma WrittenAsFramed(b: Bytes, lines: seq<Bytes>, pieces: seq<Bytes>, whole: seq<Bytes>, last: Bytes, crs: Bytes)
    requires WrittenAs(b, lines, pieces, whole, last, crs)
    ensures WholeLines(b) == lines
  {
    hide Terminated, Tail, TrimEnd, Spell, Kept, Renders;
    assert NoLF(last + crs);
    TerminatedSpell(pieces, last + crs);
    RendersIff(pieces, whole);
    TrimsCRs(last, crs);
  }

  lemma {:induction false} RendersClean(lines: seq<Bytes>)
    requires forall line :: line in lines ==> CleanLine(line)
    ensures Renders(lines, lines)
  {
    if lines == [] {
    } else {
      assert lines[0] in lines;
      RendersClean(lines[1..]);
    }
  }

  /** Encoded lines are written by spelling them ... */
  lemma CleanWritten(lines: seq<Bytes>)
    requires forall line :: line in lines ==> CleanLine(line)
    ensures Writes(Spell(lines, []), lines)
  {
    RendersClean(lines);
    var none: Bytes := [];
    assert none + none == none;
    hide Renders, Spell;
    assert WrittenAs(Spell(lines, []), lines, lines, lines, [], []);
  }

  /** ... also if the last one lacks its LF. */
  lemma LastUnterminated(lines: seq<Bytes>, last: Bytes)
    requires CleanLine(last) && forall line :: line in lines ==> CleanLine(line)
    ensures Writes(Spell(lines, last), lines + [last])
  {
    RendersClean(lines);
    assert last + [] == last;
    hide Renders, Spell;
    assert WrittenAs(Spell(lines, last), lines + [last], lines, lines, last, []);
  }
}
