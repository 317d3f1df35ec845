/**
 The bounded diagnostics reader: an incremental line splitter with caps on bytes,
 lines and line length, against a description of its result over the whole stream.
 */
module LogSplitter {

  type Byte = x: int | 0 <= x < 256

  const NEWLINE: Byte := 10
  const MAX_BYTES: nat := 2 * 1024 * 1024
  const MAX_LINES: nat := 2000
  const MAX_LINE_BYTES: nat := 65536

  // ---------- the whole stream ----------

  /** The position of the first newline at or after i, or the length. */
  ghost function NewlineFrom(s: seq<Byte>, i: nat): (n: nat)
    requires i <= |s|
    ensures i <= n <= |s|
    decreases |s| - i
  {
    if i < |s| && s[i] != NEWLINE then NewlineFrom(s, i + 1) else i
  }

  /** The newline-terminated lines, without their newlines, in order. */
  ghost function Lines(s: seq<Byte>): seq<seq<Byte>>
    decreases |s|
  {
    var n := NewlineFrom(s, 0);
    if n == |s| then [] else [s[..n]] + Lines(s[n + 1..])
  }

  /** What follows the last newline. */
  ghost function Tail(s: seq<Byte>): seq<Byte>
    decreases |s|
  {
    var n := NewlineFrom(s, 0);
    if n == |s| then s else Tail(s[n + 1..])
  }

  ghost function FirstBytes(s: seq<Byte>): seq<Byte> {
    if |s| <= MAX_BYTES then s else s[..MAX_BYTES]
  }

  ghost function FirstLines(lines: seq<seq<Byte>>): seq<seq<Byte>> {
    if |lines| <= MAX_LINES then lines else lines[..MAX_LINES]
  }

  /** The lines short enough to be looked at. */
  ghost function Short(lines: seq<seq<Byte>>): seq<seq<Byte>> {
    if lines == [] then []
    else
      var last := lines[|lines| - 1];
      Short(lines[..|lines| - 1]) + (if |last| <= MAX_LINE_BYTES then [last] else [])
  }

  /** The k-th line is looked at: it has at most 64 KiB. */
  ghost predicate LookedAt(lines: seq<seq<Byte>>, k: int)
    requires 0 <= k < |lines|
  {
    |lines[k]| <= 64 * 1024
  }

  /** These are the places, in order, of all lines looked at, and the lines there. */
  ghost predicate Places(lines: seq<seq<Byte>>, places: seq<nat>, short: seq<seq<Byte>>) {
    && |places| == |short|
    && (forall i :: 0 <= i < |places| ==> places[i] < |lines| && short[i] == lines[places[i]])
    && (forall i, j :: 0 <= i < j < |places| ==> places[i] < places[j])
    && (forall k :: 0 <= k < |lines| ==> (k in places <==> LookedAt(lines, k)))
  }

  lemma OneLineMore(front: seq<seq<Byte>>, line: seq<Byte>, places: seq<nat>, short: seq<seq<Byte>>)
    requires Places(front, places, short)
    ensures |line| <= 64 * 1024 ==> Places(front + [line], places + [|front|], short + [line])
    ensures |line| > 64 * 1024 ==> Places(front + [line], places, short)
  {
    var lines := front + [line];
    forall k | 0 <= k < |front| ensures k in places <==> LookedAt(lines, k) {
      assert LookedAt(front, k) <==> LookedAt(lines, k);
    }
    assert forall k :: k in places ==> k < |front|;
  }

  /** The lines handed on are exactly those of at most 64 KiB, whole and in order. */
  lemma {:induction false} ShortExactly(lines: seq<seq<Byte>>) returns (places: seq<nat>)
    ensures Places(lines, places, Short(lines))
  {
    if lines == [] {
      places := [];
    } else {
      var front, line := lines[..|lines| - 1], lines[|lines| - 1];
      places := ShortExactly(front);
      OneLineMore(front, line, places, Short(front));
      assert lines == front + [line];
      places := if |line| <= 64 * 1024 then places + [|front|] else places;
    }
  }

  /** An unterminated tail counts as a line only when no cap was reached. */
  ghost predicate TailCounts(s: seq<Byte>) {
    |s| < MAX_BYTES && |Lines(s)| < MAX_LINES && 0 < |Tail(s)| <= MAX_LINE_BYTES
  }

  /** The lines handed on for a whole stream. */
  ghost function Handed(s: seq<Byte>): seq<seq<Byte>> {
    Short(FirstLines(Lines(FirstBytes(s)))) + (if TailCounts(s) then [Tail(s)] else [])
  }

  ghost function LineCount(s: seq<Byte>): nat {
    |FirstLines(Lines(FirstBytes(s)))| + (if TailCounts(s) then 1 else 0)
  }

  ghost function Rejoined(lines: seq<seq<Byte>>): seq<Byte> {
    if lines == [] then [] else lines[0] + [NEWLINE] + Rejoined(lines[1..])
  }

  lemma {:induction false} NoNewlineBefore(s: seq<Byte>, i: nat)
    requires i <= |s|
    ensures forall j :: i <= j < NewlineFrom(s, i) ==> s[j] != NEWLINE
    ensures NewlineFrom(s, i) < |s| ==> s[NewlineFrom(s, i)] == NEWLINE
    decreases |s| - i
  {
    if i < |s| && s[i] != NEWLINE { NoNewlineBefore(s, i + 1); }
  }

  lemma RejoinOne(line: seq<Byte>, lines: seq<seq<Byte>>)
    ensures Rejoined([line] + lines) == line + [NEWLINE] + Rejoined(lines)
  {
    assert ([line] + lines)[1..] == lines;
  }

  lemma RejoinCut(s: seq<Byte>, n: nat, rest: seq<Byte>, lines: seq<seq<Byte>>, tail: seq<Byte>)
    requires n < |s| && s[n] == NEWLINE && rest == s[n + 1..] && Rejoined(lines) + tail == rest
    ensures Rejoined([s[..n]] + lines) + tail == s
  {
    RejoinOne(s[..n], lines);
    assert s == s[..n] + [NEWLINE] + rest;
  }

  lemma {:induction false} RejoinedIsTheStream(s: seq<Byte>)
    ensures Rejoined(Lines(s)) + Tail(s) == s
    decreases |s|
  {
    var n := NewlineFrom(s, 0);
    if n < |s| {
      var rest := s[n + 1..];
      NoNewlineBefore(s, 0);
      RejoinedIsTheStream(rest);
      RejoinCut(s, n, rest, Lines(rest), Tail(rest));
    }
  }

  lemma {:induction false} NoPieceHoldsANewline(s: seq<Byte>)
    ensures NEWLINE !in Tail(s) && forall l :: l in Lines(s) ==> NEWLINE !in l
    decreases |s|
  {
    var n := NewlineFrom(s, 0);
    NoNewlineBefore(s, 0);
    if n < |s| { NoPieceHoldsANewline(s[n + 1..]); }
  }

  /** Lines and tail are the stream cut at its newlines: nothing is lost, and no piece holds one. */
  lemma LinesRejoin(s: seq<Byte>)
    ensures Rejoined(Lines(s)) + Tail(s) == s
    ensures 10 !in Tail(s) && forall l :: l in Lines(s) ==> 10 !in l
  {
    RejoinedIsTheStream(s);
    NoPieceHoldsANewline(s);
  }

  /** How many lines a stream counts: those ended within its first two mebibytes, and a tail of at
      most 64 KiB of a shorter stream, up to 2000. */
  lemma CountsExactly(s: seq<Byte>)
    ensures var lines := |Lines(if |s| < 2_097_152 then s else s[..2_097_152])|;
            var all := lines + (if |s| < 2_097_152 && 0 < |Tail(s)| <= 65_536 then 1 else 0);
            LineCount(s) == if all < 2000 then all else 2000
  {
    assert |s| == 2_097_152 ==> s[..2_097_152] == s;
  }

  // ---------- splitting one byte further ----------

  lemma {:induction false} NewlineFromAppend(s: seq<Byte>, b: Byte, i: nat)
    requires i <= |s|
    ensures NewlineFrom(s + [b], i) ==
            if NewlineFrom(s, i) < |s| then NewlineFrom(s, i)
            else if b == NEWLINE then |s| else |s| + 1
    decreases |s| - i
  {
    if i < |s| && s[i] != NEWLINE { NewlineFromAppend(s, b, i + 1); }
    else if i == |s| && b != NEWLINE { assert NewlineFrom(s + [b], i + 1) == i + 1; }
  }

  lemma SlicesOfLonger(s: seq<Byte>, b: Byte, n: nat)
    requires n < |s|
    ensures (s + [b])[..n] == s[..n] && (s + [b])[n + 1..] == s[n + 1..] + [b]
  {
  }

  lemma {:induction false} AppendByte(s: seq<Byte>, b: Byte)
    ensures Lines(s + [b]) == if b == NEWLINE then Lines(s) + [Tail(s)] else Lines(s)
    ensures Tail(s + [b]) == if b == NEWLINE then [] else Tail(s) + [b]
    decreases |s|
  {
    var n := NewlineFrom(s, 0);
    NewlineFromAppend(s, b, 0);
    if n < |s| {
      var rest := s[n + 1..];
      AppendByte(rest, b);
      SlicesOfLonger(s, b, n);
      assert Lines(s + [b]) == [s[..n]] + Lines(rest + [b]);
      assert Tail(s + [b]) == Tail(rest + [b]);
    } else if b == NEWLINE {
      assert (s + [b])[..n] == s;
      assert (s + [b])[n + 1..] == [];
    }
  }

  lemma {:induction false} LinesGrow(s: seq<Byte>, t: seq<Byte>)
    ensures Lines(s) <= Lines(s + t)
    decreases |t|
  {
    if t == [] {
      assert s + t == s;
    } else {
      var front, b := t[..|t| - 1], t[|t| - 1];
      LinesGrow(s, front);
      AppendByte(s + front, b);
      assert s + t == (s + front) + [b];
    }
  }

  /** Once MAX_LINES lines are there, what follows changes nothing. */
  lemma CappedLinesStay(s: seq<Byte>, t: seq<Byte>)
    requires |Lines(s)| >= MAX_LINES
    ensures FirstLines(Lines(s + t)) == FirstLines(Lines(s))
    ensures |Lines(s + t)| >= MAX_LINES
  {
    LinesGrow(s, t);
  }

  /** The last byte comes after the line cap was reached. */
  ghost predicate BeyondLineCap(s: seq<Byte>) {
    s != [] && |Lines(s[..|s| - 1])| >= MAX_LINES
  }

  lemma BeyondStays(s: seq<Byte>, t: seq<Byte>)
    requires |Lines(s)| >= MAX_LINES && t != []
    ensures BeyondLineCap(s + t)
  {
    assert (s + t)[..|s + t| - 1] == s + t[..|t| - 1];
    CappedLinesStay(s, t[..|t| - 1]);
  }

  lemma EarlierCutStays(s: seq<Byte>, t: seq<Byte>)
    requires BeyondLineCap(s)
    ensures BeyondLineCap(s + t)
  {
    var front := s[..|s| - 1];
    assert s + t == front + ([s[|s| - 1]] + t);
    BeyondStays(front, [s[|s| - 1]] + t);
  }

  /** A byte was fed beyond a cap. */
  ghost predicate Overfed(s: seq<Byte>) {
    |s| >= MAX_BYTES || BeyondLineCap(FirstBytes(s))
  }

  lemma FullPrefixStays(s: seq<Byte>, t: seq<Byte>)
    requires |s| >= MAX_BYTES
    ensures FirstBytes(s + t) == FirstBytes(s)
  {
    assert (s + t)[..MAX_BYTES] == s[..MAX_BYTES];
    assert FirstBytes(s) == s[..MAX_BYTES] && FirstBytes(s + t) == (s + t)[..MAX_BYTES];
  }

  lemma ShortPrefixGrows(s: seq<Byte>, t: seq<Byte>) returns (rest: seq<Byte>)
    requires |s| <= MAX_BYTES
    ensures FirstBytes(s + t) == s + rest
    ensures rest == if |t| <= MAX_BYTES - |s| then t else t[..MAX_BYTES - |s|]
  {
    rest := if |t| <= MAX_BYTES - |s| then t else t[..MAX_BYTES - |s|];
    assert FirstBytes(s + t) == s + rest;
  }

  ghost predicate Capped(s: seq<Byte>) {
    |s| >= MAX_BYTES || |Lines(FirstBytes(s))| >= MAX_LINES
  }

  lemma CappedStreamsGrow(s: seq<Byte>, t: seq<Byte>)
    requires Capped(s)
    ensures Capped(s + t) && FirstLines(Lines(FirstBytes(s + t))) == FirstLines(Lines(FirstBytes(s)))
  {
    if |s| >= MAX_BYTES {
      FullPrefixStays(s, t);
    } else {
      var rest := ShortPrefixGrows(s, t);
      CappedLinesStay(s, rest);
    }
  }

  lemma NoTailWhenCapped(s: seq<Byte>)
    requires Capped(s)
    ensures !TailCounts(s)
  {
  }

  /** Reading on after a cap was reached changes nothing of the result. */
  lemma CapsAreFinal(s: seq<Byte>, t: seq<Byte>)
    requires Capped(s)
    ensures Handed(s + t) == Handed(s) && LineCount(s + t) == LineCount(s)
  {
    CappedStreamsGrow(s, t);
    NoTailWhenCapped(s);
    NoTailWhenCapped(s + t);
  }

  // ---------- the incremental splitter ----------

  /** What buffer and flag hold of an unfinished line. */
  ghost predicate Holding(buffer: seq<Byte>, discard: bool, tail: seq<Byte>) {
    if discard then buffer == [] && |tail| > MAX_LINE_BYTES else buffer == tail && |tail| <= MAX_LINE_BYTES
  }

  /** Line count, lines handed on, buffer and flag as the bytes of s demand. */
  ghost predicate Splits(s: seq<Byte>, linesRead: nat, handed: seq<seq<Byte>>, buffer: seq<Byte>, discard: bool) {
    && linesRead == |FirstLines(Lines(s))|
    && handed == Short(FirstLines(Lines(s)))
    && (linesRead < MAX_LINES ==> Holding(buffer, discard, Tail(s)))
  }

  lemma CappedSplitStays(s: seq<Byte>, t: seq<Byte>, handed: seq<seq<Byte>>, buffer: seq<Byte>, discard: bool)
    requires Splits(s, MAX_LINES, handed, buffer, discard)
    ensures Splits(s + t, MAX_LINES, handed, buffer, discard)
  {
    CappedLinesStay(s, t);
  }

  lemma NextByte(before: seq<Byte>, data: seq<Byte>, i: nat)
    requires i < |data|
    ensures before + data[..i + 1] == (before + data[..i]) + [data[i]]
    ensures BeyondLineCap(before + data[..i + 1]) <==> |Lines(before + data[..i])| >= MAX_LINES
  {
    var seen := before + data[..i];
    assert before + data[..i + 1] == seen + [data[i]];
    assert (seen + [data[i]])[..|seen|] == seen;
  }

  lemma RestIsIgnored(before: seq<Byte>, data: seq<Byte>, i: nat,
                      handed: seq<seq<Byte>>, buffer: seq<Byte>, discard: bool)
    requires i < |data| && Splits(before + data[..i], MAX_LINES, handed, buffer, discard)
    ensures Splits(before + data, MAX_LINES, handed, buffer, discard) && BeyondLineCap(before + data)
  {
    var seen := before + data[..i];
    assert before + data == seen + data[i..];
    CappedSplitStays(seen, data[i..], handed, buffer, discard);
    BeyondStays(seen, data[i..]);
  }

  class BoundedDiagnostics {
    var bytesRead: nat
    var linesRead: nat
    var buffer: seq<Byte>
    var discardLine: bool
    var truncated: bool
    var handed: seq<seq<Byte>>  // the arguments given to _line so far

    /** The state is what the bytes fed so far demand, wherever their chunks ended. */
    ghost predicate Reflects(fed: seq<Byte>)
      reads this
    {
      && bytesRead == |FirstBytes(fed)|
      && Splits(FirstBytes(fed), linesRead, handed, buffer, discardLine)
      && (truncated <==> Overfed(fed))
    }

    constructor ()
      ensures Reflects([])
    {
      bytesRead, linesRead, buffer, discardLine, truncated, handed := 0, 0, [], false, false, [];
    }

    /** One byte of the loop in feed, with the line cap not yet reached. */
    method Consume(byte: Byte, ghost before: seq<Byte>)
      requires Splits(before, linesRead, handed, buffer, discardLine) && linesRead < MAX_LINES
      modifies this`linesRead, this`buffer, this`discardLine, this`handed
      ensures Splits(before + [byte], linesRead, handed, buffer, discardLine)
    {
      AppendByte(before, byte);
      if byte == NEWLINE {
        linesRead := linesRead + 1;
        assert (Lines(before) + [Tail(before)])[..|Lines(before)|] == Lines(before);
        if !discardLine {
          handed := handed + [buffer];
        }
        buffer, discardLine := [], false;
      } else if |buffer| < MAX_LINE_BYTES && !discardLine {
        buffer := buffer + [byte];
      } else {
        buffer, discardLine := [], true;
      }
    }

    /** The loop of feed: afterwards the state describes everything, and `cut` tells
        whether a byte was met after the line cap. */
    method ConsumeAll(data: seq<Byte>, ghost before: seq<Byte>) returns (cut: bool)
      requires Splits(before, linesRead, handed, buffer, discardLine)
      modifies this`linesRead, this`buffer, this`discardLine, this`handed
      ensures Splits(before + data, linesRead, handed, buffer, discardLine)
      ensures cut <==> data != [] && BeyondLineCap(before + data)
    {
      var i := 0;
      assert before + data[..0] == before;
      while i < |data|
        invariant 0 <= i <= |data|
        invariant Splits(before + data[..i], linesRead, handed, buffer, discardLine)
        invariant i > 0 ==> !BeyondLineCap(before + data[..i])
      {
        if linesRead >= MAX_LINES {
          RestIsIgnored(before, data, i, handed, buffer, discardLine);
          return true;
        }
        NextByte(before, data, i);
        Consume(data[i], before + data[..i]);
        i := i + 1;
      }
      assert data[..i] == data;
      return false;
    }

    /** A chunk takes the state on to the longer stream; the answer says whether to read on. */
    method Feed(data: seq<Byte>, ghost fed: seq<Byte>) returns (more: bool)
      requires Reflects(fed)
      modifies this
      ensures Reflects(fed + data)
      ensures more <==> !Capped(fed + data)
    {
      var available := MAX_BYTES - bytesRead;
      var kept := if |data| <= available then data else data[..available];
      PrefixOfLonger(fed, data);
      truncated := truncated || |data| >= available;
      bytesRead := bytesRead + |kept|;
      var cut := ConsumeAll(kept, FirstBytes(fed));
      truncated := truncated || cut;
      OverfedLater(fed, data, kept);
      return bytesRead < MAX_BYTES && linesRead < MAX_LINES;
    }

    /** The end of the stream: the tail is handed on when it counts. */
    method Finish(ghost fed: seq<Byte>)
      requires Reflects(fed)
      modifies this
      ensures handed == Handed(fed) && linesRead == LineCount(fed)
    {
      TailTest(fed, linesRead, handed, buffer, discardLine);
      if buffer != [] && !discardLine && !truncated && linesRead < MAX_LINES {
        linesRead := linesRead + 1;
        handed := handed + [buffer];
      } else {
        assert handed + [] == handed;
      }
      buffer := [];
    }
  }

  lemma PrefixOfLonger(fed: seq<Byte>, data: seq<Byte>)
    ensures var available := MAX_BYTES - |FirstBytes(fed)|;
            FirstBytes(fed + data) == FirstBytes(fed) + (if |data| <= available then data else data[..available])
  {
    if |fed| >= MAX_BYTES {
      FullPrefixStays(fed, data);
    } else {
      var rest := ShortPrefixGrows(fed, data);
    }
  }

  lemma OverfedLater(fed: seq<Byte>, data: seq<Byte>, kept: seq<Byte>)
    requires FirstBytes(fed + data) == FirstBytes(fed) + kept
    ensures Overfed(fed + data) <==>
              Overfed(fed) || |data| >= MAX_BYTES - |FirstBytes(fed)|
              || (kept != [] && BeyondLineCap(FirstBytes(fed) + kept))
  {
    if BeyondLineCap(FirstBytes(fed)) { EarlierCutStays(FirstBytes(fed), kept); }
    if kept == [] { assert FirstBytes(fed) + kept == FirstBytes(fed); }
  }

  lemma TailTest(fed: seq<Byte>, linesRead: nat, handed: seq<seq<Byte>>, buffer: seq<Byte>, discard: bool)
    requires Splits(FirstBytes(fed), linesRead, handed, buffer, discard)
    ensures TailCounts(fed) <==> buffer != [] && !discard && !Overfed(fed) && linesRead < MAX_LINES
    ensures TailCounts(fed) ==> buffer == Tail(fed)
  {
    if |fed| < MAX_BYTES {
      assert FirstBytes(fed) == fed;
      BeyondMeansCapped(fed);
    }
  }

  lemma BeyondMeansCapped(s: seq<Byte>)
    ensures BeyondLineCap(s) ==> |Lines(s)| >= MAX_LINES
  {
    if BeyondLineCap(s) {
      var front, last := s[..|s| - 1], [s[|s| - 1]];
      assert s == front + last;
      LinesGrow(front, last);
    }
  }

  // ---------- reading a stream chunk by chunk ----------

  /** The bytes of the chunks from the i-th up to the first empty read, which ends the stream. */
  ghost function Stream(chunks: seq<seq<Byte>>, i: nat): seq<Byte>
    requires i <= |chunks|
    decreases |chunks| - i
  {
    if i == |chunks| || chunks[i] == [] then [] else chunks[i] + Stream(chunks, i + 1)
  }

  lemma StopIsHarmless(fed: seq<Byte>, rest: seq<Byte>)
    requires Capped(fed) || rest == []
    ensures Handed(fed + rest) == Handed(fed) && LineCount(fed + rest) == LineCount(fed)
  {
    if Capped(fed) { CapsAreFinal(fed, rest); } else { assert fed + rest == fed; }
  }

  lemma NextChunk(fed: seq<Byte>, chunks: seq<seq<Byte>>, i: nat)
    requires i < |chunks| && chunks[i] != []
    ensures fed + Stream(chunks, i) == (fed + chunks[i]) + Stream(chunks, i + 1)
  {
  }

  /** The feeding loop of read_diagnostics: the result is that of the whole stream. */
  method ReadDiagnostics(chunks: seq<seq<Byte>>) returns (handed: seq<seq<Byte>>, lines: nat)
    ensures handed == Handed(Stream(chunks, 0)) && lines == LineCount(Stream(chunks, 0))
  {
    var diagnostics := new BoundedDiagnostics();
    ghost var fed: seq<Byte> := [];
    var i, more := 0, true;
    assert Stream(chunks, 0) == fed + Stream(chunks, 0);
    while i < |chunks| && more && chunks[i] != []
      invariant 0 <= i <= |chunks|
      invariant diagnostics.Reflects(fed)
      invariant !more ==> Capped(fed)
      invariant Stream(chunks, 0) == fed + Stream(chunks, i)
    {
      NextChunk(fed, chunks, i);
      more := diagnostics.Feed(chunks[i], fed);
      fed := fed + chunks[i];
      i := i + 1;
    }
    StopIsHarmless(fed, Stream(chunks, i));
    diagnostics.Finish(fed);
    return diagnostics.handed, diagnostics.linesRead;
  }

  /** Two readings of the same bytes agree, however they were cut into chunks. */
  lemma ChunksDoNotMatter(a: seq<seq<Byte>>, b: seq<seq<Byte>>)
    requires (forall i :: 0 <= i < |a| ==> a[i] != []) && (forall i :: 0 <= i < |b| ==> b[i] != [])
    requires Concat(a) == Concat(b)
    ensures Handed(Stream(a, 0)) == Handed(Stream(b, 0)) && LineCount(Stream(a, 0)) == LineCount(Stream(b, 0))
  {
    StreamIsConcat(a, 0);
    StreamIsConcat(b, 0);
    assert a[0..] == a && b[0..] == b;
  }

  ghost function Concat(chunks: seq<seq<Byte>>): seq<Byte> {
    if chunks == [] then [] else chunks[0] + Concat(chunks[1..])
  }

  lemma {:induction false} StreamIsConcat(chunks: seq<seq<Byte>>, i: nat)
    requires i <= |chunks| && forall j :: 0 <= j < |chunks| ==> chunks[j] != []
    ensures Stream(chunks, i) == Concat(chunks[i..])
    decreases |chunks| - i
  {
    if i < |chunks| {
      StreamIsConcat(chunks, i + 1);
      assert chunks[i..][1..] == chunks[i + 1..];
    }
  }
}
