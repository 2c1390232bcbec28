/** The incremental line splitter behind server-sent events and NDJSON, with its byte budgets. */
module StreamingLines {
  import opened Collections

  // ---------- Reference: the lines of a whole text ----------

  predicate IsBreak(c: char) {
    c == '\n' || c == '\r'
  }

  ghost predicate BreakFree(s: string) {
    forall i | 0 <= i < |s| :: !IsBreak(s[i])
  }

  function FirstBreak(text: string): (i: nat)
    ensures i <= |text| && BreakFree(text[..i]) && (i < |text| ==> IsBreak(text[i]))
  {
    if text == "" || IsBreak(text[0]) then 0
    else
      var i := 1 + FirstBreak(text[1..]);
      assert text[..i] == [text[0]] + text[1..][..i - 1];
      i
  }

  /** Index just past the line end at `i`: CR LF counts as one line end. */
  function BreakEnd(text: string, i: nat): (end: nat)
    requires i < |text|
    ensures i < end <= |text|
  {
    if text[i] == '\r' && i + 1 < |text| && text[i + 1] == '\n' then i + 2 else i + 1
  }

  /** Lines end at LF, CR or CR LF; a last line without an end still counts when it is not empty. */
  function SplitLines(text: string): seq<string>
    decreases |text|
  {
    if text == "" then []
    else
      var i := FirstBreak(text);
      if i == |text| then [text] else [text[..i]] + SplitLines(text[BreakEnd(text, i)..])
  }

  // ---------- Reference: byte budgets over a list of lines ----------

  datatype Limit = Unlimited | AtMost(max: nat)

  datatype Limits = Limits(line: Limit, event: Limit)

  datatype Decoded = Decoded(lines: seq<string>, tooLarge: bool)

  predicate Exceeds(size: nat, limit: Limit) {
    limit.AtMost? && size > limit.max
  }

  predicate TooLarge(size: nat, eventSize: nat, limits: Limits) {
    Exceeds(size, limits.line) || Exceeds(eventSize + size, limits.event)
  }

  function Utf8Width(c: char): nat {
    var code := c as int;
    if code < 0x80 then 1 else if code < 0x800 then 2 else if code < 0x1_0000 then 3 else 4
  }

  /** Length of `s` in UTF-8. */
  function ByteSize(s: string): nat {
    if s == "" then 0 else Utf8Width(s[0]) + ByteSize(s[1..])
  }

  /** The UTF-8 form of a character (RFC 3629, section 3). */
  function Utf8Bytes(c: char): seq<int> {
    var code := c as int;
    match Utf8Width(c)
    case 1 => [code]
    case 2 => [0xC0 + code / 0x40, 0x80 + code % 0x40]
    case 3 => [0xE0 + code / 0x1000, 0x80 + code / 0x40 % 0x40, 0x80 + code % 0x40]
    case _ => [0xF0 + code / 0x4_0000, 0x80 + code / 0x1000 % 0x40, 0x80 + code / 0x40 % 0x40, 0x80 + code % 0x40]
  }

  predicate Continuation(byte: int) {
    0x80 <= byte <= 0xBF
  }

  /** One character in its shortest form: the lead byte tells how many follow (RFC 3629, section 4). */
  ghost predicate Utf8Form(b: seq<int>) {
    match |b|
    case 1 => 0 <= b[0] <= 0x7F
    case 2 => 0xC2 <= b[0] <= 0xDF && Continuation(b[1])
    case 3 => 0xE0 <= b[0] <= 0xEF && Continuation(b[1]) && Continuation(b[2]) && (b[0] == 0xE0 ==> b[1] >= 0xA0)
    case 4 =>
      && 0xF0 <= b[0] <= 0xF4 && Continuation(b[1]) && Continuation(b[2]) && Continuation(b[3])
      && (b[0] == 0xF0 ==> b[1] >= 0x90)
    case _ => false
  }

  /** The character that such a form stands for. */
  function Utf8Code(b: seq<int>): int {
    match |b|
    case 1 => b[0]
    case 2 => (b[0] - 0xC0) * 0x40 + (b[1] - 0x80)
    case 3 => ((b[0] - 0xE0) * 0x40 + (b[1] - 0x80)) * 0x40 + (b[2] - 0x80)
    case 4 => (((b[0] - 0xF0) * 0x40 + (b[1] - 0x80)) * 0x40 + (b[2] - 0x80)) * 0x40 + (b[3] - 0x80)
    case _ => 0
  }

  /** The width counted for a character is the length of its only UTF-8 form. */
  lemma WidthIsUtf8(c: char)
    ensures var b := Utf8Bytes(c); |b| == Utf8Width(c) && Utf8Form(b) && Utf8Code(b) == c as int
  {
    var code := c as int;
    SixBits(code);
    SixBits(code / 0x40);
    SixBits(code / 0x1000);
  }

  /** Six bits of a number, and the rest. */
  lemma SixBits(n: int)
    requires n >= 0
    ensures n == n / 0x40 * 0x40 + n % 0x40 && 0 <= n % 0x40 < 0x40
    ensures n / 0x40 / 0x40 == n / 0x1000 && n / 0x1000 / 0x40 == n / 0x4_0000
  {
  }

  function Utf8(s: string): seq<int> {
    if s == "" then [] else Utf8Bytes(s[0]) + Utf8(s[1..])
  }

  /** The size counted for a text is the length of its UTF-8 form. */
  lemma {:induction false} SizeIsUtf8(s: string)
    ensures ByteSize(s) == |Utf8(s)|
  {
    if s != "" {
      WidthIsUtf8(s[0]);
      SizeIsUtf8(s[1..]);
    }
    hide Utf8Bytes;
  }

  /** The lines delivered before the first budget violation; `eventSize` bytes of the event came before. */
  function Bounded(lines: seq<string>, eventSize: nat, limits: Limits): Decoded {
    if lines == [] then Decoded([], false)
    else if TooLarge(ByteSize(lines[0]), eventSize, limits) then Decoded([], true)
    else
      var next := if lines[0] == "" then 0 else eventSize + ByteSize(lines[0]);
      var rest := Bounded(lines[1..], next, limits);
      Decoded([lines[0]] + rest.lines, rest.tooLarge)
  }

  /** Bytes of the event that line `i` belongs to, up to and including line `i`. */
  function EventBytes(lines: seq<string>, i: nat): nat
    requires i < |lines|
  {
    ByteSize(lines[i]) + if i == 0 || lines[i - 1] == "" then 0 else EventBytes(lines, i - 1)
  }

  ghost predicate Violates(lines: seq<string>, i: nat, limits: Limits)
    requires i < |lines|
  {
    || (limits.line.AtMost? && ByteSize(lines[i]) > limits.line.max)
    || (limits.event.AtMost? && EventBytes(lines, i) > limits.event.max)
  }

  /** Adds `text` to the running size of the unfinished line and checks both budgets. */
  method Measure(text: string, fragmentSize: nat, eventSize: nat, limits: Limits)
    returns (size: nat, tooLarge: bool)
    ensures limits == Limits(Unlimited, Unlimited) ==> !tooLarge
    ensures limits != Limits(Unlimited, Unlimited) ==>
              size == fragmentSize + ByteSize(text) && (tooLarge <==> TooLarge(size, eventSize, limits))
  {
    size, tooLarge := fragmentSize, false;
    if limits.line.AtMost? || limits.event.AtMost? {
      size := size + ByteSize(text);
      tooLarge := Exceeds(size, limits.line) || Exceeds(eventSize + size, limits.event);
    }
  }

  /** What is still to be decoded, once the LF paired with a CR already seen is set aside. */
  function Remaining(rest: string, skipLF: bool): string {
    if skipLF && rest != "" && rest[0] == '\n' then rest[1..] else rest
  }

  function Then(lines: seq<string>, rest: Decoded): Decoded {
    Decoded(lines + rest.lines, rest.tooLarge)
  }

  ghost predicate Metered(limits: Limits) {
    limits != Limits(Unlimited, Unlimited)
  }

  /** The decoder's loop invariant: what was delivered, then the reference run on what is left. */
  ghost predicate Decoding(goal: Decoded, lines: seq<string>, pending: string, rest: string,
                           fragmentSize: nat, eventSize: nat, limits: Limits)
  {
    && BreakFree(pending)
    && (Metered(limits) ==> fragmentSize == ByteSize(pending))
    && goal == Then(lines, Bounded(SplitLines(pending + rest), eventSize, limits))
  }

  // ---------- Facts about the reference ----------

  lemma {:induction false} FirstBreakOf(pre: string, rest: string)
    requires BreakFree(pre)
    ensures FirstBreak(pre + rest) == |pre| + FirstBreak(rest)
  {
    if pre == "" {
      assert pre + rest == rest;
    } else {
      FirstBreakOf(pre[1..], rest);
      assert (pre + rest)[1..] == pre[1..] + rest;
    }
  }

  lemma {:induction false} ByteSizeAppend(a: string, b: string)
    ensures ByteSize(a + b) == ByteSize(a) + ByteSize(b)
  {
    if a == "" {
      assert a + b == b;
    } else {
      ByteSizeAppend(a[1..], b);
      assert (a + b)[1..] == a[1..] + b;
    }
  }

  lemma {:induction false} UnmeteredBounded(lines: seq<string>, eventSize: nat, limits: Limits)
    requires !Metered(limits)
    ensures Bounded(lines, eventSize, limits) == Decoded(lines, false)
  {
    if lines != [] {
      UnmeteredBounded(lines[1..], if lines[0] == "" then 0 else eventSize + ByteSize(lines[0]), limits);
    }
  }

  /** A text that starts with a break-free piece and then a line end has that piece as its first line. */
  lemma SplitFirst(line: string, rest: string)
    requires BreakFree(line) && rest != "" && IsBreak(rest[0])
    ensures SplitLines(line + rest) == [line] + SplitLines(rest[BreakEnd(rest, 0)..])
  {
    FirstBreakOf(line, rest);
    assert FirstBreak(rest) == 0;
    var text := line + rest;
    assert text[..|line|] == line;
    assert text[BreakEnd(text, |line|)..] == rest[BreakEnd(rest, 0)..];
  }

  lemma Associative(a: string, b: string, c: string)
    ensures a + (b + c) == a + b + c
  {
  }

  /** The reference run stops exactly at the first line that breaks a budget, and only there. */
  lemma {:induction false} FirstViolation(lines: seq<string>, limits: Limits)
    ensures var run := Bounded(lines, 0, limits);
            && run.lines <= lines
            && (run.tooLarge <==> exists i | 0 <= i < |lines| :: Violates(lines, i, limits))
            && (run.tooLarge ==> |run.lines| < |lines| && Violates(lines, |run.lines|, limits))
            && (!run.tooLarge ==> run.lines == lines)
            && forall i | 0 <= i < |run.lines| :: !Violates(lines, i, limits)
  {
    FirstViolationFrom(lines, 0, limits);
    assert lines[0..] == lines;
  }

  lemma {:induction false} FirstViolationFrom(lines: seq<string>, from: nat, limits: Limits)
    requires from <= |lines|
    ensures var run := Bounded(lines[from..], EventBefore(lines, from), limits);
            && run.lines <= lines[from..]
            && (run.tooLarge ==> from + |run.lines| < |lines| && Violates(lines, from + |run.lines|, limits))
            && (!run.tooLarge ==> run.lines == lines[from..])
            && forall i | from <= i < from + |run.lines| :: !Violates(lines, i, limits)
    decreases |lines| - from
  {
    hide Bounded, Violates, EventBefore;
    if from < |lines| {
      BoundedStep(lines, from, limits);
      FirstViolationFrom(lines, from + 1, limits);
      assert lines[from..] == [lines[from]] + lines[from + 1..];
    } else {
      assert lines[from..] == [];
      BoundedEnd(EventBefore(lines, from), limits);
    }
  }

  lemma BoundedEnd(eventSize: nat, limits: Limits)
    ensures Bounded([], eventSize, limits) == Decoded([], false)
  {
  }

  lemma BoundedStep(lines: seq<string>, from: nat, limits: Limits)
    requires from < |lines|
    ensures var run := Bounded(lines[from..], EventBefore(lines, from), limits);
            if Violates(lines, from, limits) then run == Decoded([], true)
            else run == Then([lines[from]], Bounded(lines[from + 1..], EventBefore(lines, from + 1), limits))
  {
    hide ByteSize;
    assert lines[from..][1..] == lines[from + 1..];
    assert EventBytes(lines, from) == EventBefore(lines, from) + ByteSize(lines[from]);
  }

  /** Bytes already counted against the event when line `i` starts. */
  function EventBefore(lines: seq<string>, i: nat): nat
    requires i <= |lines|
  {
    if i == 0 || lines[i - 1] == "" then 0 else EventBytes(lines, i - 1)
  }

  datatype LineEnd = LF | CR | CRLF

  function EndText(end: LineEnd): string {
    match end
    case LF => "\n"
    case CR => "\r"
    case CRLF => "\r\n"
  }

  /** A text built from break-free lines, each with a line end, and a last line without one. */
  function JoinLines(lines: seq<string>, ends: seq<LineEnd>, tail: string): string
    requires |lines| == |ends|
  {
    if lines == [] then tail else lines[0] + EndText(ends[0]) + JoinLines(lines[1..], ends[1..], tail)
  }

  /** A CR at the end of a line meets the LF of an empty line after it: together they read as one line end. */
  predicate Merges(lines: seq<string>, ends: seq<LineEnd>, i: int)
    requires |lines| == |ends|
  {
    0 <= i < |lines| - 1 && ends[i].CR? && lines[i + 1] == "" && ends[i + 1].LF?
  }

  ghost predicate NothingMerges(lines: seq<string>, ends: seq<LineEnd>)
    requires |lines| == |ends|
  {
    forall i :: !Merges(lines, ends, i)
  }

  ghost predicate AllBreakFree(lines: seq<string>) {
    forall i | 0 <= i < |lines| :: BreakFree(lines[i])
  }

  lemma TailMerges(lines: seq<string>, ends: seq<LineEnd>)
    requires |lines| == |ends| && lines != []
    ensures NothingMerges(lines, ends) <==> !Merges(lines, ends, 0) && NothingMerges(lines[1..], ends[1..])
  {
    forall i | i >= 0 ensures Merges(lines[1..], ends[1..], i) == Merges(lines, ends, i + 1) {
    }
    if NothingMerges(lines[1..], ends[1..]) && !Merges(lines, ends, 0) {
      forall i ensures !Merges(lines, ends, i) {
        assert !Merges(lines[1..], ends[1..], i - 1);
      }
    }
    if NothingMerges(lines, ends) {
      forall i ensures !Merges(lines[1..], ends[1..], i) {
        assert !Merges(lines, ends, i + 1);
      }
    }
  }

  lemma PastEnd(end: LineEnd, rest: string)
    ensures var text := EndText(end) + rest;
            && IsBreak(text[0])
            && text[BreakEnd(text, 0)..] == if end.CR? && rest != "" && rest[0] == '\n' then rest[1..] else rest
  {
    assert (EndText(end) + rest)[|EndText(end)|..] == rest;
    assert rest != "" ==> ("\r" + rest)[2..] == rest[1..];
  }

  /** The text after a CR starts with LF exactly when the next line is empty and ended by LF. */
  lemma StartsWithLF(lines: seq<string>, ends: seq<LineEnd>, tail: string)
    requires |lines| == |ends| && AllBreakFree(lines) && BreakFree(tail)
    ensures var text := JoinLines(lines, ends, tail);
            && (text != "" && text[0] == '\n' <==> lines != [] && lines[0] == "" && ends[0].LF?)
            && (text != "" && text[0] == '\n' ==> text[1..] == JoinLines(lines[1..], ends[1..], tail))
  {
    if lines != [] {
      var rest := JoinLines(lines[1..], ends[1..], tail);
      Associative(lines[0], EndText(ends[0]), rest);
      assert lines[0] == "" && ends[0].LF? ==> "" + EndText(ends[0]) == "\n" && ("\n" + rest)[1..] == rest;
    }
  }

  /** What splitting makes of the first joined line, and of what follows it. */
  lemma SplitJoinedFirst(lines: seq<string>, ends: seq<LineEnd>, tail: string)
    requires |lines| == |ends| && lines != [] && AllBreakFree(lines) && BreakFree(tail)
    ensures var split := SplitLines(JoinLines(lines, ends, tail));
            var n := if Merges(lines, ends, 0) then 2 else 1;
            split == [lines[0]] + SplitLines(JoinLines(lines[n..], ends[n..], tail))
  {
    hide SplitLines, EndText, BreakEnd, FirstBreak;
    var rest := JoinLines(lines[1..], ends[1..], tail);
    Associative(lines[0], EndText(ends[0]), rest);
    PastEnd(ends[0], rest);
    SplitFirst(lines[0], EndText(ends[0]) + rest);
    StartsWithLF(lines[1..], ends[1..], tail);
    TwoOn(lines, ends);
    hide JoinLines, BreakFree;
  }

  lemma TwoOn(lines: seq<string>, ends: seq<LineEnd>)
    requires |lines| == |ends| && lines != []
    ensures |lines| > 1 ==> lines[1..][1..] == lines[2..] && ends[1..][1..] == ends[2..]
  {
  }

  /** Splitting undoes joining, for every mixture of line ends and with an unfinished last line, if and only if no CR
      meets an LF; otherwise lines are lost. */
  lemma {:induction false} SplitJoined(lines: seq<string>, ends: seq<LineEnd>, tail: string)
    requires |lines| == |ends| && AllBreakFree(lines) && BreakFree(tail)
    ensures var split := SplitLines(JoinLines(lines, ends, tail));
            && (split == Joined(lines, tail) <==> NothingMerges(lines, ends))
            && |split| <= |Joined(lines, tail)|
    decreases |lines|
  {
    if lines == [] {
      FirstBreakOf(tail, "");
      assert tail + "" == tail;
    } else {
      hide SplitLines, JoinLines, NothingMerges, Joined;
      SplitJoinedFirst(lines, ends, tail);
      TailMerges(lines, ends);
      var n := if Merges(lines, ends, 0) then 2 else 1;
      JoinedMore(lines, tail, n);
      SplitJoined(lines[n..], ends[n..], tail);
      SameHead(lines[0], SplitLines(JoinLines(lines[n..], ends[n..], tail)), Joined(lines[1..], tail));
    }
  }

  function Joined(lines: seq<string>, tail: string): seq<string> {
    lines + if tail == "" then [] else [tail]
  }

  lemma JoinedMore(lines: seq<string>, tail: string, n: nat)
    requires 1 <= n <= |lines|
    ensures Joined(lines, tail) == [lines[0]] + Joined(lines[1..], tail)
    ensures |Joined(lines[n..], tail)| == |Joined(lines, tail)| - n
  {
  }

  lemma SameHead(x: string, a: seq<string>, b: seq<string>)
    ensures [x] + a == [x] + b <==> a == b
  {
    assert ([x] + a)[1..] == a && ([x] + b)[1..] == b;
  }

  /** A chunk that follows a CR at the end of the one before drops the paired LF, if it has one. */
  lemma Resume(chunk: string, later: string, skipLF: bool)
    ensures var start := if skipLF && chunk != "" && chunk[0] == '\n' then 1 else 0;
            Remaining(chunk + later, skipLF) == Remaining(chunk[start..] + later, skipLF && chunk == "")
  {
  }

  lemma Cut(chunk: string, later: string, from: nat, to: nat)
    requires from <= to <= |chunk|
    ensures chunk[from..] + later == chunk[from..to] + (chunk[to..] + later)
  {
  }

  /** Past the line end at `index`, the LF of a CR LF cut by the end of the chunk is still to be skipped. */
  lemma PastBreak(chunk: string, later: string, index: nat)
    requires index < |chunk| && IsBreak(chunk[index])
    ensures var rest := chunk[index..] + later;
            var paired := chunk[index] == '\r' && index + 1 < |chunk| && chunk[index + 1] == '\n';
            var start := if paired then index + 2 else index + 1;
            rest[BreakEnd(rest, 0)..]
            == Remaining(chunk[start..] + later, chunk[index] == '\r' && index + 1 == |chunk|)
  {
  }

  // ---------- Steps of the decoder's invariant ----------

  /** A line end is reached: the pending fragments and the piece before it become a line. */
  lemma Deliver(goal: Decoded, lines: seq<string>, pending: string, piece: string, rest: string,
                fragmentSize: nat, eventSize: nat, limits: Limits, nextSize: nat)
    requires Decoding(goal, lines, pending, piece + rest, fragmentSize, eventSize, limits)
    requires BreakFree(piece) && rest != "" && IsBreak(rest[0])
    requires Metered(limits) ==>
               && !TooLarge(ByteSize(pending + piece), eventSize, limits)
               && nextSize == if pending + piece == "" then 0 else eventSize + ByteSize(pending + piece)
    ensures Decoding(goal, lines + [pending + piece], "", rest[BreakEnd(rest, 0)..], 0, nextSize, limits)
  {
    var line, after := pending + piece, SplitLines(rest[BreakEnd(rest, 0)..]);
    assert SplitLines(pending + (piece + rest)) == [line] + after by {
      Associative(pending, piece, rest);
      SplitFirst(line, rest);
    }
    BoundedFirst(line, after, eventSize, nextSize, limits);
    ThenThen(lines, line, Bounded(after, nextSize, limits));
    assert "" + rest[BreakEnd(rest, 0)..] == rest[BreakEnd(rest, 0)..];
  }

  lemma ThenThen(lines: seq<string>, line: string, rest: Decoded)
    ensures Then(lines, Then([line], rest)) == Then(lines + [line], rest)
  {
  }

  lemma BoundedFirst(line: string, after: seq<string>, eventSize: nat, nextSize: nat, limits: Limits)
    requires Metered(limits) ==>
               && !TooLarge(ByteSize(line), eventSize, limits)
               && nextSize == if line == "" then 0 else eventSize + ByteSize(line)
    ensures Bounded([line] + after, eventSize, limits) == Then([line], Bounded(after, nextSize, limits))
  {
    if Metered(limits) {
      assert ([line] + after)[1..] == after;
    } else {
      UnmeteredBounded([line] + after, eventSize, limits);
      UnmeteredBounded(after, nextSize, limits);
    }
  }

  /** A break-free piece at the front of what is left can be moved to the pending fragments. */
  lemma Postpone(goal: Decoded, lines: seq<string>, pending: string, piece: string, rest: string,
                 fragmentSize: nat, eventSize: nat, limits: Limits)
    requires Decoding(goal, lines, pending, piece + rest, fragmentSize, eventSize, limits)
    requires BreakFree(piece)
    ensures Decoding(goal, lines, pending + piece, rest, fragmentSize + ByteSize(piece), eventSize, limits)
  {
    ByteSizeAppend(pending, piece);
    assert pending + (piece + rest) == pending + piece + rest by { Associative(pending, piece, rest); }
    assert BreakFree(pending + piece);
  }

  /** The text ends inside a line: what is pending is the last line. */
  lemma LastLine(goal: Decoded, lines: seq<string>, pending: string, fragmentSize: nat, eventSize: nat, limits: Limits)
    requires Decoding(goal, lines, pending, "", fragmentSize, eventSize, limits)
    requires pending != "" && (Metered(limits) ==> !TooLarge(fragmentSize, eventSize, limits))
    ensures goal == Decoded(lines + [pending], false)
  {
    FirstBreakOf(pending, "");
    assert pending + "" == pending;
    assert SplitLines(pending) == [pending];
    BoundedFirst(pending, [], eventSize, eventSize + ByteSize(pending), limits);
    assert [pending] + [] == [pending];
  }

  /** A piece that takes the unfinished line over budget decides the run, wherever that line ends. */
  lemma Overflow(goal: Decoded, lines: seq<string>, pending: string, piece: string, rest: string,
                 fragmentSize: nat, eventSize: nat, limits: Limits)
    requires Decoding(goal, lines, pending, piece + rest, fragmentSize, eventSize, limits)
    requires BreakFree(piece) && Metered(limits) && !TooLarge(fragmentSize, eventSize, limits)
    requires TooLarge(ByteSize(pending + piece), eventSize, limits)
    ensures goal == Decoded(lines, true)
  {
    ByteSizeAppend(pending, piece);
    Associative(pending, piece, rest);
    OversizedFirst(pending + piece, rest, eventSize, limits);
    assert lines + [] == lines;
  }

  lemma OversizedFirst(start: string, rest: string, eventSize: nat, limits: Limits)
    requires BreakFree(start) && start != "" && TooLarge(ByteSize(start), eventSize, limits)
    ensures Bounded(SplitLines(start + rest), eventSize, limits) == Decoded([], true)
  {
    FirstBreakOf(start, rest);
    var more := rest[..FirstBreak(rest)];
    assert (start + rest)[..|start| + |more|] == start + more;
    ByteSizeAppend(start, more);
    assert SplitLines(start + rest)[0] == start + more;
  }

  // ---------- The decoder ----------

  /** Measures the last piece of a line and joins it to the fragments kept so far. */
  method TakeLine(fragments: seq<string>, text: string, fragmentSize: nat, eventSize: nat, limits: Limits)
    returns (line: string, size: nat, tooLarge: bool)
    requires Metered(limits) ==> fragmentSize == ByteSize(Flatten(fragments))
    ensures line == Flatten(fragments) + text
    ensures Metered(limits) ==> size == ByteSize(line)
    ensures tooLarge <==> Metered(limits) && TooLarge(ByteSize(line), eventSize, limits)
  {
    line := text;
    size, tooLarge := Measure(line, fragmentSize, eventSize, limits);
    ByteSizeAppend(Flatten(fragments), text);
    assert [] + text == text;
    if |fragments| > 0 {
      FlattenAppend(fragments, line);
      line := Flatten(fragments + [line]);
    }
  }

  /** Ends the line that the break at `index` of `chunk` closes; returns where the next line starts. */
  method EndLine(chunk: string, start: nat, index: nat, fragments: seq<string>, fragmentSize: nat, eventSize: nat,
                 limits: Limits, ghost goal: Decoded, ghost lines: seq<string>, ghost later: string)
    returns (line: string, next: nat, skipLF: bool, nextSize: nat, tooLarge: bool)
    requires start <= index < |chunk| && IsBreak(chunk[index])
    requires forall i | start <= i < index :: !IsBreak(chunk[i])
    requires Metered(limits) ==> !TooLarge(fragmentSize, eventSize, limits)
    requires Decoding(goal, lines, Flatten(fragments), chunk[start..] + later, fragmentSize, eventSize, limits)
    ensures tooLarge ==> goal == Decoded(lines, true)
    ensures index < next <= |chunk| && (skipLF ==> next == |chunk|)
    ensures !tooLarge ==>
              && (Metered(limits) ==> !TooLarge(0, nextSize, limits))
              && Decoding(goal, lines + [line], "", Remaining(chunk[next..] + later, skipLF), 0, nextSize, limits)
  {
    hide SplitLines, Bounded, ByteSize, Flatten, Then;
    ghost var pending, piece, rest := Flatten(fragments), chunk[start..index], chunk[index..] + later;
    Cut(chunk, later, start, index);
    PastBreak(chunk, later, index);
    next, skipLF := index + 1, false;
    if chunk[index] == '\r' {
      if index + 1 < |chunk| && chunk[index + 1] == '\n' {
        next := index + 2;
      } else if index + 1 == |chunk| {
        skipLF := true;
      }
    }
    var size;
    line, size, tooLarge := TakeLine(fragments, chunk[start..index], fragmentSize, eventSize, limits);
    nextSize := if line == "" then 0 else eventSize + size;
    if tooLarge {
      Overflow(goal, lines, pending, piece, rest, fragmentSize, eventSize, limits);
    } else {
      Deliver(goal, lines, pending, piece, rest, fragmentSize, eventSize, limits, nextSize);
    }
  }

  /** The decoder's variables between two chunks. */
  datatype LineState = LineState(fragments: seq<string>, skipLF: bool, fragmentSize: nat, eventSize: nat)

  /** The loop invariant over a state: `rest` is the text of the chunks still to come. */
  ghost predicate Consistent(s: LineState, goal: Decoded, lines: seq<string>, rest: string, limits: Limits) {
    && (s.fragments == [] <==> Flatten(s.fragments) == "")
    && (s.skipLF ==> s.fragments == [])
    && (Metered(limits) ==> !TooLarge(s.fragmentSize, s.eventSize, limits))
    && Decoding(goal, lines, Flatten(s.fragments), Remaining(rest, s.skipLF), s.fragmentSize, s.eventSize, limits)
  }

  /** Keeps the unfinished end of a chunk as one more fragment, without rescanning the earlier ones. */
  method KeepTail(s: LineState, tail: string, limits: Limits,
                  ghost goal: Decoded, ghost lines: seq<string>, ghost later: string)
    returns (s': LineState, tooLarge: bool)
    requires Consistent(s, goal, lines, tail + later, limits) && !s.skipLF && tail != "" && BreakFree(tail)
    ensures tooLarge ==> goal == Decoded(lines, true)
    ensures !tooLarge ==> Consistent(s', goal, lines, later, limits)
  {
    ByteSizeAppend(Flatten(s.fragments), tail);
    FlattenAppend(s.fragments, tail);
    var size;
    size, tooLarge := Measure(tail, s.fragmentSize, s.eventSize, limits);
    s' := LineState(s.fragments + [tail], false, size, s.eventSize);
    if tooLarge {
      Overflow(goal, lines, Flatten(s.fragments), tail, later, s.fragmentSize, s.eventSize, limits);
    } else {
      Postpone(goal, lines, Flatten(s.fragments), tail, later, s.fragmentSize, s.eventSize, limits);
    }
  }

  method DecodeChunk(s: LineState, chunk: string, limits: Limits,
                     ghost goal: Decoded, ghost before: seq<string>, ghost later: string)
    returns (s': LineState, lines: seq<string>, tooLarge: bool)
    requires Consistent(s, goal, before, chunk + later, limits)
    ensures tooLarge ==> goal == Decoded(before + lines, true)
    ensures !tooLarge ==> Consistent(s', goal, before + lines, later, limits)
  {
    hide SplitLines, Bounded, ByteSize, Then;
    s', lines, tooLarge := s, [], false;
    var start := 0;
    Resume(chunk, later, s.skipLF);
    if s.skipLF && |chunk| > 0 {
      if chunk[0] == '\n' { start := 1; }
      s' := s.(skipLF := false);
    }
    assert before + lines == before;
    var index := start;
    while index < |chunk|
      invariant 0 <= start <= index <= |chunk|
      invariant s'.skipLF ==> start == |chunk|
      invariant forall i | start <= i < index :: !IsBreak(chunk[i])
      invariant Consistent(s', goal, before + lines, chunk[start..] + later, limits)
    {
      if chunk[index] != '\n' && chunk[index] != '\r' {
        index := index + 1;
      } else {
        var line, skipLF, eventSize;
        line, start, skipLF, eventSize, tooLarge :=
          EndLine(chunk, start, index, s'.fragments, s'.fragmentSize, s'.eventSize, limits, goal, before + lines, later);
        if tooLarge {
          return;
        }
        assert before + lines + [line] == before + (lines + [line]);
        s', lines, index := LineState([], skipLF, 0, eventSize), lines + [line], start;
      }
    }
    if start < |chunk| {
      s', tooLarge := KeepTail(s', chunk[start..], limits, goal, before + lines, later);
    } else {
      assert chunk[start..] + later == later;
    }
  }

  /** Decoding chunk by chunk gives the lines of the whole text, up to the first line over budget. */
  method DecodeLines(chunks: seq<string>, limits: Limits) returns (lines: seq<string>, tooLarge: bool)
    ensures Decoded(lines, tooLarge) == Bounded(SplitLines(Flatten(chunks)), 0, limits)
  {
    ghost var goal := Bounded(SplitLines(Flatten(chunks)), 0, limits);
    lines, tooLarge := [], false;
    var s := LineState([], false, 0, 0);
    var c := 0;
    assert "" + Flatten(chunks) == Flatten(chunks);
    while c < |chunks|
      invariant 0 <= c <= |chunks|
      invariant Consistent(s, goal, lines, Flatten(chunks[c..]), limits)
    {
      assert Flatten(chunks[c..]) == chunks[c] + Flatten(chunks[c + 1..]);
      var more;
      s, more, tooLarge := DecodeChunk(s, chunks[c], limits, goal, lines, Flatten(chunks[c + 1..]));
      lines := lines + more;
      if tooLarge {
        return;
      }
      c := c + 1;
    }
    if |s.fragments| > 0 {
      LastLine(goal, lines, Flatten(s.fragments), s.fragmentSize, s.eventSize, limits);
      lines := lines + [Flatten(s.fragments)];
    }
  }
}
