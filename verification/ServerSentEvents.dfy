/** Server-sent events: the list-and-join decoder against section 9.2.6 of the WHATWG HTML Living Standard. */
module ServerSentEvents {
  import opened Collections
  import opened StreamingLines

  datatype Event = Event(data: string, event: string, id: string, retry: Option<nat>)

  // ---------- Reference: the standard's buffers ----------

  /** The data, event type and last event ID buffers, and the reconnection time. */
  datatype Buffers = Buffers(data: string, eventType: string, lastEventId: string, reconnection: Option<nat>)

  function FirstColon(line: string): (i: nat)
    ensures i <= |line| && (i < |line| ==> line[i] == ':') && forall k | 0 <= k < i :: line[k] != ':'
  {
    if line == "" || line[0] == ':' then 0 else 1 + FirstColon(line[1..])
  }

  predicate AllDigits(s: string) {
    s != "" && forall i | 0 <= i < |s| :: '0' <= s[i] <= '9'
  }

  function Decimal(s: string): nat
    requires forall i | 0 <= i < |s| :: '0' <= s[i] <= '9'
  {
    if s == "" then 0 else 10 * Decimal(s[..|s| - 1]) + (s[|s| - 1] as int - '0' as int)
  }

  function FieldName(line: string): string {
    line[..FirstColon(line)]
  }

  function FieldValue(line: string): string {
    var i := FirstColon(line);
    if i == |line| then ""
    else if i + 1 < |line| && line[i + 1] == ' ' then line[i + 2..]
    else line[i + 1..]
  }

  /** Processing one field. With a `cap`, reconnection times above it are ignored; the standard has none. */
  function ProcessField(b: Buffers, field: string, value: string, cap: Option<nat>): Buffers {
    if field == "event" then b.(eventType := value)
    else if field == "data" then b.(data := b.data + value + "\n")
    else if field == "id" then if '\0' in value then b else b.(lastEventId := value)
    else if field == "retry" && AllDigits(value) && (cap.Some? ==> Decimal(value) <= cap.value) then
      b.(reconnection := Some(Decimal(value)))
    else b
  }

  /** Dispatching: an empty data buffer gives no event; otherwise one final LF is stripped from it. */
  function Dispatch(b: Buffers): seq<Event> {
    if b.data == "" then []
    else
      var last := |b.data| - 1;
      var data := if b.data[last] == '\n' then b.data[..last] else b.data;
      [Event(data, if b.eventType == "" then "message" else b.eventType, b.lastEventId, b.reconnection)]
  }

  function EventsOf(lines: seq<string>, b: Buffers, cap: Option<nat>): seq<Event> {
    if lines == [] then []
    else if lines[0] == "" then Dispatch(b) + EventsOf(lines[1..], b.(data := "", eventType := ""), cap)
    else if lines[0][0] == ':' then EventsOf(lines[1..], b, cap)
    else EventsOf(lines[1..], ProcessField(b, FieldName(lines[0]), FieldValue(lines[0]), cap), cap)
  }

  function StandardEvents(lines: seq<string>, b: Buffers): seq<Event> {
    EventsOf(lines, b, None)
  }

  // ---------- The decoder ----------

  function Join(pieces: seq<string>): string {
    if pieces == [] then "" else if |pieces| == 1 then pieces[0] else pieces[0] + "\n" + Join(pieces[1..])
  }

  /** The standard's data buffer for a list of data values. */
  function DataBuffer(pieces: seq<string>): string {
    if pieces == [] then "" else pieces[0] + "\n" + DataBuffer(pieces[1..])
  }

  lemma {:induction false} DataBufferAppend(pieces: seq<string>, value: string)
    ensures DataBuffer(pieces + [value]) == DataBuffer(pieces) + value + "\n"
  {
    if pieces == [] {
      assert pieces + [value] == [value];
      assert DataBuffer([value]) == value + "\n" + "";
    } else {
      DataBufferAppend(pieces[1..], value);
      assert (pieces + [value])[1..] == pieces[1..] + [value];
      assert pieces[0] + "\n" + (DataBuffer(pieces[1..]) + value + "\n")
          == pieces[0] + "\n" + DataBuffer(pieces[1..]) + value + "\n";
    }
  }

  /** Joining the list with LF is the standard's buffer without its final LF. */
  lemma {:induction false} JoinIsStrippedBuffer(pieces: seq<string>)
    requires pieces != []
    ensures DataBuffer(pieces) == Join(pieces) + "\n"
  {
    if |pieces| == 1 {
      assert DataBuffer(pieces) == pieces[0] + "\n" + "";
    } else {
      JoinIsStrippedBuffer(pieces[1..]);
    }
  }

  /** What the decoder holds between two lines, read as the standard's buffers. */
  ghost function AsBuffers(data: seq<string>, event: string, lastEventId: string, retry: Option<nat>): Buffers {
    Buffers(DataBuffer(data), event, lastEventId, retry)
  }

  lemma DispatchList(data: seq<string>, event: string, lastEventId: string, retry: Option<nat>)
    ensures Dispatch(AsBuffers(data, event, lastEventId, retry))
            == if data == [] then []
               else [Event(Join(data), if event == "" then "message" else event, lastEventId, retry)]
  {
    if data != [] {
      JoinIsStrippedBuffer(data);
      assert (Join(data) + "\n")[..|Join(data)|] == Join(data);
    }
  }

  /** Splits a line at its first colon and drops one space after it. */
  method ReadField(line: string) returns (field: string, value: string)
    ensures field == FieldName(line) && value == FieldValue(line)
  {
    var separator := FirstColon(line);
    field := line[..separator];
    value := if separator == |line| then "" else line[separator + 1..];
    if value != "" && value[0] == ' ' {
      value := value[1..];
    }
  }

  // ---------- Where the decoder and the standard agree ----------

  /** What the standard's event carries: data, type and last event ID. */
  function Contents(events: seq<Event>): (c: seq<Event>)
    ensures |c| == |events| && forall i | 0 <= i < |c| :: c[i] == events[i].(retry := None)
  {
    seq(|events|, i requires 0 <= i < |events| => events[i].(retry := None))
  }

  lemma ContentsAppend(a: seq<Event>, b: seq<Event>)
    ensures Contents(a + b) == Contents(a) + Contents(b)
  {
  }

  predicate Safe(retry: Option<nat>) {
    retry.Some? ==> retry.value <= MAX_SAFE_INTEGER
  }

  /** The two buffers differ in the reconnection time at most. */
  ghost predicate SameBuffers(b: Buffers, c: Buffers) {
    c == b.(reconnection := c.reconnection)
  }

  lemma ProcessSame(b: Buffers, c: Buffers, field: string, value: string, cap: Option<nat>)
    requires SameBuffers(b, c)
    ensures SameBuffers(ProcessField(b, field, value, None), ProcessField(c, field, value, cap))
  {
  }

  /** Data, type and ID of all events are the standard's, whatever reconnection times are sent. */
  lemma {:induction false} ContentsAgree(lines: seq<string>, b: Buffers, c: Buffers)
    requires SameBuffers(b, c)
    ensures Contents(EventsOf(lines, c, Some(MAX_SAFE_INTEGER))) == Contents(StandardEvents(lines, b))
  {
    if lines != [] {
      var rest := lines[1..];
      if lines[0] == "" {
        var b', c' := b.(data := "", eventType := ""), c.(data := "", eventType := "");
        ContentsAgree(rest, b', c');
        ContentsAppend(Dispatch(b), StandardEvents(rest, b'));
        ContentsAppend(Dispatch(c), EventsOf(rest, c', Some(MAX_SAFE_INTEGER)));
        assert Contents(Dispatch(b)) == Contents(Dispatch(c));
      } else if lines[0][0] == ':' {
        ContentsAgree(rest, b, c);
      } else {
        var field, value := FieldName(lines[0]), FieldValue(lines[0]);
        ProcessSame(b, c, field, value, Some(MAX_SAFE_INTEGER));
        ContentsAgree(rest, ProcessField(b, field, value, None), ProcessField(c, field, value, Some(MAX_SAFE_INTEGER)));
      }
    }
  }

  /** The reconnection time a line sets by the standard. */
  function RetryOf(line: string): Option<nat> {
    if line != "" && line[0] != ':' && FieldName(line) == "retry" && AllDigits(FieldValue(line))
    then Some(Decimal(FieldValue(line))) else None
  }

  predicate IsData(line: string) {
    line != "" && line[0] != ':' && FieldName(line) == "data"
  }

  /** Whether an event is dispatched while the last digits-only `retry` line before it is no safe integer; `last` is
      that line's number so far, and `data` tells that a data line has come since the last blank line. */
  predicate OversizedDispatch(lines: seq<string>, last: Option<nat>, data: bool) {
    if lines == [] then false
    else if lines[0] == "" then (data && !Safe(last)) || OversizedDispatch(lines[1..], last, false)
    else
      OversizedDispatch(lines[1..], if RetryOf(lines[0]).Some? then RetryOf(lines[0]) else last, data || IsData(lines[0]))
  }

  /** What the standard (`b`) and the decoder (`c`) hold after the same lines. */
  ghost predicate Diverged(b: Buffers, c: Buffers, last: Option<nat>, data: bool) {
    && SameBuffers(b, c) && Safe(c.reconnection) && (data <==> b.data != "")
    && if Safe(last) then b.reconnection == c.reconnection else b.reconnection == last
  }

  lemma ProcessDiverged(b: Buffers, c: Buffers, last: Option<nat>, data: bool, line: string)
    requires Diverged(b, c, last, data) && line != "" && line[0] != ':'
    ensures Diverged(ProcessField(b, FieldName(line), FieldValue(line), None),
                     ProcessField(c, FieldName(line), FieldValue(line), Some(MAX_SAFE_INTEGER)),
                     if RetryOf(line).Some? then RetryOf(line) else last, data || IsData(line))
  {
    hide FieldName, FieldValue, Decimal, AllDigits;
  }

  lemma {:induction false} EventsAgreeExactly(lines: seq<string>, b: Buffers, c: Buffers, last: Option<nat>, data: bool)
    requires Diverged(b, c, last, data)
    ensures EventsOf(lines, c, Some(MAX_SAFE_INTEGER)) == StandardEvents(lines, b) <==> !OversizedDispatch(lines, last, data)
  {
    if lines != [] {
      var rest := lines[1..];
      if lines[0] == "" {
        var b', c' := b.(data := "", eventType := ""), c.(data := "", eventType := "");
        EventsAgreeExactly(rest, b', c', last, false);
        var x, y := StandardEvents(rest, b'), EventsOf(rest, c', Some(MAX_SAFE_INTEGER));
        assert |Dispatch(b)| == |Dispatch(c)| == if data then 1 else 0;
        assert (Dispatch(b) + x)[|Dispatch(b)|..] == x && (Dispatch(c) + y)[|Dispatch(c)|..] == y;
        assert data ==> (Dispatch(b) + x)[0] == Dispatch(b)[0] && (Dispatch(c) + y)[0] == Dispatch(c)[0];
      } else if lines[0][0] == ':' {
        EventsAgreeExactly(rest, b, c, last, data);
      } else {
        var field, value := FieldName(lines[0]), FieldValue(lines[0]);
        ProcessDiverged(b, c, last, data, lines[0]);
        EventsAgreeExactly(rest, ProcessField(b, field, value, None),
                           ProcessField(c, field, value, Some(MAX_SAFE_INTEGER)),
                           if RetryOf(lines[0]).Some? then RetryOf(lines[0]) else last, data || IsData(lines[0]));
      }
    }
  }

  /** From a safe reconnection time, or none, the decoder's events are the standard's in full if and only if no event
      is dispatched while the last digits-only `retry` line before it is no safe integer. */
  lemma FullEventsExactly(lines: seq<string>, id: string, retry: Option<nat>)
    ensures var b := Buffers("", "", id, retry);
            Safe(retry) ==>
              (EventsOf(lines, b, Some(MAX_SAFE_INTEGER)) == StandardEvents(lines, b)
               <==> !OversizedDispatch(lines, None, false))
  {
    if Safe(retry) {
      var b := Buffers("", "", id, retry);
      EventsAgreeExactly(lines, b, b, None, false);
    }
  }

  lemma DecimalMore(s: string, last: char, longer: string)
    requires AllDigits(s) && '0' <= last <= '9' && longer == s + [last]
    ensures AllDigits(longer) && Decimal(longer) == 10 * Decimal(s) + (last as int - '0' as int)
  {
    assert longer[..|longer| - 1] == s;
  }

  lemma FirstDigits()
    ensures AllDigits("900719") && Decimal("900719") == 900719
  {
    assert "9"[..0] == "" && Decimal("9") == 9 && AllDigits("9");
    hide Decimal, AllDigits;
    DecimalMore("9", '0', "90");
    DecimalMore("90", '0', "900");
    DecimalMore("900", '7', "9007");
    DecimalMore("9007", '1', "90071");
    DecimalMore("90071", '9', "900719");
  }

  lemma MoreDigits()
    ensures AllDigits("90071992547") && Decimal("90071992547") == 90071992547
  {
    hide Decimal, AllDigits;
    FirstDigits();
    DecimalMore("900719", '9', "9007199");
    DecimalMore("9007199", '2', "90071992");
    DecimalMore("90071992", '5', "900719925");
    DecimalMore("900719925", '4', "9007199254");
    DecimalMore("9007199254", '7', "90071992547");
  }

  lemma SmallestIgnored()
    ensures AllDigits("9007199254740992") && Decimal("9007199254740992") == MAX_SAFE_INTEGER + 1
  {
    hide Decimal, AllDigits;
    MoreDigits();
    DecimalMore("90071992547", '4', "900719925474");
    DecimalMore("900719925474", '0', "9007199254740");
    DecimalMore("9007199254740", '9', "90071992547409");
    DecimalMore("90071992547409", '9', "900719925474099");
    DecimalMore("900719925474099", '2', "9007199254740992");
  }

  lemma FieldOf(line: string, field: string, value: string)
    requires line == field + ": " + value && forall i | 0 <= i < |field| :: field[i] != ':'
    ensures FieldName(line) == field && FieldValue(line) == value
  {
    assert line[|field|] == ':' && FirstColon(line) == |field|;
  }

  /** The smallest reconnection time the decoder ignores: the standard's event carries it, the decoder's does not. */
  lemma OversizedRetryIgnored()
    ensures var lines, b := SplitLines("retry: 9007199254740992\ndata: x\n\n"), Buffers("", "", "", None);
            && StandardEvents(lines, b) == [Event("x", "message", "", Some(MAX_SAFE_INTEGER + 1))]
            && EventsOf(lines, b, Some(MAX_SAFE_INTEGER)) == [Event("x", "message", "", None)]
  {
    SplitExample();
    SmallestIgnored();
    RetryExample();
    DataExample();
    hide SplitLines, EventsOf, Decimal, AllDigits, FieldName, FieldValue, IsRetry, IsDataLine;
    BothEvents("retry: 9007199254740992", "9007199254740992", "data: x", "x");
  }

  lemma BothEvents(first: string, digits: string, second: string, data: string)
    requires IsRetry(first, digits) && AllDigits(digits) && Decimal(digits) > MAX_SAFE_INTEGER && IsDataLine(second, data)
    ensures var lines, b := [first, second, ""], Buffers("", "", "", None);
            && StandardEvents(lines, b) == [Event(data, "message", "", Some(Decimal(digits)))]
            && EventsOf(lines, b, Some(MAX_SAFE_INTEGER)) == [Event(data, "message", "", None)]
  {
    hide EventsOf, Decimal, AllDigits, FieldName, FieldValue;
    OneEvent(first, second, None);
    OneEvent(first, second, Some(MAX_SAFE_INTEGER));
  }

  lemma RetryExample()
    ensures IsRetry("retry: 9007199254740992", "9007199254740992")
  {
    assert "retry" + ": " == "retry: " && "retry: " + "9007199254740992" == "retry: 9007199254740992";
    hide FieldName, FieldValue;
    FieldOf("retry: 9007199254740992", "retry", "9007199254740992");
  }

  lemma DataExample()
    ensures IsDataLine("data: x", "x")
  {
    assert "data" + ": " == "data: " && "data: " + "x" == "data: x";
    hide FieldName, FieldValue;
    FieldOf("data: x", "data", "x");
  }

  ghost predicate IsRetry(line: string, value: string) {
    line != "" && line[0] != ':' && FieldName(line) == "retry" && FieldValue(line) == value
  }

  ghost predicate IsDataLine(line: string, value: string) {
    line != "" && line[0] != ':' && FieldName(line) == "data" && FieldValue(line) == value
  }

  lemma SplitExample()
    ensures SplitLines("retry: 9007199254740992\ndata: x\n\n") == ["retry: 9007199254740992", "data: x", ""]
  {
    ExampleText();
    SplitThree("retry: 9007199254740992", "data: x");
    hide SplitLines;
  }

  lemma ExampleText()
    ensures "retry: 9007199254740992" + "\n" + ("data: x" + "\n" + "\n") == "retry: 9007199254740992\ndata: x\n\n"
  {
    assert "data: x" + "\n" + "\n" == "data: x\n\n";
    assert "retry: 9007199254740992" + "\n" == "retry: 9007199254740992\n";
  }

  lemma SplitThree(first: string, second: string)
    requires BreakFree(first) && BreakFree(second)
    ensures SplitLines(first + "\n" + (second + "\n" + "\n")) == [first, second, ""]
  {
    var lines, ends := [first, second, ""], [LF, LF, LF];
    assert JoinLines(lines[2..], ends[2..], "") == "\n" by {
      assert lines[2..] == [""] && ends[2..] == [LF] && lines[2..][1..] == [] && ends[2..][1..] == [];
    }
    assert lines[1..][1..] == lines[2..] && ends[1..][1..] == ends[2..];
    assert JoinLines(lines, ends, "") == first + "\n" + (second + "\n" + "\n");
    SplitJoined(lines, ends, "");
    hide SplitLines, JoinLines, BreakFree;
  }

  /** A `retry` line, a data line and a blank one. */
  lemma OneEvent(first: string, second: string, cap: Option<nat>)
    requires first != "" && first[0] != ':' && FieldName(first) == "retry" && AllDigits(FieldValue(first))
    requires second != "" && second[0] != ':' && FieldName(second) == "data"
    ensures EventsOf([first, second, ""], Buffers("", "", "", None), cap)
         == [Event(FieldValue(second), "message", "",
                   if cap.Some? && Decimal(FieldValue(first)) > cap.value then None else Some(Decimal(FieldValue(first))))]
  {
    hide FieldName, FieldValue, Decimal, AllDigits;
    var lines, b := [first, second, ""], ProcessField(Buffers("", "", "", None), "retry", FieldValue(first), cap);
    assert lines[1..][1..] == [""] && [""][1..] == [];
    assert lines[1..] == [second, ""];
    var c := b.(data := FieldValue(second) + "\n");
    assert "" + FieldValue(second) + "\n" == FieldValue(second) + "\n";
    assert c.data[..|c.data| - 1] == FieldValue(second);
    assert EventsOf([""], c, cap) == Dispatch(c);
  }

  /** What the decoder's events are, compared with the standard's. */
  ghost predicate Decodes(events: seq<Event>, lines: seq<string>, id: string, retry: Option<nat>) {
    var b := Buffers("", "", id, retry);
    && events == EventsOf(lines, b, Some(MAX_SAFE_INTEGER))
    && Contents(events) == Contents(StandardEvents(lines, b))
    && (Safe(retry) ==> (events == StandardEvents(lines, b) <==> !OversizedDispatch(lines, None, false)))
  }

  method DecodeServerSentEvents(chunks: seq<string>, limits: Limits, initialId: string, initialRetry: Option<nat>)
    returns (events: seq<Event>, tooLarge: bool)
    ensures var text := Bounded(SplitLines(Flatten(chunks)), 0, limits);
            tooLarge == text.tooLarge && Decodes(events, text.lines, initialId, initialRetry)
  {
    hide SplitLines, Bounded, Flatten, EventsOf, Contents, OversizedDispatch, Safe;
    var lines;
    lines, tooLarge := DecodeLines(chunks, limits);
    events := DecodeFields(lines, initialId, initialRetry);
    ghost var start := Buffers("", "", initialId, initialRetry);
    ContentsAgree(lines, start, start);
    FullEventsExactly(lines, initialId, initialRetry);
  }

  method DecodeFields(lines: seq<string>, initialId: string, initialRetry: Option<nat>) returns (events: seq<Event>)
    ensures events == EventsOf(lines, Buffers("", "", initialId, initialRetry), Some(MAX_SAFE_INTEGER))
  {
    assert DataBuffer([]) == "";
    hide Dispatch, Join, DataBuffer, Decimal, FieldName, FieldValue;
    var data: seq<string>, event, lastEventId, retry := [], "", initialId, initialRetry;
    events := [];
    ghost var goal := EventsOf(lines, Buffers("", "", initialId, initialRetry), Some(MAX_SAFE_INTEGER));
    var i := 0;
    while i < |lines|
      invariant 0 <= i <= |lines|
      invariant goal == events + EventsOf(lines[i..], AsBuffers(data, event, lastEventId, retry), Some(MAX_SAFE_INTEGER))
    {
      var line := lines[i];
      assert lines[i..][0] == line && lines[i..][1..] == lines[i + 1..];
      i := i + 1;
      if line == "" {
        DispatchList(data, event, lastEventId, retry);
        if |data| > 0 {
          events := events + [Event(Join(data), if event == "" then "message" else event, lastEventId, retry)];
        }
        data, event := [], "";
        continue;
      }
      if line[0] == ':' {
        continue;
      }
      var field, value := ReadField(line);
      match field {
        case "data" =>
          DataBufferAppend(data, value);
          data := data + [value];
        case "event" =>
          event := value;
        case "id" =>
          if '\0' !in value { lastEventId := value; }
        case "retry" =>
          if AllDigits(value) {
            var milliseconds := Decimal(value);
            if milliseconds <= MAX_SAFE_INTEGER { retry := Some(milliseconds); }
          }
        case _ =>
      }
    }
  }
}
