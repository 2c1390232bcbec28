/** Server-sent events as they are sent: whatever messages a server encodes, the decoder gives them back. */
module SentEvents {
  import opened Collections
  import opened StreamingLines
  import opened ServerSentEvents

  /** An event type, a last event ID, and the lines of the data. */
  datatype Message = Message(event: string, id: string, data: seq<string>)

  /** What a message may hold: no line breaks anywhere, no NUL in the ID, and some data. */
  ghost predicate Sendable(m: Message) {
    && BreakFree(m.event) && BreakFree(m.id) && '\0' !in m.id && m.data != []
    && forall i | 0 <= i < |m.data| :: BreakFree(m.data[i])
  }

  function Line(field: string, value: string): string {
    field + ": " + value
  }

  function DataLines(data: seq<string>): seq<string> {
    if data == [] then [] else [Line("data", data[0])] + DataLines(data[1..])
  }

  /** The lines of a message, with a comment before them. */
  function LinesOf(m: Message, comment: string): seq<string> {
    [":" + comment, Line("event", m.event), Line("id", m.id)] + DataLines(m.data) + [""]
  }

  function LinesOfAll(messages: seq<Message>, comment: string): seq<string> {
    if messages == [] then [] else LinesOf(messages[0], comment) + LinesOfAll(messages[1..], comment)
  }

  /** The event that a message means. */
  function Meant(m: Message, retry: Option<nat>): Event {
    Event(Join(m.data), if m.event == "" then "message" else m.event, m.id, retry)
  }

  function MeantAll(messages: seq<Message>, retry: Option<nat>): seq<Event> {
    if messages == [] then [] else [Meant(messages[0], retry)] + MeantAll(messages[1..], retry)
  }

  // ---------- One field ----------

  lemma FieldRead(line: string, field: string, value: string, rest: seq<string>, b: Buffers, cap: Option<nat>)
    requires field != "" && line == Line(field, value) && forall i | 0 <= i < |field| :: field[i] != ':'
    ensures EventsOf([line] + rest, b, cap) == EventsOf(rest, ProcessField(b, field, value, cap), cap)
  {
    FieldOf(line, field, value);
    assert line[0] == field[0];
    assert ([line] + rest)[0] == line && ([line] + rest)[1..] == rest;
    hide FieldName, FieldValue, ProcessField;
  }

  lemma CommentRead(comment: string, rest: seq<string>, b: Buffers, cap: Option<nat>)
    ensures EventsOf([":" + comment] + rest, b, cap) == EventsOf(rest, b, cap)
  {
    var line := ":" + comment;
    assert line[0] == ':' && ([line] + rest)[0] == line && ([line] + rest)[1..] == rest;
    hide FieldName, FieldValue, ProcessField;
  }

  lemma EventField(b: Buffers, value: string, cap: Option<nat>)
    ensures ProcessField(b, "event", value, cap) == b.(eventType := value)
  {
  }

  lemma IdField(b: Buffers, value: string, cap: Option<nat>)
    requires '\0' !in value
    ensures ProcessField(b, "id", value, cap) == b.(lastEventId := value)
  {
  }

  /** An ID with a NUL is ignored, and so is a field of any other name. */
  lemma IgnoredField(b: Buffers, field: string, value: string, cap: Option<nat>)
    requires if field == "id" then '\0' in value else field != "event" && field != "data" && field != "retry"
    ensures ProcessField(b, field, value, cap) == b
  {
  }

  lemma DataField(b: Buffers, value: string, cap: Option<nat>)
    ensures ProcessField(b, "data", value, cap) == b.(data := b.data + value + "\n")
  {
  }

  lemma {:induction false} DataRead(data: seq<string>, rest: seq<string>, b: Buffers, cap: Option<nat>)
    ensures EventsOf(DataLines(data) + rest, b, cap) == EventsOf(rest, b.(data := b.data + DataBuffer(data)), cap)
  {
    hide EventsOf, ProcessField, Line, DataBuffer;
    if data == [] {
      NoData();
      assert DataLines(data) + rest == rest && b.data + "" == b.data;
    } else {
      var next := b.(data := b.data + data[0] + "\n");
      assert DataLines(data) + rest == [Line("data", data[0])] + (DataLines(data[1..]) + rest);
      OneDataRead(data[0], DataLines(data[1..]) + rest, b, cap);
      DataRead(data[1..], rest, next, cap);
      BufferOn(b.data, data);
    }
  }

  lemma NoData()
    ensures DataBuffer([]) == ""
  {
  }

  lemma OneDataRead(value: string, rest: seq<string>, b: Buffers, cap: Option<nat>)
    ensures EventsOf([Line("data", value)] + rest, b, cap) == EventsOf(rest, b.(data := b.data + value + "\n"), cap)
  {
    hide EventsOf, ProcessField, Line;
    FieldRead(Line("data", value), "data", value, rest, b, cap);
    DataField(b, value, cap);
  }

  lemma BufferOn(before: string, data: seq<string>)
    requires data != []
    ensures before + data[0] + "\n" + DataBuffer(data[1..]) == before + DataBuffer(data)
  {
  }

  // ---------- One message, all messages ----------

  lemma MessageRead(m: Message, comment: string, rest: seq<string>, b: Buffers, cap: Option<nat>)
    requires Sendable(m) && b.data == ""
    ensures EventsOf(LinesOf(m, comment) + rest, b, cap)
         == [Meant(m, b.reconnection)] + EventsOf(rest, Buffers("", "", m.id, b.reconnection), cap)
  {
    hide EventsOf, ProcessField, Line, Dispatch, Join, DataBuffer, DataLines;
    var lines := DataLines(m.data) + ([""] + rest);
    var l1, l2, l3 := ":" + comment, Line("event", m.event), Line("id", m.id);
    assert LinesOf(m, comment) + rest == [l1] + ([l2] + ([l3] + lines));
    CommentRead(comment, [l2] + ([l3] + lines), b, cap);
    FieldRead(l2, "event", m.event, [l3] + lines, b, cap);
    EventField(b, m.event, cap);
    var b2 := b.(eventType := m.event);
    FieldRead(l3, "id", m.id, lines, b2, cap);
    IdField(b2, m.id, cap);
    var b3 := b2.(lastEventId := m.id);
    DataRead(m.data, [""] + rest, b3, cap);
    assert "" + DataBuffer(m.data) == DataBuffer(m.data);
    BlankRead(m, rest, b3.(data := DataBuffer(m.data)), cap);
  }

  lemma BlankRead(m: Message, rest: seq<string>, b: Buffers, cap: Option<nat>)
    requires m.data != [] && b == Buffers(DataBuffer(m.data), m.event, m.id, b.reconnection)
    ensures EventsOf([""] + rest, b, cap)
         == [Meant(m, b.reconnection)] + EventsOf(rest, Buffers("", "", m.id, b.reconnection), cap)
  {
    DispatchList(m.data, m.event, m.id, b.reconnection);
    assert ([""] + rest)[0] == "" && ([""] + rest)[1..] == rest;
    assert EventsOf([""] + rest, b, cap) == Dispatch(b) + EventsOf(rest, b.(data := "", eventType := ""), cap);
    hide EventsOf, Dispatch, Join, DataBuffer;
  }

  /** The lines of any messages are decoded to these messages, in order; comments between them change nothing. */
  lemma {:induction false} LinesGivenBack(messages: seq<Message>, comment: string, id: string, retry: Option<nat>,
                                          cap: Option<nat>)
    requires forall i | 0 <= i < |messages| :: Sendable(messages[i])
    ensures EventsOf(LinesOfAll(messages, comment), Buffers("", "", id, retry), cap) == MeantAll(messages, retry)
  {
    hide EventsOf, LinesOf, Sendable, Meant;
    if messages == [] {
      NoLines(Buffers("", "", id, retry), cap);
    } else {
      MessageRead(messages[0], comment, LinesOfAll(messages[1..], comment), Buffers("", "", id, retry), cap);
      LinesGivenBack(messages[1..], comment, messages[0].id, retry, cap);
    }
  }

  lemma NoLines(b: Buffers, cap: Option<nat>)
    ensures EventsOf([], b, cap) == []
  {
  }

  // ---------- As text ----------

  lemma LineBreakFree(field: string, value: string)
    requires BreakFree(field) && BreakFree(value)
    ensures BreakFree(Line(field, value))
  {
  }

  lemma {:induction false} DataBreakFree(data: seq<string>)
    requires forall i | 0 <= i < |data| :: BreakFree(data[i])
    ensures AllBreakFree(DataLines(data))
  {
    if data != [] {
      LineBreakFree("data", data[0]);
      DataBreakFree(data[1..]);
    }
    hide Line, BreakFree;
  }

  lemma {:induction false} LinesBreakFree(messages: seq<Message>, comment: string)
    requires BreakFree(comment) && forall i | 0 <= i < |messages| :: Sendable(messages[i])
    ensures AllBreakFree(LinesOfAll(messages, comment))
  {
    if messages != [] {
      var m := messages[0];
      LineBreakFree("event", m.event);
      LineBreakFree("id", m.id);
      DataBreakFree(m.data);
      LinesBreakFree(messages[1..], comment);
      assert BreakFree(":" + comment);
    }
    hide Line, DataLines;
  }

  /** A text of encoded messages, its lines ended by LF, CR or CR LF, is decoded to these messages, in order. */
  lemma MessagesGivenBack(messages: seq<Message>, comment: string, ends: seq<LineEnd>, id: string, retry: Option<nat>)
    requires BreakFree(comment) && forall i | 0 <= i < |messages| :: Sendable(messages[i])
    requires |ends| == |LinesOfAll(messages, comment)| && NothingMerges(LinesOfAll(messages, comment), ends)
    ensures var text := JoinLines(LinesOfAll(messages, comment), ends, "");
            EventsOf(SplitLines(text), Buffers("", "", id, retry), Some(MAX_SAFE_INTEGER)) == MeantAll(messages, retry)
  {
    hide EventsOf, SplitLines, JoinLines, LinesOfAll, MeantAll, NothingMerges, Sendable;
    var lines := LinesOfAll(messages, comment);
    LinesBreakFree(messages, comment);
    SplitJoined(lines, ends, "");
    assert lines + [] == lines;
    LinesGivenBack(messages, comment, id, retry, Some(MAX_SAFE_INTEGER));
  }
}
