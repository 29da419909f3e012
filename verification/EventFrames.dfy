/**
 The realtime wire format: writeSSEEvent and the heartbeat (internal/realtimestream/server.go)
 against parseStream and parseSSEEvent (client.go), in the event-stream format of sections
 9.2.5 and 9.2.6 of the WHATWG HTML standard. Characters stand for bytes.

 The JSON envelope is a pair of functions: `decode` gives back every encoded event with its
 payload normalised, and an encoding is one nonempty line.
 */
module EventFrames {
  import opened Options
  import opened Decimal

  datatype Event = Event(num: int, epoch: string, kind: string, aggregate: string, payload: string, createdAt: string, committedAt: string)

  datatype Codec = Codec(encode: Event -> string, decode: string -> Option<Event>, normal: Event -> Event)

  /** A line that ReadLine gives back unchanged. */
  predicate LineOk(s: string) {
    '\n' !in s && (s != "" ==> s[|s| - 1] != '\r')
  }

  ghost predicate EncodesOk(c: Codec, e: Event) {
    && c.decode(c.encode(e)) == Some(c.normal(e)) && c.encode(e) != "" && LineOk(c.encode(e))
    && c.normal(e).num == e.num && c.normal(e).epoch == e.epoch && c.normal(e).kind == e.kind
  }

  // ---------------------------------------------------------------- writing

  function IdOf(e: Event): string {
    if e.epoch != "" then e.epoch + ":" + IntText(e.num) else if e.num != 0 then IntText(e.num) else ""
  }

  function FieldLine(name: string, value: string): string { name + ": " + value }

  function IdLine(e: Event): string { if IdOf(e) != "" then FieldLine("id", IdOf(e)) + "\n" else "" }

  function KindLine(e: Event): string { if e.kind != "" then FieldLine("event", e.kind) + "\n" else "" }

  function DataLine(c: Codec, e: Event): string { FieldLine("data", c.encode(e)) + "\n" + "\n" }

  function Frame(c: Codec, e: Event): string {
    IdLine(e) + (KindLine(e) + DataLine(c, e))
  }

  const HEARTBEAT: string := ": heartbeat"

  datatype Item = Send(event: Event) | Heartbeat

  function Written(c: Codec, items: seq<Item>): string {
    if items == [] then "" else
    (match items[0] case Send(e) => Frame(c, e) case Heartbeat => HEARTBEAT + "\n" + "\n") + Written(c, items[1..])
  }

  lemma JoinPieces(w: string, a: string, b: string, c: string)
    ensures w + a + b + c == w + (a + (b + c))
  {
  }

  /** writeSSEEvent, piece by piece. */
  method WriteSSEEvent(c: Codec, w: string, e: Event) returns (out: string)
    ensures out == w + Frame(c, e)
  {
    var id, kind := "", "";
    if e.epoch != "" {
      id := FieldLine("id", e.epoch + ":" + IntText(e.num)) + "\n";
    } else if e.num != 0 {
      IntTextNonempty(e.num);
      id := FieldLine("id", IntText(e.num)) + "\n";
    }
    assert id == IdLine(e);
    out := w + id;
    if e.kind != "" { kind := FieldLine("event", e.kind) + "\n"; }
    assert kind == KindLine(e);
    out := out + kind;
    out := out + (FieldLine("data", c.encode(e)) + "\n" + "\n");
    JoinPieces(w, IdLine(e), KindLine(e), DataLine(c, e));
  }

  lemma IntTextNonempty(n: int)
    ensures IntText(n) != "" && (forall i :: 0 <= i < |IntText(n)| ==> IsDigit(IntText(n)[i]) || IntText(n)[i] == '-')
  {
  }

  // ---------------------------------------------------------------- parsing

  /** The pending frame, what was handed to the handler, and the last event id. */
  datatype State = State(id: string, kind: string, data: string, bytes: nat, events: seq<Event>, last: string)

  datatype End = Eof | Broken | TooLarge | HandlerError

  datatype Result = Result(events: seq<Event>, last: string, end: End)

  /** `accepted` is how many events the handler takes; `clean` whether the stream ends in io.EOF. */
  datatype Setup = Setup(codec: Codec, max: nat, accepted: nat, clean: bool)

  predicate Empty(st: State) { st.id == "" && st.kind == "" && st.data == "" && st.bytes == 0 }

  function IndexOf(s: string, c: char): (k: nat)
    ensures k <= |s| && (forall i :: 0 <= i < k ==> s[i] != c) && (k < |s| ==> s[k] == c)
  {
    if s == "" || s[0] == c then 0 else 1 + IndexOf(s[1..], c)
  }

  function Envelope(c: Codec, data: string): Event {
    match c.decode(data) case Some(e) => e case None => Event(0, "", "", "", data, "", "")
  }

  function Numbered(base: Event, id: string): Event {
    var k := IndexOf(id, ':');
    if id == "" then base
    else if k < |id| then
      var e := base.(epoch := id[..k]);
      (match ParseInt64(id[k + 1..]) case Some(n) => e.(num := n) case None => e)
    else (match ParseInt64(id) case Some(n) => base.(num := n) case None => base)
  }

  /** parseSSEEvent: the envelope, overridden by the id and event fields. */
  function ParseSSEEvent(c: Codec, id: string, kind: string, data: string): Event {
    var numbered := Numbered(Envelope(c, data), id);
    if kind != "" then numbered.(kind := kind) else numbered
  }

  datatype Progress = Go(state: State) | Stop(result: Result)

  predicate Pending(st: State) { st.data != "" || st.kind != "" || st.id != "" }

  function Dispatch(s: Setup, st: State): Progress {
    if |st.events| >= s.accepted then Stop(Result(st.events, st.last, HandlerError))
    else Go(State("", "", "", 0, st.events + [ParseSSEEvent(s.codec, st.id, st.kind, st.data)], if st.id != "" then st.id else st.last))
  }

  function Field(st: State, line: string): State {
    var k := IndexOf(line, ':');
    var name := line[..k];
    var value := if k == |line| then "" else if k + 1 < |line| && line[k + 1] == ' ' then line[k + 2..] else line[k + 1..];
    if name == "event" then st.(kind := value)
    else if name == "id" then st.(id := value)
    else if name == "data" then st.(data := (if st.data != "" then st.data + "\n" else "") + value)
    else st
  }

  function Line(s: Setup, st: State, line: string): Progress {
    if |line| > s.max then Stop(Result(st.events, st.last, TooLarge))
    else if line == "" then (if Pending(st) then Dispatch(s, st) else Go(st))
    else if line[0] == ':' then Go(st)
    else if st.bytes + |line| > s.max then Stop(Result(st.events, st.last, TooLarge))
    else Go(Field(st.(bytes := st.bytes + |line|), line))
  }

  /** At io.EOF a pending frame is dispatched; any other error drops it. */
  function AtEnd(s: Setup, st: State): Result {
    if !s.clean then Result(st.events, st.last, Broken)
    else if Pending(st) then
      (var p := Dispatch(s, st); if p.Stop? then p.result else Result(p.state.events, p.state.last, Eof))
    else Result(st.events, st.last, Eof)
  }

  function TrimCR(line: string): string {
    if line != "" && line[|line| - 1] == '\r' then line[..|line| - 1] else line
  }

  /** readBoundedLine: up to the newline, without a carriage return before it; the last line of a
      stream may lack its newline. */
  function FirstLine(input: string): string {
    var k := IndexOf(input, '\n');
    if k < |input| then TrimCR(input[..k]) else input
  }

  function AfterLine(input: string): (rest: string)
    ensures input != "" ==> |rest| < |input|
  {
    var k := IndexOf(input, '\n');
    input[if k < |input| then k + 1 else k..]
  }

  function ParseFrom(s: Setup, st: State, input: string): Result
    decreases |input|
  {
    if input == "" then AtEnd(s, st) else
    var p := Line(s, st, FirstLine(input));
    if p.Stop? then p.result else ParseFrom(s, p.state, AfterLine(input))
  }

  const Start := State("", "", "", 0, [], "")

  /** The loop of parseStream. */
  method ParseStream(s: Setup, last: string, input: string) returns (r: Result)
    ensures r == ParseFrom(s, Start.(last := last), input)
  {
    var st := Start.(last := last);
    var rest := input;
    while rest != ""
      invariant ParseFrom(s, Start.(last := last), input) == ParseFrom(s, st, rest)
      decreases |rest|
    {
      var line := FirstLine(rest);
      var p := Line(s, st, line);
      if p.Stop? { return p.result; }
      st, rest := p.state, AfterLine(rest);
    }
    return AtEnd(s, st);
  }

  // ---------------------------------------------------------------- one line, one frame

  lemma {:induction false} IndexOfIn(a: string, c: char, rest: string)
    requires c !in a
    ensures IndexOf(a + [c] + rest, c) == |a|
    decreases |a|
  {
    var s := a + [c] + rest;
    if a != "" {
      assert s[1..] == a[1..] + [c] + rest;
      IndexOfIn(a[1..], c, rest);
    }
  }

  lemma {:induction false} IndexOfNone(a: string, c: char)
    requires c !in a
    ensures IndexOf(a, c) == |a|
    decreases |a|
  {
    if a != "" { IndexOfNone(a[1..], c); }
  }

  lemma LineEndsAt(line: string, rest: string)
    requires LineOk(line)
    ensures FirstLine(line + "\n" + rest) == line && AfterLine(line + "\n" + rest) == rest
  {
    var input := line + "\n" + rest;
    IndexOfIn(line, '\n', rest);
    assert input[..|line|] == line && input[|line| + 1..] == rest;
  }

  lemma ParseLine(s: Setup, st: State, line: string, rest: string)
    requires LineOk(line)
    ensures var p := Line(s, st, line);
      ParseFrom(s, st, line + "\n" + rest) == if p.Stop? then p.result else ParseFrom(s, p.state, rest)
  {
    LineEndsAt(line, rest);
  }

  lemma FieldIsRead(st: State, name: string, value: string)
    requires ':' !in name
    ensures IndexOf(FieldLine(name, value), ':') == |name|
    ensures FieldLine(name, value)[..|name|] == name
    ensures FieldLine(name, value)[|name| + 1] == ' ' && FieldLine(name, value)[|name| + 2..] == value
  {
    IndexOfIn(name, ':', " " + value);
    assert FieldLine(name, value) == name + ":" + (" " + value);
  }

  /** What a well-formed event needs: a newline-free type, a colon-free epoch, and its three lines
      within the frame limit. */
  ghost predicate Writable(s: Setup, e: Event) {
    && EncodesOk(s.codec, e) && LineOk(e.kind) && ':' !in e.epoch && '\n' !in e.epoch
    && MIN_INT64 <= e.num <= MAX_INT64
    && 4 + |IdOf(e)| + 7 + |e.kind| + 6 + |s.codec.encode(e)| <= s.max
  }

  lemma IdLineOk(e: Event)
    requires '\n' !in e.epoch
    ensures LineOk(FieldLine("id", IdOf(e)))
  {
    IntTextNonempty(e.num);
    var line := FieldLine("id", IdOf(e));
    forall i | 0 <= i < |line| ensures line[i] != '\n' {
      if e.epoch != "" && i >= 4 { assert line[i] == IdOf(e)[i - 4]; }
    }
    if IdOf(e) != "" {
      assert line[|line| - 1] == IdOf(e)[|IdOf(e)| - 1];
    }
  }

  lemma LineOkPrefixed(name: string, value: string)
    requires '\n' !in name && LineOk(value) && value != ""
    ensures LineOk(FieldLine(name, value))
  {
  }

  /** The id gives back epoch and number. */
  lemma NumberedByIdOf(base: Event, e: Event)
    requires ':' !in e.epoch && MIN_INT64 <= e.num <= MAX_INT64
    ensures Numbered(base, IdOf(e))
         == if e.epoch != "" then base.(epoch := e.epoch, num := e.num) else if e.num != 0 then base.(num := e.num) else base
  {
    ParseIntOfIntText(e.num);
    IntTextNonempty(e.num);
    if e.epoch != "" {
      IndexOfIn(e.epoch, ':', IntText(e.num));
      assert IdOf(e)[..|e.epoch|] == e.epoch && IdOf(e)[|e.epoch| + 1..] == IntText(e.num);
    } else if e.num != 0 {
      IndexOfNone(IntText(e.num), ':');
    }
  }

  /** Id, type and data give back the normalised event. */
  lemma IdIsParsed(c: Codec, e: Event)
    requires EncodesOk(c, e) && ':' !in e.epoch && MIN_INT64 <= e.num <= MAX_INT64
    ensures ParseSSEEvent(c, IdOf(e), e.kind, c.encode(e)) == c.normal(e)
  {
    NumberedByIdOf(c.normal(e), e);
  }

  function WithField(st: State, name: string, value: string): State {
    if name == "id" then st.(id := value)
    else if name == "event" then st.(kind := value)
    else st.(data := (if st.data != "" then st.data + "\n" else "") + value)
  }

  lemma FieldOfLine(st: State, name: string, value: string)
    requires name == "id" || name == "event" || name == "data"
    ensures Field(st, FieldLine(name, value)) == WithField(st, name, value)
  {
    FieldIsRead(st, name, value);
  }

  lemma LineOfField(s: Setup, st: State, name: string, value: string)
    requires name == "id" || name == "event" || name == "data"
    requires st.bytes + |FieldLine(name, value)| <= s.max
    ensures Line(s, st, FieldLine(name, value)) == Go(WithField(st.(bytes := st.bytes + |FieldLine(name, value)|), name, value))
  {
    FieldOfLine(st.(bytes := st.bytes + |FieldLine(name, value)|), name, value);
    assert FieldLine(name, value)[0] == name[0];
  }

  lemma ReadField(s: Setup, st: State, name: string, value: string, rest: string, next: State)
    requires name == "id" || name == "event" || name == "data"
    requires LineOk(FieldLine(name, value)) && st.bytes + |FieldLine(name, value)| <= s.max
    requires next == WithField(st.(bytes := st.bytes + |FieldLine(name, value)|), name, value)
    ensures ParseFrom(s, st, FieldLine(name, value) + "\n" + rest) == ParseFrom(s, next, rest)
  {
    LineOfField(s, st, name, value);
    ParseLine(s, st, FieldLine(name, value), rest);
  }

  // ---------------------------------------------------------------- whole streams

  function Handed(s: Setup, st: State, e: Event): State {
    State("", "", "", 0, st.events + [s.codec.normal(e)], if IdOf(e) != "" then IdOf(e) else st.last)
  }

  function AfterId(st: State, e: Event): State {
    st.(id := IdOf(e), bytes := if IdOf(e) != "" then 4 + |IdOf(e)| else 0)
  }

  function AfterKind(st: State, e: Event): State {
    st.(kind := e.kind, bytes := st.bytes + if e.kind != "" then 7 + |e.kind| else 0)
  }

  function AfterData(st: State, data: string): State {
    st.(data := data, bytes := st.bytes + 6 + |data|)
  }

  lemma ReadIdLine(s: Setup, st: State, e: Event, rest: string)
    requires Writable(s, e) && Empty(st)
    ensures ParseFrom(s, st, IdLine(e) + rest) == ParseFrom(s, AfterId(st, e), rest)
  {
    if IdOf(e) != "" {
      IdLineOk(e);
      ReadField(s, st, "id", IdOf(e), rest, AfterId(st, e));
    } else {
      assert IdLine(e) + rest == rest;
      assert st == AfterId(st, e);
    }
  }

  lemma ReadKindLine(s: Setup, st: State, e: Event, rest: string)
    requires Writable(s, e) && st.kind == "" && st.bytes <= 4 + |IdOf(e)|
    ensures ParseFrom(s, st, KindLine(e) + rest) == ParseFrom(s, AfterKind(st, e), rest)
  {
    if e.kind != "" {
      LineOkPrefixed("event", e.kind);
      ReadField(s, st, "event", e.kind, rest, AfterKind(st, e));
    } else {
      assert KindLine(e) + rest == rest;
      assert st == AfterKind(st, e);
    }
  }

  lemma ReadDataLine(s: Setup, st: State, data: string, rest: string)
    requires LineOk(data) && data != "" && st.data == "" && st.bytes + 6 + |data| <= s.max
    ensures ParseFrom(s, st, FieldLine("data", data) + "\n" + rest) == ParseFrom(s, AfterData(st, data), rest)
  {
    LineOkPrefixed("data", data);
    assert "" + data == data;
    ReadField(s, st, "data", data, rest, AfterData(st, data));
  }

  lemma ReadBlankLine(s: Setup, st: State, rest: string)
    ensures var p := Line(s, st, "");
      ParseFrom(s, st, "\n" + rest) == if p.Stop? then p.result else ParseFrom(s, p.state, rest)
  {
    ParseLine(s, st, "", rest);
    assert "" + "\n" + rest == "\n" + rest;
  }

  lemma Regroup(a: string, b: string, d: string, rest: string)
    ensures a + (b + (d + "\n")) + rest == a + (b + (d + ("\n" + rest)))
  {
    assert d + "\n" + rest == d + ("\n" + rest);
    JoinPieces(a, b, d + "\n", rest);
    assert a + (b + (d + "\n")) == a + b + (d + "\n");
  }

  lemma SplitFrame(c: Codec, e: Event, rest: string)
    ensures Frame(c, e) + rest == IdLine(e) + (KindLine(e) + (FieldLine("data", c.encode(e)) + "\n" + ("\n" + rest)))
  {
    Regroup(IdLine(e), KindLine(e), FieldLine("data", c.encode(e)) + "\n", rest);
  }

  lemma ReadFields(s: Setup, st: State, e: Event, rest: string)
    requires Writable(s, e) && Empty(st)
    ensures ParseFrom(s, st, Frame(s.codec, e) + rest)
         == ParseFrom(s, AfterData(AfterKind(AfterId(st, e), e), s.codec.encode(e)), "\n" + rest)
  {
    var afterData := "\n" + rest;
    var afterKind := FieldLine("data", s.codec.encode(e)) + "\n" + afterData;
    SplitFrame(s.codec, e, rest);
    ReadIdLine(s, st, e, KindLine(e) + afterKind);
    ReadKindLine(s, AfterId(st, e), e, afterKind);
    ReadDataLine(s, AfterKind(AfterId(st, e), e), s.codec.encode(e), afterData);
  }

  /** One written frame is one event handed on, or the handler's error. */
  lemma ReadFrame(s: Setup, st: State, e: Event, rest: string)
    requires Writable(s, e) && Empty(st)
    ensures ParseFrom(s, st, Frame(s.codec, e) + rest)
         == if |st.events| >= s.accepted then Result(st.events, st.last, HandlerError) else ParseFrom(s, Handed(s, st, e), rest)
  {
    var filled := AfterData(AfterKind(AfterId(st, e), e), s.codec.encode(e));
    ReadFields(s, st, e, rest);
    ReadBlankLine(s, filled, rest);
    IdIsParsed(s.codec, e);
    assert Pending(filled);
  }

  lemma ReadHeartbeat(s: Setup, st: State, rest: string)
    requires Empty(st) && |HEARTBEAT| <= s.max
    ensures ParseFrom(s, st, HEARTBEAT + "\n" + "\n" + rest) == ParseFrom(s, st, rest)
  {
    assert HEARTBEAT + "\n" + "\n" + rest == HEARTBEAT + "\n" + ("\n" + rest);
    assert HEARTBEAT[0] == ':' && LineOk(HEARTBEAT);
    ParseLine(s, st, HEARTBEAT, "\n" + rest);
    ReadBlankLine(s, st, rest);
  }

  ghost predicate StreamOk(s: Setup, items: seq<Item>) {
    |HEARTBEAT| <= s.max && forall i :: 0 <= i < |items| && items[i].Send? ==> Writable(s, items[i].event)
  }

  /** What a reader of the items should end with. */
  function Expected(s: Setup, events: seq<Event>, last: string, items: seq<Item>): Result
    decreases |items|
  {
    if items == [] then Result(events, last, if s.clean then Eof else Broken)
    else match items[0]
      case Heartbeat => Expected(s, events, last, items[1..])
      case Send(e) =>
        if |events| >= s.accepted then Result(events, last, HandlerError)
        else Expected(s, events + [s.codec.normal(e)], if IdOf(e) != "" then IdOf(e) else last, items[1..])
  }

  lemma {:induction false} ReadStream(s: Setup, st: State, items: seq<Item>)
    requires StreamOk(s, items) && Empty(st)
    ensures ParseFrom(s, st, Written(s.codec, items)) == Expected(s, st.events, st.last, items)
    decreases |items|
  {
    if items != [] {
      var rest := Written(s.codec, items[1..]);
      assert forall i :: 0 <= i < |items[1..]| ==> items[1..][i] == items[i + 1];
      match items[0]
      case Heartbeat =>
        ReadHeartbeat(s, st, rest);
        ReadStream(s, st, items[1..]);
      case Send(e) =>
        ReadFrame(s, st, e, rest);
        if |st.events| < s.accepted { ReadStream(s, Handed(s, st, e), items[1..]); }
    }
  }

  function Sent(items: seq<Item>): seq<Event> {
    if items == [] then [] else (if items[0].Send? then [items[0].event] else []) + Sent(items[1..])
  }

  function Normals(c: Codec, events: seq<Event>): seq<Event> {
    if events == [] then [] else [c.normal(events[0])] + Normals(c, events[1..])
  }

  /** The last nonempty id of some events. */
  function LastId(last: string, events: seq<Event>): string
    decreases |events|
  {
    if events == [] then last else LastId(if IdOf(events[0]) != "" then IdOf(events[0]) else last, events[1..])
  }

  lemma SentFirst(c: Codec, items: seq<Item>, events: seq<Event>, last: string)
    requires items != [] && items[0].Send?
    ensures var e := items[0].event;
      && |Sent(items)| == 1 + |Sent(items[1..])|
      && events + Normals(c, Sent(items)) == events + [c.normal(e)] + Normals(c, Sent(items[1..]))
      && LastId(last, Sent(items)) == LastId(if IdOf(e) != "" then IdOf(e) else last, Sent(items[1..]))
  {
    var e, rest := items[0].event, Sent(items[1..]);
    assert Sent(items) == [e] + rest && Sent(items)[1..] == rest && Sent(items)[0] == e;
    var tail := Normals(c, rest);
    assert Normals(c, Sent(items)) == [c.normal(e)] + tail;
    assert events + ([c.normal(e)] + tail) == events + [c.normal(e)] + tail;
  }

  lemma {:induction false} ExpectedInFull(s: Setup, events: seq<Event>, last: string, items: seq<Item>)
    requires |events| + |Sent(items)| <= s.accepted
    ensures Expected(s, events, last, items)
         == Result(events + Normals(s.codec, Sent(items)), LastId(last, Sent(items)), if s.clean then Eof else Broken)
    decreases |items|
  {
    if items == [] {
      assert events + [] == events;
    } else if items[0].Send? {
      var e := items[0].event;
      SentFirst(s.codec, items, events, last);
      ExpectedInFull(s, events + [s.codec.normal(e)], if IdOf(e) != "" then IdOf(e) else last, items[1..]);
    } else {
      assert Sent(items) == Sent(items[1..]);
      ExpectedInFull(s, events, last, items[1..]);
    }
  }

  /** Parsing a written stream, heartbeats and all, gives exactly the written events and the last id. */
  lemma WriteThenParse(s: Setup, last: string, items: seq<Item>)
    requires StreamOk(s, items) && |Sent(items)| <= s.accepted
    ensures ParseFrom(s, Start.(last := last), Written(s.codec, items))
         == Result(Normals(s.codec, Sent(items)), LastId(last, Sent(items)), if s.clean then Eof else Broken)
  {
    ReadStream(s, Start.(last := last), items);
    ExpectedInFull(s, [], last, items);
  }

  // ---------------------------------------------------------------- a frame cut short

  /** What a cut after m characters leaves of a field's value. */
  function Taken(prefix: nat, value: string, m: int): string {
    if m <= prefix then "" else if m - prefix < |value| then value[..m - prefix] else value
  }

  /** The pending frame when the stream ends m characters into the event's frame. */
  function CutState(c: Codec, st: State, e: Event, m: nat): State {
    st.(id := Taken(4, IdOf(e), m),
        kind := Taken(7, e.kind, m - |IdLine(e)|),
        data := Taken(6, c.encode(e), m - |IdLine(e)| - |KindLine(e)|))
  }

  lemma ParseUnterminated(s: Setup, st: State, text: string)
    requires '\n' !in text && text != ""
    ensures var p := Line(s, st, text);
      ParseFrom(s, st, text) == if p.Stop? then p.result else AtEnd(s, p.state)
  {
    IndexOfNone(text, '\n');
    assert AfterLine(text) == "";
  }

  lemma TextWithin(a: string, b: string, text: string)
    requires text <= a + b && |text| <= |a|
    ensures text <= a
  {
  }

  /** What a text has behind `a`. */
  lemma TextBehind(a: string, b: string, text: string) returns (rest: string)
    requires text <= a + b && |text| >= |a|
    ensures text == a + rest && rest <= b && |rest| == |text| - |a|
  {
    rest := text[|a|..];
  }

  /** A field line cut inside its name or before its value starts says nothing. */
  lemma StubSaysNothing(st: State, name: string, text: string)
    requires name == "id" || name == "event" || name == "data"
    requires text <= name + ": " && text != ""
    requires WithField(st, name, "") == st
    ensures Field(st, text) == st
  {
    if |text| <= |name| {
      TextWithin(name, ": ", text);
      IndexOfNone(text, ':');
      assert |text| < |name| ==> text != "id" && text != "event" && text != "data";
    } else {
      var rest := TextBehind(name, ": ", text);
      assert rest == ":" || rest == ": ";
      IndexOfIn(name, ':', if rest == ":" then "" else " ");
    }
  }

  lemma CutFieldStub(s: Setup, st: State, name: string, text: string)
    requires name == "id" || name == "event" || name == "data"
    requires WithField(st, name, "") == st && text <= name + ": " && text != "" && st.bytes + |text| <= s.max
    ensures ParseFrom(s, st, text) == AtEnd(s, st)
  {
    hide ParseFrom, AtEnd, Field;
    assert text[0] == name[0] && '\n' !in text;
    StubSaysNothing(st.(bytes := st.bytes + |text|), name, text);
    ParseUnterminated(s, st, text);
    AtEndIgnoresBytes(s, st.(bytes := st.bytes + |text|), st);
  }

  lemma AtEndIgnoresBytes(s: Setup, a: State, b: State)
    requires a == b.(bytes := a.bytes)
    ensures AtEnd(s, a) == AtEnd(s, b)
  {
  }

  lemma CutFieldValue(s: Setup, st: State, name: string, part: string)
    requires name == "id" || name == "event" || name == "data"
    requires '\n' !in part && st.bytes + |FieldLine(name, part)| <= s.max
    ensures ParseFrom(s, st, FieldLine(name, part)) == AtEnd(s, WithField(st, name, part))
  {
    ParseUnterminated(s, st, FieldLine(name, part));
    LineOfField(s, st, name, part);
    var read := st.(bytes := st.bytes + |FieldLine(name, part)|);
    AtEndIgnoresBytes(s, WithField(read, name, part), WithField(st, name, part));
  }

  lemma CutField(s: Setup, st: State, name: string, value: string, text: string)
    requires name == "id" || name == "event" || name == "data"
    requires WithField(st, name, "") == st && '\n' !in value
    requires text <= FieldLine(name, value) && st.bytes + |text| <= s.max
    ensures ParseFrom(s, st, text) == AtEnd(s, WithField(st, name, Taken(|name| + 2, value, |text|)))
  {
    if text == "" {
    } else if |text| <= |name| + 2 {
      TextWithin(name + ": ", value, text);
      CutFieldStub(s, st, name, text);
    } else {
      var part := TextBehind(name + ": ", value, text);
      assert part == Taken(|name| + 2, value, |text|);
      CutFieldValue(s, st, name, part);
    }
  }

  lemma CutData(s: Setup, st: State, data: string, text: string)
    requires LineOk(data) && data != "" && st.data == "" && st.bytes + 6 + |data| <= s.max
    requires text < FieldLine("data", data) + "\n" + "\n"
    ensures ParseFrom(s, st, text) == AtEnd(s, st.(data := Taken(6, data, |text|)))
  {
    var line := FieldLine("data", data);
    if |text| <= |line| {
      TextWithin(line, "\n" + "\n", text);
      CutField(s, st, "data", data, text);
      assert "" + Taken(6, data, |text|) == Taken(6, data, |text|);
    } else {
      assert text == line + "\n" + "";
      ReadDataLine(s, st, data, "");
      AtEndIgnoresBytes(s, AfterData(st, data), st.(data := data));
    }
  }

  lemma CutKindLine(s: Setup, st: State, e: Event, text: string)
    requires Writable(s, e) && st.kind == "" && st.bytes <= 4 + |IdOf(e)| && text < KindLine(e)
    ensures ParseFrom(s, st, text) == AtEnd(s, st.(kind := Taken(7, e.kind, |text|)))
  {
    hide ParseFrom, AtEnd;
    TextWithin(FieldLine("event", e.kind), "\n", text);
    CutField(s, st, "event", e.kind, text);
  }

  lemma CutBehindKind(s: Setup, st: State, e: Event, text: string)
    requires Writable(s, e) && st.kind == "" && st.data == "" && st.bytes <= 4 + |IdOf(e)| && text < DataLine(s.codec, e)
    ensures ParseFrom(s, st, KindLine(e) + text) == AtEnd(s, st.(kind := e.kind, data := Taken(6, s.codec.encode(e), |text|)))
  {
    hide ParseFrom, AtEnd;
    var next, data := AfterKind(st, e), Taken(6, s.codec.encode(e), |text|);
    ReadKindLine(s, st, e, text);
    CutData(s, next, s.codec.encode(e), text);
    AtEndIgnoresBytes(s, next.(data := data), st.(kind := e.kind, data := data));
  }

  /** The cut state n characters behind the id line. */
  function CutBehindId(c: Codec, st: State, e: Event, id: string, n: int): State {
    st.(id := id, kind := Taken(7, e.kind, n), data := Taken(6, c.encode(e), n - |KindLine(e)|))
  }

  lemma CutStateInId(c: Codec, st: State, e: Event, m: nat)
    requires m < |IdLine(e)| && Empty(st)
    ensures CutState(c, st, e, m) == st.(id := Taken(4, IdOf(e), m))
  {
  }

  lemma CutStateBehindId(c: Codec, st: State, e: Event, m: nat)
    requires m >= |IdLine(e)| && Empty(st)
    ensures CutState(c, st, e, m) == CutBehindId(c, st, e, IdOf(e), m - |IdLine(e)|)
  {
    assert Taken(4, IdOf(e), m) == IdOf(e);
  }

  lemma CutStateInKind(c: Codec, st: State, e: Event, n: nat)
    requires st.data == ""
    ensures n < |KindLine(e)| ==> CutBehindId(c, st, e, st.id, n) == st.(kind := Taken(7, e.kind, n))
    ensures n >= |KindLine(e)| && st.kind == "" ==>
      CutBehindId(c, st, e, st.id, n) == st.(kind := e.kind, data := Taken(6, c.encode(e), n - |KindLine(e)|))
  {
  }

  lemma CutKind(s: Setup, st: State, e: Event, text: string)
    requires Writable(s, e) && st.kind == "" && st.data == "" && st.bytes <= 4 + |IdOf(e)|
    requires text < KindLine(e) + DataLine(s.codec, e)
    ensures ParseFrom(s, st, text) == AtEnd(s, CutBehindId(s.codec, st, e, st.id, |text|))
  {
    hide ParseFrom, AtEnd, KindLine, DataLine, CutBehindId;
    var line, data := KindLine(e), DataLine(s.codec, e);
    CutStateInKind(s.codec, st, e, |text|);
    if |text| < |line| {
      TextWithin(line, data, text);
      CutKindLine(s, st, e, text);
    } else {
      var rest := TextBehind(line, data, text);
      CutBehindKind(s, st, e, rest);
    }
  }

  lemma IdHasNoBreak(e: Event)
    requires '\n' !in e.epoch
    ensures '\n' !in IdOf(e)
  {
    IntTextNonempty(e.num);
  }

  lemma CutIdLine(s: Setup, st: State, e: Event, text: string)
    requires Writable(s, e) && Empty(st) && text < IdLine(e)
    ensures ParseFrom(s, st, text) == AtEnd(s, CutState(s.codec, st, e, |text|))
  {
    hide ParseFrom, AtEnd, CutState;
    IdHasNoBreak(e);
    TextWithin(FieldLine("id", IdOf(e)), "\n", text);
    CutField(s, st, "id", IdOf(e), text);
    CutStateInId(s.codec, st, e, |text|);
  }

  lemma CutAfterId(s: Setup, st: State, e: Event, text: string)
    requires Writable(s, e) && Empty(st) && text < KindLine(e) + DataLine(s.codec, e)
    ensures ParseFrom(s, st, IdLine(e) + text) == AtEnd(s, CutState(s.codec, st, e, |IdLine(e)| + |text|))
  {
    hide ParseFrom, AtEnd, KindLine, DataLine, CutState, IdLine;
    var next := AfterId(st, e);
    ReadIdLine(s, st, e, text);
    CutKind(s, next, e, text);
    CutStateBehindId(s.codec, st, e, |IdLine(e)| + |text|);
    AtEndIgnoresBytes(s, CutBehindId(s.codec, next, e, IdOf(e), |text|), CutBehindId(s.codec, st, e, IdOf(e), |text|));
  }

  /** A cut frame is read up to the cut, and then the stream ends. */
  lemma CutFrame(s: Setup, st: State, e: Event, text: string)
    requires Writable(s, e) && Empty(st) && text < Frame(s.codec, e)
    ensures ParseFrom(s, st, text) == AtEnd(s, CutState(s.codec, st, e, |text|))
  {
    hide ParseFrom, AtEnd, KindLine, DataLine, CutState, IdLine;
    var line, tail := IdLine(e), KindLine(e) + DataLine(s.codec, e);
    if |text| < |line| {
      TextWithin(line, tail, text);
      CutIdLine(s, st, e, text);
    } else {
      var rest := TextBehind(line, tail, text);
      CutAfterId(s, st, e, rest);
    }
  }

  lemma CutHeartbeat(s: Setup, st: State, text: string)
    requires Empty(st) && |HEARTBEAT| <= s.max && text < HEARTBEAT + "\n" + "\n"
    ensures ParseFrom(s, st, text) == AtEnd(s, st)
  {
    assert LineOk(HEARTBEAT);
    if text == "" {
    } else if |text| <= |HEARTBEAT| {
      TextWithin(HEARTBEAT, "\n" + "\n", text);
      ParseUnterminated(s, st, text);
    } else {
      assert text == HEARTBEAT + "\n" + "";
      ParseLine(s, st, HEARTBEAT, "");
    }
  }

  // ---------------------------------------------------------------- when a clean end does no harm

  /** A proper prefix of an encoding is no encoding, and only the empty one can be a payload. */
  ghost predicate CutsOk(c: Codec, e: Event) {
    forall part :: part < c.encode(e) ==> c.decode(part).None? && (part != "" ==> c.normal(e).payload != part)
  }

  /** The event says nothing but its id and type. */
  predicate Bare(c: Codec, e: Event) {
    var n := c.normal(e);
    n.aggregate == "" && n.payload == "" && n.createdAt == "" && n.committedAt == ""
  }

  /** Up to here no value of the frame has been read. */
  function FirstPrefix(e: Event): nat {
    if IdOf(e) != "" then 4 else if e.kind != "" then 7 else 6
  }

  /** A cut before any value, behind the last value, or between header and data of a bare event. */
  predicate HarmlessCut(c: Codec, e: Event, m: nat) {
    var head := |IdLine(e)| + |KindLine(e)|;
    m <= FirstPrefix(e) || m >= |Frame(c, e)| - 2 || (Bare(c, e) && head - 1 <= m <= head + 6)
  }

  lemma PendingAfterPrefix(c: Codec, st: State, e: Event, m: nat)
    requires Empty(st) && c.encode(e) != "" && m < |Frame(c, e)|
    ensures Pending(CutState(c, st, e, m)) <==> m > FirstPrefix(e)
  {
  }

  /** The stub of an event whose id and type were read and whose data was not. */
  lemma StubIs(c: Codec, e: Event)
    requires CutsOk(c, e) && c.encode(e) != "" && ':' !in e.epoch && MIN_INT64 <= e.num <= MAX_INT64
    ensures ParseSSEEvent(c, IdOf(e), e.kind, "") == Event(e.num, e.epoch, e.kind, "", "", "", "")
  {
    assert "" < c.encode(e);
    NumberedByIdOf(Envelope(c, ""), e);
  }

  /** The event that a clean end in the middle of a frame hands on. */
  function CutEvent(c: Codec, e: Event, m: nat): Event {
    var cut := CutState(c, Start, e, m);
    ParseSSEEvent(c, cut.id, cut.kind, cut.data)
  }

  /** It is the whole event, under its whole id, exactly at a harmless cut. */
  lemma CutEventIsWholeIff(s: Setup, e: Event, m: nat)
    requires Writable(s, e) && CutsOk(s.codec, e) && FirstPrefix(e) < m < |Frame(s.codec, e)|
    ensures CutEvent(s.codec, e, m) == s.codec.normal(e) && CutState(s.codec, Start, e, m).id == IdOf(e)
            <==> HarmlessCut(s.codec, e, m)
  {
    var c, cut := s.codec, CutState(s.codec, Start, e, m);
    var data := m - |IdLine(e)| - |KindLine(e)|;
    if data > 6 {
      assert cut.id == IdOf(e) && cut.kind == e.kind;
      if data - 6 < |c.encode(e)| {
        assert cut.data == c.encode(e)[..data - 6] < c.encode(e);
        RawPayload(c, cut.id, cut.kind, cut.data);
      } else {
        assert cut.data == c.encode(e);
        IdIsParsed(c, e);
      }
    } else {
      assert cut.data == "";
      HeaderCut(c, e, m, cut);
    }
  }

  lemma RawPayload(c: Codec, id: string, kind: string, data: string)
    requires c.decode(data).None?
    ensures ParseSSEEvent(c, id, kind, data).payload == data && ParseSSEEvent(c, id, kind, data).kind == kind
  {
  }

  /** A cut before the data: whole only if header and event hold nothing more. */
  lemma HeaderCut(c: Codec, e: Event, m: nat, cut: State)
    requires EncodesOk(c, e) && CutsOk(c, e) && ':' !in e.epoch && MIN_INT64 <= e.num <= MAX_INT64
    requires cut == CutState(c, Start, e, m) && FirstPrefix(e) < m && m - |IdLine(e)| - |KindLine(e)| <= 6
    ensures ParseSSEEvent(c, cut.id, cut.kind, "") == c.normal(e) && cut.id == IdOf(e)
            <==> Bare(c, e) && |IdLine(e)| + |KindLine(e)| - 1 <= m
  {
    assert "" < c.encode(e);
    RawPayload(c, cut.id, cut.kind, "");
    StubIs(c, e);
    if m >= |IdLine(e)| + |KindLine(e)| - 1 {
      assert cut.id == IdOf(e) && cut.kind == e.kind;
    } else if e.kind != "" {
      assert |cut.kind| < |e.kind|;
    } else {
      assert |cut.id| < |IdOf(e)|;
    }
  }

  lemma DataCutIsPrefix(c: Codec, e: Event, part: string)
    requires part < c.encode(e)
    ensures IdLine(e) + (KindLine(e) + FieldLine("data", part)) < Frame(c, e)
  {
    assert FieldLine("data", part) < DataLine(c, e);
    PrefixBehind(KindLine(e), FieldLine("data", part), DataLine(c, e));
    PrefixBehind(IdLine(e), KindLine(e) + FieldLine("data", part), KindLine(e) + DataLine(c, e));
  }

  lemma PrefixBehind(a: string, b: string, c: string)
    requires b < c
    ensures a + b < a + c
  {
  }

  /** A clean end cut inside the data text hands on a truncated event and moves the last id onto it. */
  lemma CleanEndInsideData(s: Setup, last: string, e: Event, part: string)
    requires Writable(s, e) && CutsOk(s.codec, e) && s.clean && s.accepted > 0 && "" < part < s.codec.encode(e)
    ensures var text := IdLine(e) + (KindLine(e) + FieldLine("data", part));
      var r := ParseFrom(s, Start.(last := last), text);
      text < Frame(s.codec, e) && |r.events| == 1 && r.events[0] != s.codec.normal(e)
      && r.events[0].payload == part && r.last == (if IdOf(e) != "" then IdOf(e) else last) && r.end == Eof
  {
    var st := Start.(last := last);
    DataCutIsPrefix(s.codec, e, part);
    ReadIdLine(s, st, e, KindLine(e) + FieldLine("data", part));
    ReadKindLine(s, AfterId(st, e), e, FieldLine("data", part));
    CutFieldValue(s, AfterKind(AfterId(st, e), e), "data", part);
    assert "" + part == part;
    RawPayload(s.codec, IdOf(e), e.kind, part);
  }

  /** A clean end behind the id line hands on a stub and moves the last id onto it. */
  lemma CleanEndAfterIdLine(s: Setup, last: string, e: Event)
    requires Writable(s, e) && CutsOk(s.codec, e) && s.clean && s.accepted > 0 && IdOf(e) != "" && s.codec.normal(e).payload != ""
    ensures var r := ParseFrom(s, Start.(last := last), IdLine(e));
      IdLine(e) < Frame(s.codec, e) && |r.events| == 1 && r.events[0] == ParseSSEEvent(s.codec, IdOf(e), "", "") != s.codec.normal(e)
      && r.last == IdOf(e) && r.end == Eof
  {
    var st := Start.(last := last);
    ReadIdLine(s, st, e, "");
    assert IdLine(e) + "" == IdLine(e);
    assert "" < s.codec.encode(e);
    RawPayload(s.codec, IdOf(e), "", "");
  }

  // ---------------------------------------------------------------- streams cut anywhere

  function ItemText(c: Codec, item: Item): string {
    match item case Send(e) => Frame(c, e) case Heartbeat => HEARTBEAT + "\n" + "\n"
  }

  /** The reader ends with the whole events of the first k items, and their last id. */
  ghost predicate Delivers(s: Setup, st: State, items: seq<Item>, k: nat, r: Result) {
    k <= |items| && r.events == Expected(s, st.events, st.last, items[..k]).events
    && r.last == Expected(s, st.events, st.last, items[..k]).last
  }

  ghost predicate WholeOnly(s: Setup, st: State, items: seq<Item>, r: Result) {
    exists k: nat :: Delivers(s, st, items, k, r)
  }

  /** Where the cut falls: between items, in a heartbeat, behind what the handler takes (`room`
      more events), or harmlessly inside a frame. */
  predicate HarmlessStreamCut(c: Codec, room: int, items: seq<Item>, n: nat)
    decreases |items|
  {
    items == [] || (items[0].Send? && room <= 0) ||
    if n < |ItemText(c, items[0])| then items[0].Send? ==> HarmlessCut(c, items[0].event, n)
    else HarmlessStreamCut(c, if items[0].Send? then room - 1 else room, items[1..], n - |ItemText(c, items[0])|)
  }

  lemma {:induction false} ParsedExtends(s: Setup, st: State, text: string)
    ensures st.events <= ParseFrom(s, st, text).events
    decreases |text|
  {
    if text != "" {
      var p := Line(s, st, FirstLine(text));
      if p.Go? { ParsedExtends(s, p.state, AfterLine(text)); }
    }
  }

  lemma {:induction false} ExpectedExtends(s: Setup, events: seq<Event>, last: string, items: seq<Item>)
    ensures events <= Expected(s, events, last, items).events
    ensures Expected(s, events, last, items).events == events ==> Expected(s, events, last, items).last == last
    decreases |items|
  {
    if items != [] {
      match items[0]
      case Heartbeat => ExpectedExtends(s, events, last, items[1..]);
      case Send(e) =>
        if |events| < s.accepted {
          ExpectedExtends(s, events + [s.codec.normal(e)], if IdOf(e) != "" then IdOf(e) else last, items[1..]);
        }
    }
  }

  lemma DeliversNone(s: Setup, st: State, items: seq<Item>, r: Result)
    requires r.events == st.events && r.last == st.last
    ensures WholeOnly(s, st, items, r)
  {
    assert items[..0] == [];
    assert Delivers(s, st, items, 0, r);
  }

  lemma TakeNone(items: seq<Item>)
    ensures items[..0] == []
  {
  }

  /** Behind a first event that was handed on, the rest decides. */
  lemma FirstWasSent(s: Setup, st: State, items: seq<Item>, r: Result)
    requires items != [] && items[0].Send? && |st.events| < s.accepted && |r.events| > |st.events|
    ensures WholeOnly(s, st, items, r) <==> WholeOnly(s, Handed(s, st, items[0].event), items[1..], r)
  {
    var next := Handed(s, st, items[0].event);
    if k: nat :| Delivers(s, st, items, k, r) {
      TakeNone(items);
      assert items[..k][1..] == items[1..][..k - 1] && items[..k][0] == items[0];
      assert Delivers(s, next, items[1..], k - 1, r);
    }
    if k: nat :| Delivers(s, next, items[1..], k, r) {
      assert items[..k + 1][1..] == items[1..][..k] && items[..k + 1][0] == items[0];
      assert Delivers(s, st, items, k + 1, r);
    }
  }

  lemma FirstWasHeartbeat(s: Setup, st: State, items: seq<Item>, r: Result)
    requires items != [] && items[0].Heartbeat?
    ensures WholeOnly(s, st, items, r) <==> WholeOnly(s, st, items[1..], r)
  {
    if k: nat :| Delivers(s, st, items, k, r) {
      if k == 0 {
        assert items[..k] == [];
        DeliversNone(s, st, items[1..], r);
      } else {
        assert items[..k][1..] == items[1..][..k - 1] && items[..k][0] == items[0];
        assert Delivers(s, st, items[1..], k - 1, r);
      }
    }
    if k: nat :| Delivers(s, st, items[1..], k, r) {
      assert items[..k + 1][1..] == items[1..][..k] && items[..k + 1][0] == items[0];
      assert Delivers(s, st, items, k + 1, r);
    }
  }

  /** The stream ends inside the first item. */
  lemma CutInFirst(s: Setup, st: State, items: seq<Item>, text: string)
    requires StreamOk(s, items) && Empty(st) && items != [] && text < ItemText(s.codec, items[0])
    requires s.clean && items[0].Send? ==> CutsOk(s.codec, items[0].event)
    ensures WholeOnly(s, st, items, ParseFrom(s, st, text))
            <==> !s.clean || HarmlessStreamCut(s.codec, s.accepted - |st.events|, items, |text|)
  {
    hide ParseFrom, Frame, WholeOnly;
    match items[0]
    case Heartbeat =>
      CutHeartbeat(s, st, text);
      DeliversNone(s, st, items, ParseFrom(s, st, text));
    case Send(e) =>
      CutFrame(s, st, e, text);
      CutInSend(s, st, items, e, |text|, ParseFrom(s, st, text));
  }

  lemma CutInSend(s: Setup, st: State, items: seq<Item>, e: Event, m: nat, r: Result)
    requires Writable(s, e) && Empty(st) && items != [] && items[0] == Send(e) && m < |Frame(s.codec, e)|
    requires s.clean ==> CutsOk(s.codec, e)
    requires r == AtEnd(s, CutState(s.codec, st, e, m))
    ensures WholeOnly(s, st, items, r)
            <==> !s.clean || HarmlessStreamCut(s.codec, s.accepted - |st.events|, items, m)
  {
    PendingAfterPrefix(s.codec, st, e, m);
    if !s.clean || |st.events| >= s.accepted || m <= FirstPrefix(e) {
      DeliversNone(s, st, items, r);
    } else {
      CutEventIsWholeIff(s, e, m);
      HandedOnIsWholeIff(s, st, items, r, CutEvent(s.codec, e, m), CutState(s.codec, st, e, m).id);
      assert items[0].event == e;
    }
  }

  /** One event more than before is whole exactly when it is the first item's, under its id. */
  lemma HandedOnIsWholeIff(s: Setup, st: State, items: seq<Item>, r: Result, x: Event, id: string)
    requires items != [] && items[0].Send? && |st.events| < s.accepted
    requires r.events == st.events + [x] && r.last == if id != "" then id else st.last
    requires id == "" <==> IdOf(items[0].event) == ""
    ensures WholeOnly(s, st, items, r) <==> x == s.codec.normal(items[0].event) && id == IdOf(items[0].event)
  {
    var next := Handed(s, st, items[0].event);
    FirstWasSent(s, st, items, r);
    if x == s.codec.normal(items[0].event) && id == IdOf(items[0].event) {
      DeliversNone(s, next, items[1..], r);
    }
    if k: nat :| Delivers(s, next, items[1..], k, r) {
      ExpectedExtends(s, next.events, next.last, items[1..][..k]);
      assert next.events == r.events;
      assert next.events[|st.events|] == r.events[|st.events|];
    }
  }

  /**
   A stream of written events and heartbeats that ends anywhere, by an error or cleanly, and
   under any handler: it delivers whole events only, under their own ids, if and only if it
   ended by an error or the cut is harmless.
   */
  lemma {:induction false} CutDeliversWholeEventsIff(s: Setup, st: State, items: seq<Item>, text: string)
    requires StreamOk(s, items) && Empty(st) && text <= Written(s.codec, items)
    requires s.clean ==> forall i :: 0 <= i < |items| && items[i].Send? ==> CutsOk(s.codec, items[i].event)
    ensures WholeOnly(s, st, items, ParseFrom(s, st, text))
            <==> !s.clean || HarmlessStreamCut(s.codec, s.accepted - |st.events|, items, |text|)
    decreases |items|, 1
  {
    hide ParseFrom, Frame, WholeOnly;
    if items == [] {
      NothingWritten(s, st, text);
    } else {
      var first, after := ItemText(s.codec, items[0]), Written(s.codec, items[1..]);
      assert Written(s.codec, items) == first + after;
      if |text| < |first| {
        TextWithin(first, after, text);
        CutInFirst(s, st, items, text);
      } else {
        var rest := TextBehind(first, after, text);
        if items[0].Heartbeat? { CutBehindHeartbeat(s, st, items, rest); } else { CutBehindSend(s, st, items, rest); }
      }
    }
  }

  lemma NothingWritten(s: Setup, st: State, text: string)
    requires Empty(st) && text == ""
    ensures WholeOnly(s, st, [], ParseFrom(s, st, text))
  {
    DeliversNone(s, st, [], ParseFrom(s, st, text));
  }

  lemma HarmlessBehind(c: Codec, room: int, items: seq<Item>, n: nat)
    requires items != []
    ensures HarmlessStreamCut(c, room, items, |ItemText(c, items[0])| + n)
        <==> (items[0].Send? && room <= 0) || HarmlessStreamCut(c, if items[0].Send? then room - 1 else room, items[1..], n)
  {
    hide HarmlessCut, ItemText;
  }

  lemma {:induction false} CutBehindHeartbeat(s: Setup, st: State, items: seq<Item>, rest: string)
    requires StreamOk(s, items) && Empty(st) && items != [] && items[0].Heartbeat? && rest <= Written(s.codec, items[1..])
    requires s.clean ==> forall i :: 0 <= i < |items| && items[i].Send? ==> CutsOk(s.codec, items[i].event)
    ensures WholeOnly(s, st, items, ParseFrom(s, st, ItemText(s.codec, items[0]) + rest))
            <==> !s.clean || HarmlessStreamCut(s.codec, s.accepted - |st.events|, items, |ItemText(s.codec, items[0])| + |rest|)
    decreases |items|, 0
  {
    hide ParseFrom, WholeOnly, HarmlessStreamCut, Written;
    HarmlessBehind(s.codec, s.accepted - |st.events|, items, |rest|);
    ReadHeartbeat(s, st, rest);
    FirstWasHeartbeat(s, st, items, ParseFrom(s, st, rest));
    assert forall i :: 0 <= i < |items[1..]| ==> items[1..][i] == items[i + 1];
    CutDeliversWholeEventsIff(s, st, items[1..], rest);
  }

  lemma {:induction false} CutBehindSend(s: Setup, st: State, items: seq<Item>, rest: string)
    requires StreamOk(s, items) && Empty(st) && items != [] && items[0].Send? && rest <= Written(s.codec, items[1..])
    requires s.clean ==> forall i :: 0 <= i < |items| && items[i].Send? ==> CutsOk(s.codec, items[i].event)
    ensures WholeOnly(s, st, items, ParseFrom(s, st, ItemText(s.codec, items[0]) + rest))
            <==> !s.clean || HarmlessStreamCut(s.codec, s.accepted - |st.events|, items, |ItemText(s.codec, items[0])| + |rest|)
    decreases |items|, 0
  {
    hide ParseFrom, WholeOnly, HarmlessStreamCut, Written, Frame;
    HarmlessBehind(s.codec, s.accepted - |st.events|, items, |rest|);
    var next := Handed(s, st, items[0].event);
    ReadFrame(s, st, items[0].event, rest);
    if |st.events| >= s.accepted {
      DeliversNone(s, st, items, Result(st.events, st.last, HandlerError));
    } else {
      ParsedExtends(s, next, rest);
      FirstWasSent(s, st, items, ParseFrom(s, next, rest));
      assert forall i :: 0 <= i < |items[1..]| ==> items[1..][i] == items[i + 1];
      CutDeliversWholeEventsIff(s, next, items[1..], rest);
    }
  }
}
