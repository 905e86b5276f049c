/** The wire format of the event stream: the server's printer, and the client's parser as
    section 9.2.6 of the WHATWG HTML Living Standard defines it. */
module Wire {
  import opened Domain
  import opened EventLog

  // ---- decimal numbers ----

  const DIGITS := "0123456789"

  function Decimal(n: nat): string {
    if n < 10 then [DIGITS[n]] else Decimal(n / 10) + [DIGITS[n % 10]]
  }

  function IntText(n: int): string {
    if n < 0 then "-" + Decimal(-n) else Decimal(n)
  }

  function DigitValue(c: char): Option<nat> {
    if '0' <= c <= '9' then Some((c - '0') as nat) else None
  }

  function DigitsValue(s: string): (v: Option<nat>)
    ensures s == [] ==> v.None?
  {
    if s == [] then None
    else
      var d := DigitValue(s[|s| - 1]);
      if |s| == 1 || d.None? then d
      else
        var high := DigitsValue(s[..|s| - 1]);
        if high.None? then None else Some(10 * high.value + d.value)
  }

  predicate Sign(c: char) { c == '-' || c == '+' }

  /** The integers a reconnect header can carry: an optional sign and decimal digits. */
  function ParseInt(s: string): Option<int> {
    var digits := DigitsValue(if s != [] && Sign(s[0]) then s[1..] else s);
    if digits.None? then None
    else
      var n: int := digits.value;
      Some(if s[0] == '-' then 0 - n else n)
  }

  /** Where a connection starts: the header wins if it is a number, the query otherwise. */
  function StartCursor(afterSeq: int, header: Option<string>): int {
    match header
    case None => afterSeq
    case Some(h) => if ParseInt(h).Some? then ParseInt(h).value else afterSeq
  }

  lemma {:induction false} DecimalRoundTrip(n: nat)
    ensures DigitsValue(Decimal(n)) == Some(n) && Decimal(n) != [] && '0' <= Decimal(n)[0] <= '9'
  {
    if n >= 10 {
      DecimalRoundTrip(n / 10);
      assert Decimal(n)[..|Decimal(n)| - 1] == Decimal(n / 10);
    }
  }

  lemma ParseUnsigned(digits: string, n: nat)
    requires digits != [] && !Sign(digits[0]) && DigitsValue(digits) == Some(n)
    ensures ParseInt(digits) == Some(n)
  {
  }

  lemma ParseNegative(digits: string, n: int)
    requires n < 0 && DigitsValue(digits) == Some(-n)
    ensures ParseInt("-" + digits) == Some(n)
  {
    assert ("-" + digits)[1..] == digits;
  }

  lemma IntRoundTrip(n: int)
    ensures ParseInt(IntText(n)) == Some(n)
  {
    if n < 0 {
      DecimalRoundTrip(-n);
      ParseNegative(Decimal(-n), n);
    } else {
      DecimalRoundTrip(n);
      ParseUnsigned(Decimal(n), n);
    }
  }

  // ---- compact JSON, ASCII only ----

  datatype Json =
    | Null
    | Bool(b: bool)
    | Number(n: int)
    | Text(s: string)
    | Array(items: seq<Json>)
    | Object(members: seq<Member>)

  datatype Member = Member(key: string, value: Json)

  const HEX := "0123456789abcdef"

  function Hex4(n: nat): string
    requires n < 0x10000
  {
    [HEX[n / 4096], HEX[n / 256 % 16], HEX[n / 16 % 16], HEX[n % 16]]
  }

  function Unit(n: nat): string
    requires n < 0x10000
  {
    "\\u" + Hex4(n)
  }

  function SurrogatePair(m: nat): string
    requires m < 0x100000
  {
    Unit(0xD800 + m / 1024) + Unit(0xDC00 + m % 1024)
  }

  /** One character of a string literal; everything outside printable ASCII is escaped, with
      a surrogate pair above the basic plane. */
  function Escape(c: char): string {
    if c == '"' then "\\\""
    else if c == '\\' then "\\\\"
    else if c == '\n' then "\\n"
    else if c == '\r' then "\\r"
    else if c == '\t' then "\\t"
    else if c == '\U{0008}' then "\\b"
    else if c == '\U{000C}' then "\\f"
    else if ' ' <= c <= '~' then [c]
    else if (c as int) < 0x10000 then Unit(c as int)
    else SurrogatePair(c as int - 0x10000)
  }

  function Escaped(s: string): string {
    if s == [] then [] else Escaped(s[..|s| - 1]) + Escape(s[|s| - 1])
  }

  function Quoted(s: string): string { "\"" + Escaped(s) + "\"" }

  function Dumps(j: Json): string {
    match j
    case Null => "null"
    case Bool(b) => if b then "true" else "false"
    case Number(n) => IntText(n)
    case Text(s) => Quoted(s)
    case Array(items) => "[" + DumpItems(items) + "]"
    case Object(members) => "{" + DumpMembers(members) + "}"
  }

  function DumpItems(items: seq<Json>): string {
    if items == [] then ""
    else if |items| == 1 then Dumps(items[0])
    else Dumps(items[0]) + "," + DumpItems(items[1..])
  }

  function DumpMembers(members: seq<Member>): string {
    if members == [] then ""
    else
      var first := Quoted(members[0].key) + ":" + Dumps(members[0].value);
      if |members| == 1 then first else first + "," + DumpMembers(members[1..])
  }

  /** Printable ASCII only, so in particular no line break. */
  predicate Plain(s: string) {
    forall i :: 0 <= i < |s| ==> ' ' <= s[i] <= '~'
  }

  lemma PlainConcat(a: string, b: string)
    requires Plain(a) && Plain(b)
    ensures Plain(a + b)
  {
  }

  lemma {:induction false} DecimalPlain(n: nat)
    ensures Plain(Decimal(n))
  {
    if n >= 10 {
      DecimalPlain(n / 10);
    }
  }

  lemma IntPlain(n: int)
    ensures Plain(IntText(n))
  {
    DecimalPlain(if n < 0 then -n else n);
  }

  lemma HexPlain(n: nat)
    requires n < 0x10000
    ensures Plain(Hex4(n))
  {
  }

  lemma UnitPlain(n: nat)
    requires n < 0x10000
    ensures Plain(Unit(n))
  {
    HexPlain(n);
    assert Plain("\\u");
    PlainConcat("\\u", Hex4(n));
  }

  lemma PairPlain(m: nat)
    requires m < 0x100000
    ensures Plain(SurrogatePair(m))
  {
    UnitPlain(0xD800 + m / 1024);
    UnitPlain(0xDC00 + m % 1024);
    PlainConcat(Unit(0xD800 + m / 1024), Unit(0xDC00 + m % 1024));
  }

  predicate Escapes(c: char) {
    c == '"' || c == '\\' || c == '\n' || c == '\r' || c == '\t' || c == '\U{0008}' || c == '\U{000C}' || ' ' <= c <= '~'
  }

  lemma ShortEscapePlain(c: char)
    requires Escapes(c)
    ensures Plain(Escape(c))
  {
  }

  lemma EscapePlain(c: char)
    ensures Plain(Escape(c))
  {
    if Escapes(c) {
      ShortEscapePlain(c);
    } else if (c as int) < 0x10000 {
      UnitPlain(c as int);
    } else {
      PairPlain(c as int - 0x10000);
    }
  }

  lemma {:induction false} QuotedPlain(s: string)
    ensures Plain(Escaped(s)) && Plain(Quoted(s))
  {
    if s != [] {
      QuotedPlain(s[..|s| - 1]);
      EscapePlain(s[|s| - 1]);
    }
  }

  /** The encoder never emits a line break, whatever strings the value contains. */
  lemma {:induction false} DumpsPlain(j: Json)
    ensures Plain(Dumps(j))
    decreases j, 1
  {
    match j
    case Null =>
    case Bool(_) =>
    case Number(n) => IntPlain(n);
    case Text(s) => QuotedPlain(s);
    case Array(items) => ItemsPlain(items);
    case Object(members) => MembersPlain(members);
  }

  lemma {:induction false} ItemsPlain(items: seq<Json>)
    ensures Plain(DumpItems(items))
    decreases items, 0
  {
    if items != [] {
      DumpsPlain(items[0]);
      ItemsPlain(items[1..]);
    }
  }

  lemma {:induction false} MembersPlain(members: seq<Member>)
    ensures Plain(DumpMembers(members))
    decreases members, 0
  {
    if members != [] {
      QuotedPlain(members[0].key);
      DumpsPlain(members[0].value);
      MembersPlain(members[1..]);
    }
  }

  // ---- the printer ----

  function TypeName(t: EventType): string {
    match t
    case RunStarted => "run.started"
    case RunAttemptFailed => "run.attempt_failed"
    case ModelResolved => "model.resolved"
    case LlmRequested => "llm.requested"
    case LlmCompleted => "llm.completed"
    case LlmFailed => "llm.failed"
    case LlmFallback => "llm.fallback"
    case LlmRetrying => "llm.retrying"
    case NodeStarted => "node.started"
    case NodeCompleted => "node.completed"
    case LlmToken => "llm.token"
    case ToolStarted => "tool.started"
    case ToolCompleted => "tool.completed"
    case RagStarted => "rag.started"
    case RagCompleted => "rag.completed"
    case SubagentStarted => "subagent.started"
    case SubagentCompleted => "subagent.completed"
    case ApprovalRequired => "approval.required"
    case CheckpointCreated => "checkpoint.created"
    case RunCompleted => "run.completed"
    case RunFailed => "run.failed"
    case RunCancelled => "run.cancelled"
  }

  lemma RunTypesPlain(t: EventType)
    requires t.RunStarted? || t.RunAttemptFailed? || t.RunCompleted? || t.RunFailed? || t.RunCancelled? || t.ModelResolved?
    ensures Plain(TypeName(t)) && TypeName(t) != []
  {
  }

  lemma ModelTypesPlain(t: EventType)
    requires t.LlmRequested? || t.LlmCompleted? || t.LlmFailed? || t.LlmFallback? || t.LlmRetrying? || t.LlmToken?
    ensures Plain(TypeName(t)) && TypeName(t) != []
  {
  }

  lemma NodeTypesPlain(t: EventType)
    requires t.NodeStarted? || t.NodeCompleted? || t.ToolStarted? || t.ToolCompleted? || t.RagStarted? || t.RagCompleted?
    ensures Plain(TypeName(t)) && TypeName(t) != []
  {
  }

  lemma OtherTypesPlain(t: EventType)
    requires t.SubagentStarted? || t.SubagentCompleted? || t.ApprovalRequired? || t.CheckpointCreated?
    ensures Plain(TypeName(t)) && TypeName(t) != []
  {
  }

  lemma TypeNamePlain(t: EventType)
    ensures Plain(TypeName(t)) && TypeName(t) != []
  {
    match t
    case RunStarted | RunAttemptFailed | RunCompleted | RunFailed | RunCancelled | ModelResolved => RunTypesPlain(t);
    case LlmRequested | LlmCompleted | LlmFailed | LlmFallback | LlmRetrying | LlmToken => ModelTypesPlain(t);
    case NodeStarted | NodeCompleted | ToolStarted | ToolCompleted | RagStarted | RagCompleted => NodeTypesPlain(t);
    case SubagentStarted | SubagentCompleted | ApprovalRequired | CheckpointCreated => OtherTypesPlain(t);
  }

  datatype Frame =
    | EventFrame(kind: EventType, payload: Json, seqNo: int, node: Option<string>)
    | CommentFrame

  function Data(f: Frame): Json
    requires f.EventFrame?
  {
    Object([Member("type", Text(TypeName(f.kind))), Member("seq", Number(f.seqNo)),
            Member("node", if f.node.Some? then Text(f.node.value) else Null), Member("payload", f.payload)])
  }

  function Print(f: Frame): string {
    match f
    case EventFrame(kind, _, seqNo, _) =>
      "id: " + IntText(seqNo) + "\n" + "event: " + TypeName(kind) + "\n" + "data: " + Dumps(Data(f)) + "\n" + "" + "\n"
    case CommentFrame => ": keep-alive" + "\n" + "" + "\n"
  }

  function PrintAll(frames: seq<Frame>): string {
    if frames == [] then "" else Print(frames[0]) + PrintAll(frames[1..])
  }

  // ---- the parser of section 9.2.6 ----

  predicate Break(c: char) { c == '\n' || c == '\r' }

  /** Length of the longest prefix without a line break. */
  function LineLength(s: string): (n: nat)
    ensures n <= |s|
    ensures n < |s| ==> Break(s[n])
    ensures forall i :: 0 <= i < n ==> !Break(s[i])
  {
    if s == [] || Break(s[0]) then 0 else 1 + LineLength(s[1..])
  }

  /** The complete lines of the stream; lines end in CR LF, LF or CR, and an unfinished last
      line is left out. */
  function Lines(s: string): seq<string>
    decreases |s|
  {
    var n := LineLength(s);
    if n == |s| then []
    else
      var skip := if s[n] == '\r' && n + 1 < |s| && s[n + 1] == '\n' then n + 2 else n + 1;
      [s[..n]] + Lines(s[skip..])
  }

  datatype Message = Message(id: string, kind: string, data: string)

  /** The data, event type and last event ID buffers, and the last event ID string of the event source,
      which is what a client sends when it reconnects. */
  datatype Buffers = Buffers(data: string, kind: string, id: string, last: string)

  /** Between two events, after one with this id. */
  function Boundary(id: string): Buffers {
    Buffers("", "", id, id)
  }

  /** Between two events of a connection: the id of the last one on it, and the last event ID string. */
  function Between(id: string, last: string): Buffers {
    Buffers("", "", id, last)
  }

  /** Position of the first colon, or the length. */
  function Colon(line: string): (n: nat)
    ensures n <= |line|
    ensures n < |line| ==> line[n] == ':'
    ensures forall i :: 0 <= i < n ==> line[i] != ':'
  {
    if line == [] || line[0] == ':' then 0 else 1 + Colon(line[1..])
  }

  function Field(b: Buffers, name: string, value: string): Buffers {
    if name == "event" then b.(kind := value)
    else if name == "data" then b.(data := b.data + value + "\n")
    else if name == "id" then (if '\0' in value then b else b.(id := value))
    else b
  }

  /** A blank line fixes the last event ID string, and sends a message if there is data. */
  function Dispatch(b: Buffers): (Buffers, seq<Message>) {
    if b.data == "" then (Boundary(b.id), [])
    else
      var data := if b.data[|b.data| - 1] == '\n' then b.data[..|b.data| - 1] else b.data;
      (Boundary(b.id), [Message(b.id, if b.kind == "" then "message" else b.kind, data)])
  }

  function Line(b: Buffers, line: string): (Buffers, seq<Message>) {
    if line == "" then Dispatch(b)
    else if line[0] == ':' then (b, [])
    else
      var n := Colon(line);
      if n == |line| then (Field(b, line, ""), [])
      else
        var value := line[n + 1..];
        (Field(b, line[..n], if value != "" && value[0] == ' ' then value[1..] else value), [])
  }

  function Interpret(b: Buffers, lines: seq<string>): (Buffers, seq<Message>)
    decreases |lines|
  {
    if lines == [] then (b, [])
    else
      var (b1, m1) := Line(b, lines[0]);
      var (b2, m2) := Interpret(b1, lines[1..]);
      (b2, m1 + m2)
  }

  /** The messages a client sees of a stream that ends here, and the buffers it is left with. A new
      connection starts with empty buffers; the last event ID string belongs to the client and stays. */
  function ParseFrom(last: string, s: string): (Buffers, seq<Message>) {
    Interpret(Between("", last), Lines(s))
  }

  /** The same for a client's first connection. */
  function Parse(s: string): (Buffers, seq<Message>) {
    ParseFrom("", s)
  }

  // ---- round trip ----

  function Messages(frames: seq<Frame>): seq<Message> {
    if frames == [] then [] else MessagesOf(frames[0]) + Messages(frames[1..])
  }

  lemma {:induction false} LineLengthIs(line: string, rest: string)
    requires Plain(line)
    ensures LineLength(line + "\n" + rest) == |line|
  {
    var s := line + "\n" + rest;
    if line != [] {
      assert s[1..] == line[1..] + "\n" + rest;
      LineLengthIs(line[1..], rest);
    }
  }

  lemma LinesCons(line: string, rest: string)
    requires Plain(line)
    ensures Lines(line + "\n" + rest) == [line] + Lines(rest)
  {
    var s := line + "\n" + rest;
    LineLengthIs(line, rest);
    assert s[|line|] == '\n' && s[..|line|] == line && s[|line| + 1..] == rest;
  }

  /** The lines one frame consists of. */
  function FrameLines(f: Frame): seq<string> {
    match f
    case EventFrame(kind, _, seqNo, _) =>
      ["id: " + IntText(seqNo), "event: " + TypeName(kind), "data: " + Dumps(Data(f)), ""]
    case CommentFrame => [": keep-alive", ""]
  }

  function Joined(lines: seq<string>): string {
    if lines == [] then "" else lines[0] + "\n" + Joined(lines[1..])
  }

  lemma JoinedCons(line: string, lines: seq<string>)
    ensures Joined([line] + lines) == line + "\n" + Joined(lines)
  {
    assert ([line] + lines)[1..] == lines;
  }

  ghost predicate AllPlain(lines: seq<string>) {
    forall i :: 0 <= i < |lines| ==> Plain(lines[i])
  }

  lemma LinesStep(line: string, tail: string, rest: string, lines: seq<string>)
    requires Plain(line) && Lines(tail + rest) == lines
    ensures Lines(line + "\n" + tail + rest) == [line] + lines
  {
    assert line + "\n" + tail + rest == line + "\n" + (tail + rest);
    LinesCons(line, tail + rest);
  }

  lemma {:induction false} LinesJoined(lines: seq<string>, rest: string)
    requires AllPlain(lines)
    ensures Lines(Joined(lines) + rest) == lines + Lines(rest)
  {
    if lines == [] {
      assert Joined(lines) + rest == rest;
      assert lines + Lines(rest) == Lines(rest);
    } else {
      var first, later := lines[0], lines[1..];
      assert AllPlain(later);
      LinesJoined(later, rest);
      LinesStep(first, Joined(later), rest, later + Lines(rest));
      assert lines == [first] + later;
      RegroupLines([first], later, Lines(rest));
    }
  }

  lemma RegroupLines(a: seq<string>, b: seq<string>, c: seq<string>)
    ensures a + (b + c) == (a + b) + c
  {
  }

  lemma FourJoined(a: string, b: string, c: string, d: string)
    ensures Joined([a, b, c, d]) == a + "\n" + b + "\n" + c + "\n" + d + "\n"
  {
    JoinedCons(d, []);
    JoinedCons(c, [d]);
    JoinedCons(b, [c, d]);
    JoinedCons(a, [b, c, d]);
    assert [d] + [] == [d] && [c] + [d] == [c, d] && [b] + [c, d] == [b, c, d] && [a] + [b, c, d] == [a, b, c, d];
  }

  lemma PrintIsJoined(f: Frame)
    ensures Print(f) == Joined(FrameLines(f)) && AllPlain(FrameLines(f))
  {
    if f.EventFrame? {
      var n, kind, data := IntText(f.seqNo), TypeName(f.kind), Dumps(Data(f));
      IntPlain(f.seqNo);
      TypeNamePlain(f.kind);
      DumpsPlain(Data(f));
      PlainConcat("id: ", n);
      PlainConcat("event: ", kind);
      PlainConcat("data: ", data);
      FourJoined("id: " + n, "event: " + kind, "data: " + data, "");
      PrintText(n, kind, data);
    } else {
      JoinedCons("", []);
      JoinedCons(": keep-alive", [""]);
      assert [""] + [] == [""] && [": keep-alive"] + [""] == [": keep-alive", ""];
      assert ": keep-alive" + "\n" + ("" + "\n" + "") == ": keep-alive" + "\n" + "" + "\n";
    }
  }

  lemma PrintText(n: string, kind: string, data: string)
    ensures "id: " + n + "\n" + "event: " + kind + "\n" + "data: " + data + "\n" + "" + "\n"
         == ("id: " + n) + "\n" + ("event: " + kind) + "\n" + ("data: " + data) + "\n" + "" + "\n"
  {
  }

  lemma FieldLine(b: Buffers, name: string, value: string)
    requires name == "id" || name == "event" || name == "data"
    ensures Line(b, name + ": " + value) == (Field(b, name, value), [])
  {
    var line := name + ": " + value;
    assert line[0] == name[0];
    assert Colon(line) == |name| by {
      assert line[|name|] == ':';
      assert forall i :: 0 <= i < |name| ==> line[i] == name[i] && name[i] != ':';
    }
    assert line[..|name|] == name;
    assert line[|name| + 1..] == " " + value;
    assert (" " + value)[1..] == value;
  }

  lemma {:induction false} InterpretConcat(b: Buffers, xs: seq<string>, ys: seq<string>)
    decreases |xs|
    ensures var (b1, m1) := Interpret(b, xs);
            var (b2, m2) := Interpret(b1, ys);
            Interpret(b, xs + ys) == (b2, m1 + m2)
  {
    if xs == [] {
      assert xs + ys == ys;
      assert [] + Interpret(b, ys).1 == Interpret(b, ys).1;
    } else {
      var (b0, m0) := Line(b, xs[0]);
      InterpretConcat(b0, xs[1..], ys);
      assert (xs + ys)[1..] == xs[1..] + ys;
      var (b1, m1) := Interpret(b0, xs[1..]);
      var (b2, m2) := Interpret(b1, ys);
      assert m0 + (m1 + m2) == (m0 + m1) + m2;
    }
  }

  lemma InterpretCons(b: Buffers, line: string, lines: seq<string>)
    ensures var (b1, m1) := Line(b, line);
            var (b2, m2) := Interpret(b1, lines);
            Interpret(b, [line] + lines) == (b2, m1 + m2)
  {
    assert ([line] + lines)[1..] == lines;
  }

  lemma PlainHasNoNul(s: string)
    requires Plain(s)
    ensures '\0' !in s
  {
  }

  lemma EventLines(id: string, last: string, n: string, kind: string, data: string)
    requires '\0' !in n && kind != ""
    ensures Interpret(Between(id, last), ["id: " + n, "event: " + kind, "data: " + data, ""])
         == (Boundary(n), [Message(n, kind, data)])
  {
    var l1, l2, l3 := "id: " + n, "event: " + kind, "data: " + data;
    var b1, b2, b3 := Between(n, last), Buffers("", kind, n, last), Buffers(data + "\n", kind, n, last);
    LineId(id, last, n);
    LineEvent(last, n, kind);
    LineData(last, n, kind, data);
    InterpretCons(b3, "", []);
    InterpretCons(b2, l3, [""]);
    InterpretCons(b1, l2, [l3, ""]);
    InterpretCons(Between(id, last), l1, [l2, l3, ""]);
    var m := [Message(n, kind, data)];
    assert m + [] == m && [] + m == m;
    assert [l1] + [l2, l3, ""] == [l1, l2, l3, ""] && [l2] + [l3, ""] == [l2, l3, ""] && [l3] + [""] == [l3, ""] && [""] + [] == [""];
  }

  lemma LineId(id: string, last: string, n: string)
    requires '\0' !in n
    ensures Line(Between(id, last), "id: " + n) == (Between(n, last), [])
  {
    FieldLine(Between(id, last), "id", n);
    assert "id" + ": " + n == "id: " + n;
  }

  lemma LineEvent(last: string, n: string, kind: string)
    ensures Line(Between(n, last), "event: " + kind) == (Buffers("", kind, n, last), [])
  {
    FieldLine(Between(n, last), "event", kind);
    assert "event" + ": " + kind == "event: " + kind;
  }

  lemma LineData(last: string, n: string, kind: string, data: string)
    requires kind != ""
    ensures Line(Buffers("", kind, n, last), "data: " + data) == (Buffers(data + "\n", kind, n, last), [])
    ensures Line(Buffers(data + "\n", kind, n, last), "") == (Boundary(n), [Message(n, kind, data)])
  {
    FieldLine(Buffers("", kind, n, last), "data", data);
    assert "data" + ": " + data == "data: " + data;
    assert "" + data + "\n" == data + "\n";
    assert (data + "\n")[..|data|] == data;
  }

  /** The messages that one frame becomes: one for an event, none for a comment. */
  function MessagesOf(f: Frame): seq<Message> {
    if f.EventFrame? then [Message(IntText(f.seqNo), TypeName(f.kind), Dumps(Data(f)))] else []
  }

  function IdAfter(f: Frame, id: string): string {
    if f.EventFrame? then IntText(f.seqNo) else id
  }

  lemma FrameInterpreted(id: string, last: string, f: Frame)
    ensures Interpret(Between(id, last), FrameLines(f)) == (Boundary(IdAfter(f, id)), MessagesOf(f))
  {
    if f.EventFrame? {
      IntPlain(f.seqNo);
      PlainHasNoNul(IntText(f.seqNo));
      TypeNamePlain(f.kind);
      EventLines(id, last, IntText(f.seqNo), TypeName(f.kind), Dumps(Data(f)));
    } else {
      var b := Between(id, last);
      InterpretCons(b, "", []);
      InterpretCons(b, ": keep-alive", [""]);
      assert [""] + [] == [""] && [": keep-alive"] + [""] == [": keep-alive", ""];
    }
  }

  /** A whole frame in front of the rest of a stream. */
  lemma FrameFirst(id: string, last: string, f: Frame, rest: string)
    ensures Interpret(Between(id, last), Lines(Print(f) + rest)).1
              == MessagesOf(f) + Interpret(Boundary(IdAfter(f, id)), Lines(rest)).1
    ensures Interpret(Between(id, last), Lines(Print(f) + rest)).0 == Interpret(Boundary(IdAfter(f, id)), Lines(rest)).0
  {
    PrintIsJoined(f);
    LinesJoined(FrameLines(f), rest);
    FrameInterpreted(id, last, f);
    InterpretConcat(Between(id, last), FrameLines(f), Lines(rest));
  }

  lemma {:induction false} FramesInterpreted(id: string, last: string, frames: seq<Frame>)
    ensures Interpret(Between(id, last), Lines(PrintAll(frames))).1 == Messages(frames)
    decreases |frames|
  {
    if frames != [] {
      FrameFirst(id, last, frames[0], PrintAll(frames[1..]));
      FramesInterpreted(IdAfter(frames[0], id), IdAfter(frames[0], id), frames[1..]);
    }
  }

  /** Round trip: parsing any concatenation of event frames and keep-alive comments gives back
      the ids, types and data of exactly the events, in order. */
  lemma ParsePrintAll(frames: seq<Frame>)
    ensures Parse(PrintAll(frames)).1 == Messages(frames)
  {
    FramesInterpreted("", "", frames);
  }

  // ---- a stream cut anywhere ----

  lemma {:induction false} NoBreakNoLine(s: string)
    requires Plain(s)
    ensures Lines(s) == []
  {
    NoBreakLength(s);
  }

  lemma {:induction false} NoBreakLength(s: string)
    requires Plain(s)
    ensures LineLength(s) == |s|
  {
    if s != [] {
      NoBreakLength(s[1..]);
    }
  }

  /** A cut inside joined lines leaves the complete ones before it. */
  lemma {:induction false} LinesCut(lines: seq<string>, n: nat) returns (k: nat)
    requires AllPlain(lines) && n < |Joined(lines)|
    ensures k < |lines| && Lines(Joined(lines)[..n]) == lines[..k]
  {
    var first, later := lines[0], lines[1..];
    if n <= |first| {
      assert Joined(lines)[..n] == first[..n];
      NoBreakNoLine(first[..n]);
      k := 0;
    } else {
      assert AllPlain(later);
      var i := LinesCut(later, n - |first| - 1);
      CutLater(first, Joined(later), n, later[..i]);
      k := i + 1;
      assert lines[..k] == [first] + later[..i];
    }
  }

  lemma CutLater(first: string, text: string, n: nat, lines: seq<string>)
    requires Plain(first) && |first| < n <= |first| + 1 + |text| && Lines(text[..n - |first| - 1]) == lines
    ensures Lines((first + "\n" + text)[..n]) == [first] + lines
  {
    CutText(first, text, n);
    LinesCons(first, text[..n - |first| - 1]);
  }

  lemma CutText(first: string, later: string, n: nat)
    requires |first| < n <= |first| + 1 + |later|
    ensures (first + "\n" + later)[..n] == first + "\n" + later[..n - |first| - 1]
  {
  }

  /** Without a blank line nothing is sent, and the last event ID string stays. */
  lemma {:induction false} NoBlankNoMessage(b: Buffers, lines: seq<string>)
    requires "" !in lines
    ensures Interpret(b, lines).1 == [] && Interpret(b, lines).0.last == b.last
    decreases |lines|
  {
    if lines != [] {
      assert lines[0] in lines && lines[0] != "";
      NoBlankNoMessage(Line(b, lines[0]).0, lines[1..]);
    }
  }

  lemma OnlyLastIsBlank(f: Frame, k: nat)
    requires k < |FrameLines(f)|
    ensures "" !in FrameLines(f)[..k]
  {
    assert forall i :: 0 <= i < |FrameLines(f)| - 1 ==> FrameLines(f)[i] != "";
  }

  lemma FrameCut(id: string, last: string, f: Frame, n: nat)
    requires n < |Print(f)|
    ensures Interpret(Between(id, last), Lines(Print(f)[..n])).1 == []
    ensures Interpret(Between(id, last), Lines(Print(f)[..n])).0.last == last
  {
    PrintIsJoined(f);
    var k := LinesCut(FrameLines(f), n);
    OnlyLastIsBlank(f, k);
    NoBlankNoMessage(Between(id, last), FrameLines(f)[..k]);
  }

  /** The frames that are whole in the first `n` characters. */
  function Whole(frames: seq<Frame>, n: nat): (q: seq<Frame>)
    ensures q <= frames
  {
    if frames == [] || n < |Print(frames[0])| then [] else [frames[0]] + Whole(frames[1..], n - |Print(frames[0])|)
  }

  /** The id of the last event among the frames, or the given one. */
  function LastId(id: string, frames: seq<Frame>): string {
    if frames == [] then id
    else if frames[|frames| - 1].EventFrame? then IntText(frames[|frames| - 1].seqNo)
    else LastId(id, frames[..|frames| - 1])
  }

  lemma {:induction false} LastIdCons(id: string, f: Frame, frames: seq<Frame>)
    ensures LastId(id, [f] + frames) == LastId(IdAfter(f, id), frames)
  {
    var all := [f] + frames;
    if frames != [] {
      assert all[..|all| - 1] == [f] + frames[..|frames| - 1];
      LastIdCons(id, f, frames[..|frames| - 1]);
    } else {
      assert all[..0] == [];
    }
  }

  lemma {:induction false} CutInterpreted(id: string, last: string, frames: seq<Frame>, n: nat)
    requires n <= |PrintAll(frames)|
    ensures Interpret(Between(id, last), Lines(PrintAll(frames)[..n])).1 == Messages(Whole(frames, n))
    ensures Interpret(Between(id, last), Lines(PrintAll(frames)[..n])).0.last
              == if Whole(frames, n) == [] then last else LastId(id, Whole(frames, n))
    decreases |frames|
  {
    if frames == [] {
      assert PrintAll(frames)[..n] == "";
    } else {
      var f, rest := frames[0], PrintAll(frames[1..]);
      if n < |Print(f)| {
        assert PrintAll(frames)[..n] == Print(f)[..n];
        FrameCut(id, last, f, n);
      } else {
        FrameThenCut(Print(f), rest, n);
        FrameFirst(id, last, f, rest[..n - |Print(f)|]);
        CutInterpreted(IdAfter(f, id), IdAfter(f, id), frames[1..], n - |Print(f)|);
        WholeCons(id, frames, n);
      }
    }
  }

  lemma FrameThenCut(frame: string, rest: string, n: nat)
    requires |frame| <= n <= |frame| + |rest|
    ensures (frame + rest)[..n] == frame + rest[..n - |frame|]
  {
  }

  lemma WholeCons(id: string, frames: seq<Frame>, n: nat)
    requires frames != [] && |Print(frames[0])| <= n
    ensures var got := Whole(frames[1..], n - |Print(frames[0])|);
            && Messages(Whole(frames, n)) == MessagesOf(frames[0]) + Messages(got)
            && LastId(id, Whole(frames, n)) == LastId(IdAfter(frames[0], id), got)
            && Whole(frames, n) != []
  {
    var got := Whole(frames[1..], n - |Print(frames[0])|);
    LastIdCons(id, frames[0], got);
    assert ([frames[0]] + got)[1..] == got;
  }

  lemma {:induction false} MessagesPrefix(a: seq<Frame>, b: seq<Frame>)
    requires a <= b
    ensures Messages(a) <= Messages(b)
  {
    if a != [] {
      MessagesPrefix(a[1..], b[1..]);
    }
  }

  /** Wherever a connection is cut, the client has seen exactly the events that are whole before the cut.
      The id it will send back is that of the last of them; with none of them it is the id it came with,
      but only if no keep-alive was whole either: that one empties it. */
  lemma CutAnywhere(last: string, frames: seq<Frame>, n: nat)
    requires n <= |PrintAll(frames)|
    ensures var (b, m) := ParseFrom(last, PrintAll(frames)[..n]); var got := Whole(frames, n);
            && m == Messages(got) && m <= Messages(frames)
            && b.last == if got == [] then last else LastId("", got)
  {
    CutInterpreted("", last, frames, n);
    MessagesPrefix(Whole(frames, n), frames);
  }

  function Events(frames: seq<Frame>): (q: seq<Frame>)
    ensures AllEvents(q)
  {
    if frames == [] then [] else (if frames[0].EventFrame? then [frames[0]] else []) + Events(frames[1..])
  }

  predicate AllEvents(frames: seq<Frame>) {
    forall i :: 0 <= i < |frames| ==> frames[i].EventFrame?
  }

  lemma {:induction false} MessagesOfEvents(frames: seq<Frame>)
    ensures Messages(Events(frames)) == Messages(frames)
    ensures |Messages(frames)| == |Events(frames)|
  {
    if frames != [] {
      MessagesOfEvents(frames[1..]);
      var f, more := frames[0], Events(frames[1..]);
      if f.EventFrame? {
        assert ([f] + more)[1..] == more;
      } else {
        assert [] + more == more;
      }
    }
  }

  lemma {:induction false} MessagesConcat(a: seq<Frame>, b: seq<Frame>)
    ensures Messages(a + b) == Messages(a) + Messages(b)
  {
    if a == [] {
      assert a + b == b;
    } else {
      assert (a + b)[1..] == a[1..] + b;
      MessagesConcat(a[1..], b);
    }
  }

  lemma {:induction false} EventsConcat(a: seq<Frame>, b: seq<Frame>)
    ensures Events(a + b) == Events(a) + Events(b)
  {
    if a == [] {
      assert a + b == b;
    } else {
      assert (a + b)[1..] == a[1..] + b;
      EventsConcat(a[1..], b);
    }
  }

  /** The header of a reconnect: the last event ID string, unless it is empty. */
  function ReconnectHeader(last: string): Option<string> {
    if last == "" then None else Some(last)
  }
}
