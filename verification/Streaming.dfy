/** The event stream of one run: a server-side cursor loop, a client that reconnects with the
    last id it received, and a log that grows meanwhile. */
module Streaming {
  import opened Domain
  import opened EventLog

  /** The rows of one run, numbered upwards. */
  ghost predicate Ordered(log: seq<Row>) {
    forall i, k :: 0 <= i < k < |log| ==> log[i].seqNo < log[k].seqNo
  }

  /** `list_after`: the rows with a number above the cursor, in order. */
  function ListAfter(log: seq<Row>, cursor: int): seq<Row> {
    if log == [] then []
    else
      var last := log[|log| - 1];
      ListAfter(log[..|log| - 1], cursor) + if last.seqNo > cursor then [last] else []
  }

  lemma {:induction false} OfInRows(rows: seq<Row>, r: RunId)
    ensures forall i :: 0 <= i < |Of(rows, r)| ==> Of(rows, r)[i] in rows && Of(rows, r)[i].run == r
  {
    if rows != [] {
      OfInRows(rows[..|rows| - 1], r);
      var last := rows[|rows| - 1];
      assert rows == rows[..|rows| - 1] + [last];
    }
  }

  /** What the log guarantees is what the stream relies on. */
  lemma {:induction false} LogOfRunOrdered(rows: seq<Row>, r: RunId)
    requires Increasing(rows)
    ensures Ordered(Of(rows, r))
  {
    if rows != [] {
      var init := rows[..|rows| - 1];
      LogOfRunOrdered(init, r);
      OfInRows(init, r);
      var all := Of(rows, r);
      forall i, k | 0 <= i < k < |all|
        ensures all[i].seqNo < all[k].seqNo
      {
        if k == |Of(init, r)| {
          var x :| 0 <= x < |init| && init[x] == all[i];
          assert rows[x] == all[i] && rows[|rows| - 1] == all[k];
        }
      }
    }
  }

  /** `t` is the end of the log, and holds exactly the rows above the cursor. */
  ghost predicate Bounds(log: seq<Row>, cursor: int, t: seq<Row>) {
    && |t| <= |log| && t == log[|log| - |t|..]
    && (forall i :: 0 <= i < |t| ==> t[i].seqNo > cursor)
    && (forall i :: 0 <= i < |log| - |t| ==> log[i].seqNo <= cursor)
  }

  lemma BoundsSnoc(log: seq<Row>, cursor: int, t: seq<Row>, row: Row)
    requires Bounds(log, cursor, t) && row.seqNo > cursor
    ensures Bounds(log + [row], cursor, t + [row])
  {
    var n := |log| - |t|;
    assert (log + [row])[n..] == log[n..] + [row];
  }

  lemma {:induction false} ListAfterBounds(log: seq<Row>, cursor: int)
    requires Ordered(log)
    ensures Bounds(log, cursor, ListAfter(log, cursor))
  {
    if log != [] {
      var init, last := log[..|log| - 1], log[|log| - 1];
      assert log == init + [last];
      if last.seqNo > cursor {
        ListAfterBounds(init, cursor);
        BoundsSnoc(init, cursor, ListAfter(init, cursor), last);
      } else {
        forall i | 0 <= i < |log|
          ensures log[i].seqNo <= cursor
        {
          assert i < |log| - 1 ==> log[i].seqNo < last.seqNo;
        }
        NothingAfter(log, cursor);
      }
    }
  }

  /** A longer log only adds rows at the end of the list. */
  lemma {:induction false} ListAfterGrows(log: seq<Row>, more: seq<Row>, cursor: int)
    ensures ListAfter(log, cursor) <= ListAfter(log + more, cursor)
  {
    if more == [] {
      assert log + more == log;
    } else {
      var n := |more| - 1;
      assert (log + more)[..|log + more| - 1] == log + more[..n];
      ListAfterGrows(log, more[..n], cursor);
    }
  }

  lemma {:induction false} NothingAfter(log: seq<Row>, cursor: int)
    requires forall i :: 0 <= i < |log| ==> log[i].seqNo <= cursor
    ensures ListAfter(log, cursor) == []
  {
    if log != [] {
      NothingAfter(log[..|log| - 1], cursor);
    }
  }

  lemma ListAfterSnoc(log: seq<Row>, row: Row, cursor: int)
    ensures ListAfter(log + [row], cursor) == ListAfter(log, cursor) + if row.seqNo > cursor then [row] else []
  {
    assert (log + [row])[..|log|] == log;
  }

  /** A listed row has a number above the cursor and below that of the row that comes next. */
  lemma ListedBetween(log: seq<Row>, row: Row, cursor: int, k: nat)
    requires Ordered(log + [row]) && 0 < k <= |ListAfter(log, cursor)|
    ensures cursor < ListAfter(log, cursor)[k - 1].seqNo < row.seqNo
  {
    OrderedPrefix(log, row);
    ListAfterBounds(log, cursor);
    var t := ListAfter(log, cursor);
    assert t[k - 1] == log[|log| - |t| + k - 1];
    assert (log + [row])[|log|] == row && (log + [row])[|log| - |t| + k - 1] == t[k - 1];
  }

  lemma OrderedPrefix(log: seq<Row>, row: Row)
    requires Ordered(log + [row])
    ensures Ordered(log)
  {
    assert forall i :: 0 <= i < |log| ==> (log + [row])[i] == log[i];
  }

  /** Moving the cursor to the k-th listed row drops exactly the first k. */
  lemma {:induction false} ListAfterAdvance(log: seq<Row>, cursor: int, k: nat)
    requires Ordered(log) && 0 < k <= |ListAfter(log, cursor)|
    ensures ListAfter(log, ListAfter(log, cursor)[k - 1].seqNo) == ListAfter(log, cursor)[k..]
    decreases |log|
  {
    var init, last := log[..|log| - 1], log[|log| - 1];
    assert log == init + [last];
    var t0 := ListAfter(init, cursor);
    ListAfterSnoc(init, last, cursor);
    if k <= |t0| {
      ListedBetween(init, last, cursor, k);
      ListAfterAdvance(init, cursor, k);
      ListAfterSnoc(init, last, t0[k - 1].seqNo);
    } else {
      NothingAfter(log, last.seqNo);
    }
  }

  // ---- server and client as a transition system ----

  datatype Item = Sent(row: Row) | KeepAlive

  function RowsOf(items: seq<Item>): seq<Row> {
    if items == [] then []
    else
      var last := items[|items| - 1];
      RowsOf(items[..|items| - 1]) + if last.Sent? then [last.row] else []
  }

  lemma RowsOfSnoc(items: seq<Item>, item: Item)
    ensures RowsOf(items + [item]) == RowsOf(items) + if item.Sent? then [item.row] else []
  {
    assert (items + [item])[..|items|] == items;
  }

  lemma {:induction false} RowsOfFirst(items: seq<Item>)
    requires items != []
    ensures RowsOf(items) == (if items[0].Sent? then [items[0].row] else []) + RowsOf(items[1..])
  {
    var n := |items| - 1;
    if n == 0 {
      assert items[..0] == [] && items[1..] == [];
    } else {
      RowsOfFirst(items[..n]);
      assert items[1..] == items[..n][1..] + [items[n]];
      RowsOfSnoc(items[..n][1..], items[n]);
    }
  }

  /** One connection. `id` is the last event ID buffer of the client's parser; `stale` records whether the
      connection started elsewhere than at the last event received. */
  datatype Conn = Conn(cursor: int, pending: seq<Row>, wire: seq<Item>, sent: seq<Row>, closed: bool, idle: nat,
                       id: Option<int>, stale: bool)

  /** `first` is the cursor the client started from; `received` is all it ever got, and `last` the last event
      ID string, which outlives the connections. */
  datatype Session = Session(log: seq<Row>, settled: bool, first: int, received: seq<Row>, last: Option<int>, conn: Option<Conn>)

  datatype Label =
    | AppendRow(row: Row)
    | Settle(settled: bool)
    | Connect
    | Poll
    | Send
    | Deliver
    | Disconnect

  function Init(first: int): Session { Session([], false, first, [], None, None) }

  /** Where a connection starts: the id the client sends, or without one the cursor of the query. */
  function ReconnectCursor(s: Session): int {
    if s.last.Some? then s.last.value else s.first
  }

  function LastSeq(rows: seq<Row>, first: int): int {
    if rows == [] then first else rows[|rows| - 1].seqNo
  }

  ghost predicate Enabled(s: Session, l: Label) {
    match l
    case AppendRow(row) => Ordered(s.log + [row])
    case Settle(_) => true
    case Connect => s.conn.None?
    case Poll => s.conn.Some? && !s.conn.value.closed && s.conn.value.pending == []
    case Send => s.conn.Some? && s.conn.value.pending != []
    case Deliver => s.conn.Some? && s.conn.value.wire != []
    case Disconnect => s.conn.Some?
  }

  function DoConnect(s: Session): Session {
    var cursor := ReconnectCursor(s);
    s.(conn := Some(Conn(cursor, [], [], [], false, 0, None, cursor != LastSeq(s.received, s.first))))
  }

  /** List what is new; with nothing new, end if the run is settled, and else send a keep-alive every
      fifteenth time. */
  function DoPoll(s: Session): Session
    requires s.conn.Some?
  {
    var c := s.conn.value;
    var rows := ListAfter(s.log, c.cursor);
    s.(conn := Some(
      if rows != [] then c.(pending := rows, idle := 0)
      else if s.settled then c.(closed := true)
      else c.(idle := c.idle + 1, wire := c.wire + if (c.idle + 1) % 15 == 0 then [KeepAlive] else [])))
  }

  function DoSend(s: Session): Session
    requires s.conn.Some? && s.conn.value.pending != []
  {
    var c := s.conn.value;
    var row := c.pending[0];
    var over := TerminalType(row.event.kind);
    s.(conn := Some(c.(cursor := row.seqNo, pending := if over then [] else c.pending[1..],
                       wire := c.wire + [Sent(row)], sent := c.sent + [row], closed := over)))
  }

  /** A whole frame arrives: an event sets the id buffer, and the blank line that ends either kind of frame
      makes the buffer the last event ID string. */
  function DoDeliver(s: Session): Session
    requires s.conn.Some? && s.conn.value.wire != []
  {
    var c := s.conn.value;
    var item := c.wire[0];
    var id := if item.Sent? then Some(item.row.seqNo) else c.id;
    s.(received := s.received + if item.Sent? then [item.row] else [],
       last := id,
       conn := Some(c.(wire := c.wire[1..], id := id)))
  }

  ghost function Next(s: Session, l: Label): Session
    requires Enabled(s, l)
  {
    match l
    case AppendRow(row) => s.(log := s.log + [row])
    case Settle(settled) => s.(settled := settled)
    case Connect => DoConnect(s)
    case Poll => DoPoll(s)
    case Send => DoSend(s)
    case Deliver => DoDeliver(s)
    case Disconnect => s.(conn := None)
  }

  ghost predicate Legal(s: Session, ls: seq<Label>)
    decreases |ls|
  {
    ls == [] || (Enabled(s, ls[0]) && Legal(Next(s, ls[0]), ls[1..]))
  }

  ghost function Exec(s: Session, ls: seq<Label>): Session
    requires Legal(s, ls)
    decreases |ls|
  {
    if ls == [] then s else Exec(Next(s, ls[0]), ls[1..])
  }

  /** An event arrives on a connection that started elsewhere than at the last event received. */
  predicate StaleRow(s: Session, l: Label) {
    l.Deliver? && s.conn.Some? && s.conn.value.stale && s.conn.value.wire != [] && s.conn.value.wire[0].Sent?
  }

  ghost predicate AnyStaleRow(s: Session, ls: seq<Label>)
    requires Legal(s, ls)
    decreases |ls|
  {
    ls != [] && (StaleRow(s, ls[0]) || AnyStaleRow(Next(s, ls[0]), ls[1..]))
  }

  // ---- what every step keeps ----

  /** The cursor after the first `k` rows of the client's slice. */
  function CursorAt(s: Session, k: nat): int
    requires k <= |ListAfter(s.log, s.first)|
  {
    if k == 0 then s.first else ListAfter(s.log, s.first)[k - 1].seqNo
  }

  /** What the rows on the wire follow: all that was received, or nothing if the connection is stale. */
  function Base(s: Session): seq<Row>
    requires s.conn.Some?
  {
    if s.conn.value.stale then [] else s.received
  }

  /** Received, on the wire and pending, in this order, are a prefix of the client's slice; on a stale
      connection the last two are by themselves. */
  ghost predicate InOrder(s: Session) {
    var slice := ListAfter(s.log, s.first);
    && Ordered(s.log)
    && s.received <= slice
    && (s.conn.Some? ==>
          var c := s.conn.value;
          && Base(s) + RowsOf(c.wire) + c.pending <= slice
          && c.cursor == CursorAt(s, |Base(s) + RowsOf(c.wire)|))
  }

  /** The last event ID string is empty or that of the last event received; and on a stale connection it is
      empty. */
  ghost predicate IdKnown(s: Session) {
    && (s.last.Some? ==> s.received != [] && s.last.value == s.received[|s.received| - 1].seqNo)
    && (s.conn.Some? ==>
          && (s.conn.value.id.Some? ==> s.conn.value.id == s.last)
          && (s.conn.value.stale ==> s.received != [] && s.last.None?))
  }

  /** A connection sends nothing after a terminal event, and closes then. */
  ghost predicate StopsAtTerminal(s: Session) {
    s.conn.Some? ==>
      var c := s.conn.value;
      && (forall i :: 0 <= i < |c.sent| - 1 ==> !TerminalType(c.sent[i].event.kind))
      && (c.sent != [] && TerminalType(c.sent[|c.sent| - 1].event.kind) ==> c.closed && c.pending == [])
  }

  lemma AppendKeepsOrder(s: Session, row: Row)
    requires InOrder(s) && Ordered(s.log + [row])
    ensures InOrder(s.(log := s.log + [row]))
  {
    var t := s.(log := s.log + [row]);
    ListAfterGrows(s.log, [row], s.first);
  }

  lemma ConnectKeepsOrder(s: Session)
    requires InOrder(s) && IdKnown(s)
    ensures InOrder(DoConnect(s)) && IdKnown(DoConnect(s))
  {
    var t := DoConnect(s);
    assert Base(t) + [] == Base(t) && Base(t) + [] + [] == Base(t);
  }

  /** A poll lists exactly what follows in the slice. */
  lemma ListedFollows(s: Session, slice: seq<Row>, sent: seq<Row>)
    requires InOrder(s) && s.conn.Some? && s.conn.value.pending == []
    requires slice == ListAfter(s.log, s.first) && sent == Base(s) + RowsOf(s.conn.value.wire)
    ensures sent <= slice && sent + ListAfter(s.log, s.conn.value.cursor) == slice
  {
    assert sent + [] == sent;
    if |sent| > 0 {
      ListAfterAdvance(s.log, s.first, |sent|);
    } else {
      assert slice[0..] == slice;
    }
    assert slice[..|sent|] == sent;
    assert slice[..|sent|] + slice[|sent|..] == slice;
  }

  lemma PollKeepsOrder(s: Session)
    requires InOrder(s) && Enabled(s, Poll)
    ensures InOrder(DoPoll(s))
  {
    var c := s.conn.value;
    ListedFollows(s, ListAfter(s.log, s.first), Base(s) + RowsOf(c.wire));
    if ListAfter(s.log, c.cursor) == [] {
      RowsOfSnoc(c.wire, KeepAlive);
      SameRows(RowsOf(c.wire), c.wire);
    }
  }

  lemma SameRows(rows: seq<Row>, items: seq<Item>)
    ensures rows + [] == rows && items + [] == items
  {
  }

  /** Taking the next pending row. */
  lemma SliceStep(slice: seq<Row>, sent: seq<Row>, pending: seq<Row>)
    requires pending != [] && sent + pending <= slice
    ensures sent + [pending[0]] + pending[1..] <= slice && sent + [pending[0]] <= slice
    ensures slice[|sent|] == pending[0]
  {
    assert (sent + pending)[|sent|] == pending[0];
    assert sent + pending == sent + [pending[0]] + pending[1..];
    assert sent + [pending[0]] == slice[..|sent| + 1];
  }

  lemma SendKeepsOrder(s: Session)
    requires InOrder(s) && Enabled(s, Send)
    ensures InOrder(DoSend(s))
  {
    var c := s.conn.value;
    var row := c.pending[0];
    SliceStep(ListAfter(s.log, s.first), Base(s) + RowsOf(c.wire), c.pending);
    RowsOfSnoc(c.wire, Sent(row));
    assert Base(s) + (RowsOf(c.wire) + [row]) == Base(s) + RowsOf(c.wire) + [row];
    assert Base(s) + RowsOf(c.wire) + [row] + [] == Base(s) + RowsOf(c.wire) + [row];
  }

  lemma EventKeepsOrder(s: Session)
    requires InOrder(s) && Enabled(s, Deliver) && s.conn.value.wire[0].Sent? && !s.conn.value.stale
    ensures InOrder(DoDeliver(s))
  {
    var c := s.conn.value;
    RowsOfFirst(c.wire);
    var row, later := c.wire[0].row, RowsOf(c.wire[1..]);
    assert s.received + ([row] + later) == s.received + [row] + later;
    assert s.received + [row] <= s.received + [row] + later + c.pending;
  }

  lemma KeepAliveKeepsOrder(s: Session)
    requires InOrder(s) && Enabled(s, Deliver) && s.conn.value.wire[0].KeepAlive?
    ensures InOrder(DoDeliver(s))
  {
    var c := s.conn.value;
    RowsOfFirst(c.wire);
    assert [] + RowsOf(c.wire[1..]) == RowsOf(c.wire[1..]);
    assert s.received + [] == s.received;
    assert Base(DoDeliver(s)) == Base(s);
  }

  lemma DeliverKeepsOrder(s: Session)
    requires InOrder(s) && IdKnown(s) && Enabled(s, Deliver) && !StaleRow(s, Deliver)
    ensures InOrder(DoDeliver(s)) && IdKnown(DoDeliver(s))
  {
    if s.conn.value.wire[0].Sent? {
      EventKeepsOrder(s);
    } else {
      KeepAliveKeepsOrder(s);
    }
  }

  lemma StepKeepsOrder(s: Session, l: Label)
    requires InOrder(s) && IdKnown(s) && Enabled(s, l) && !StaleRow(s, l)
    ensures InOrder(Next(s, l)) && IdKnown(Next(s, l))
  {
    match l
    case AppendRow(row) => AppendKeepsOrder(s, row);
    case Connect => ConnectKeepsOrder(s);
    case Poll => PollKeepsOrder(s);
    case Send => SendKeepsOrder(s);
    case Deliver => DeliverKeepsOrder(s);
    case _ =>
  }

  lemma StepKeepsStop(s: Session, l: Label)
    requires StopsAtTerminal(s) && Enabled(s, l)
    ensures StopsAtTerminal(Next(s, l))
  {
  }

  // ---- a row too many ----

  /** The first event on a stale connection is the first one ever received, once more. */
  lemma StaleRowRepeats(s: Session)
    requires InOrder(s) && IdKnown(s) && Enabled(s, Deliver) && StaleRow(s, Deliver)
    ensures !Ordered(DoDeliver(s).received)
  {
    var c := s.conn.value;
    var slice := ListAfter(s.log, s.first);
    RowsOfFirst(c.wire);
    assert ([] + RowsOf(c.wire) + c.pending)[0] == c.wire[0].row;
    assert slice[0] == c.wire[0].row && slice[0] == s.received[0];
    var all := s.received + [c.wire[0].row];
    assert all[0].seqNo == all[|s.received|].seqNo;
  }

  /** What was received stays received, and the log stays ordered. */
  lemma StepKeepsRepeats(s: Session, l: Label)
    requires !Ordered(s.received) && Ordered(s.log) && Enabled(s, l)
    ensures !Ordered(Next(s, l).received) && Ordered(Next(s, l).log)
  {
    var i, k :| 0 <= i < k < |s.received| && s.received[i].seqNo >= s.received[k].seqNo;
    assert s.received <= Next(s, l).received;
    assert Next(s, l).received[i] == s.received[i] && Next(s, l).received[k] == s.received[k];
  }

  lemma {:induction false} RunKeepsRepeats(s: Session, ls: seq<Label>)
    requires !Ordered(s.received) && Ordered(s.log) && StopsAtTerminal(s) && Legal(s, ls)
    ensures var t := Exec(s, ls); !Ordered(t.received) && Ordered(t.log) && StopsAtTerminal(t)
    decreases |ls|
  {
    if ls != [] {
      StepKeepsRepeats(s, ls[0]);
      StepKeepsStop(s, ls[0]);
      RunKeepsRepeats(Next(s, ls[0]), ls[1..]);
    }
  }

  lemma RepeatsAreNoSlice(log: seq<Row>, first: int, received: seq<Row>)
    requires Ordered(log) && !Ordered(received)
    ensures !(received <= ListAfter(log, first))
  {
    ListAfterBounds(log, first);
  }

  lemma {:induction false} RunKeepsOrder(s: Session, ls: seq<Label>)
    requires InOrder(s) && IdKnown(s) && StopsAtTerminal(s) && Legal(s, ls)
    ensures StopsAtTerminal(Exec(s, ls))
    ensures if AnyStaleRow(s, ls) then Ordered(Exec(s, ls).log) && !Ordered(Exec(s, ls).received)
            else InOrder(Exec(s, ls)) && IdKnown(Exec(s, ls))
    decreases |ls|
  {
    if ls != [] {
      StepKeepsStop(s, ls[0]);
      if StaleRow(s, ls[0]) {
        StaleRowRepeats(s);
        RunKeepsRepeats(Next(s, ls[0]), ls[1..]);
      } else {
        StepKeepsOrder(s, ls[0]);
        RunKeepsOrder(Next(s, ls[0]), ls[1..]);
      }
    }
  }

  /** Over any number of disconnects and reconnects, interleaved with appends, the client has received the
      log slice after its first cursor from its beginning, without gap, duplicate or reordering, exactly
      when no event has arrived on a stale connection; and each connection stops at the first terminal
      event. */
  lemma ReceivedIsLogSliceExactly(first: int, ls: seq<Label>)
    requires Legal(Init(first), ls)
    ensures var s := Exec(Init(first), ls);
            && (s.received <= ListAfter(s.log, first) <==> !AnyStaleRow(Init(first), ls))
            && StopsAtTerminal(s)
  {
    RunKeepsOrder(Init(first), ls);
    FirstNeverChanges(Init(first), ls);
    if AnyStaleRow(Init(first), ls) {
      RepeatsAreNoSlice(Exec(Init(first), ls).log, first, Exec(Init(first), ls).received);
    }
  }

  lemma {:induction false} FirstNeverChanges(s: Session, ls: seq<Label>)
    requires Legal(s, ls)
    ensures Exec(s, ls).first == s.first
    decreases |ls|
  {
    if ls != [] {
      FirstNeverChanges(Next(s, ls[0]), ls[1..]);
    }
  }

  /** A connection is stale exactly when it is made after an event was received and the last event ID string
      has been emptied. */
  lemma StaleExactly(s: Session)
    requires InOrder(s) && IdKnown(s)
    ensures DoConnect(s).conn.value.stale <==> s.received != [] && s.last.None?
  {
    if s.received != [] {
      ListAfterBounds(s.log, s.first);
      assert s.received[|s.received| - 1] == ListAfter(s.log, s.first)[|s.received| - 1];
    }
  }

  /** A client that a poll finds nothing more for, and whose wire is empty, has it all. */
  lemma CaughtUp(first: int, ls: seq<Label>)
    requires Legal(Init(first), ls) && !AnyStaleRow(Init(first), ls)
    requires var s := Exec(Init(first), ls);
             s.conn.Some? && s.conn.value.wire == [] && ListAfter(s.log, s.conn.value.cursor) == []
    ensures var s := Exec(Init(first), ls);
            s.received == ListAfter(s.log, first)
  {
    RunKeepsOrder(Init(first), ls);
    FirstNeverChanges(Init(first), ls);
    NothingMissing(Exec(Init(first), ls));
  }

  lemma NothingMissing(s: Session)
    requires InOrder(s) && IdKnown(s)
    requires s.conn.Some? && s.conn.value.wire == [] && ListAfter(s.log, s.conn.value.cursor) == []
    ensures s.received == ListAfter(s.log, s.first)
  {
    assert Base(s) + [] == Base(s);
    if Base(s) != [] {
      ListAfterAdvance(s.log, s.first, |s.received|);
    }
  }

  // ---- the generator itself ----

  /** What the loop sees at one turn: whether the client is gone, the log, and whether the
      run is terminal or paused. */
  datatype Turn = Turn(disconnected: bool, log: seq<Row>, settled: bool)

  /** The rows up to and including the first terminal one. */
  function ThroughTerminal(rows: seq<Row>): seq<Row> {
    if rows == [] then []
    else if TerminalType(rows[0].event.kind) then [rows[0]]
    else [rows[0]] + ThroughTerminal(rows[1..])
  }

  lemma {:induction false} ThroughTerminalCut(a: seq<Row>, t: Row, b: seq<Row>)
    requires forall i :: 0 <= i < |a| ==> !TerminalType(a[i].event.kind)
    ensures ThroughTerminal(a) == a
    ensures TerminalType(t.event.kind) ==> ThroughTerminal(a + [t] + b) == a + [t]
  {
    if a == [] {
      assert a + [t] + b == [t] + b;
    } else {
      ThroughTerminalCut(a[1..], t, b);
      assert (a + [t] + b)[1..] == a[1..] + [t] + b;
      assert a == [a[0]] + a[1..];
    }
  }

  /** The turns show one ordered log, each at least what the turn before showed. */
  ghost predicate Growing(turns: seq<Turn>, seen: seq<Row>)
    decreases |turns|
  {
    turns == [] || (Ordered(turns[0].log) && seen <= turns[0].log && Growing(turns[1..], turns[0].log))
  }

  /** The rows sent so far are the slice after the first cursor in the log last seen. */
  ghost predicate Caught(log: seq<Row>, first: int, cursor: int, rows: seq<Row>) {
    && rows == ListAfter(log, first)
    && cursor == LastSeq(rows, first)
    && NoTerminal(rows)
  }

  lemma PendingExtends(log: seq<Row>, longer: seq<Row>, first: int, cursor: int, rows: seq<Row>)
    requires Ordered(log) && Ordered(longer) && log <= longer && Caught(log, first, cursor, rows)
    ensures rows + ListAfter(longer, cursor) == ListAfter(longer, first)
  {
    ListAfterGrows(log, longer[|log|..], first);
    assert log + longer[|log|..] == longer;
    if rows != [] {
      assert ListAfter(longer, first)[|rows| - 1] == rows[|rows| - 1];
      ListAfterAdvance(longer, first, |rows|);
    }
  }

  predicate NoTerminal(rows: seq<Row>) {
    forall k :: 0 <= k < |rows| ==> !TerminalType(rows[k].event.kind)
  }

  lemma NoTerminalKeepsAll(rows: seq<Row>)
    requires NoTerminal(rows)
    ensures ThroughTerminal(rows) == rows
  {
    ThroughTerminalCut(rows, Row(0, 0, Event(RunFailed, None, ""), None), []);
  }

  lemma BatchEnds(start: seq<Row>, pending: seq<Row>, i: nat)
    requires i < |pending| && NoTerminal(start + pending[..i]) && TerminalType(pending[i].event.kind)
    ensures var rows := start + pending[..i] + [pending[i]];
            rows == ThroughTerminal(start + pending) && !NoTerminal(rows)
  {
    var rows := start + pending[..i];
    ThroughTerminalCut(rows, pending[i], pending[i + 1..]);
    assert rows + [pending[i]] + pending[i + 1..] == start + pending;
    assert TerminalType((rows + [pending[i]])[|rows|].event.kind);
  }

  /** Yield a batch row by row; stop after a terminal one. */
  method SendBatch(before: seq<Item>, pending: seq<Row>, ghost start: seq<Row>)
    returns (items: seq<Item>, cursor: int, over: bool, ghost rows: seq<Row>)
    requires pending != [] && NoTerminal(start) && start == RowsOf(before)
    ensures rows == RowsOf(items) && rows == ThroughTerminal(start + pending)
    ensures rows != [] && cursor == rows[|rows| - 1].seqNo
    ensures if over then !NoTerminal(rows) else rows == start + pending && NoTerminal(rows)
  {
    items, cursor, over, rows := before, pending[0].seqNo, false, start;
    for i := 0 to |pending|
      invariant rows == RowsOf(items) && rows == start + pending[..i]
      invariant i > 0 ==> cursor == pending[i - 1].seqNo
      invariant NoTerminal(rows)
    {
      var row := pending[i];
      RowsOfSnoc(items, Sent(row));
      cursor := row.seqNo;
      items := items + [Sent(row)];
      if TerminalType(row.event.kind) {
        BatchEnds(start, pending, i);
        rows := rows + [row];
        over := true;
        return;
      }
      rows := rows + [row];
    }
    assert pending[..|pending|] == pending;
    NoTerminalKeepsAll(rows);
  }

  /** One turn of the loop: list what is new, send it, or decide that nothing more will come. */
  method TakeTurn(first: int, turn: Turn, ghost seen: seq<Row>, before: seq<Item>, at: int, idle: nat, ghost start: seq<Row>)
    returns (items: seq<Item>, cursor: int, idlePolls: nat, finished: bool, ghost rows: seq<Row>)
    requires Ordered(seen) && Ordered(turn.log) && seen <= turn.log
    requires start == RowsOf(before) && Caught(seen, first, at, start)
    ensures rows == RowsOf(items) && rows == ThroughTerminal(ListAfter(turn.log, first))
    ensures cursor == LastSeq(rows, first)
    ensures if finished then turn.settled || !NoTerminal(rows) else Caught(turn.log, first, cursor, rows)
  {
    items, cursor, idlePolls, finished, rows := before, at, idle, false, start;
    var pending := ListAfter(turn.log, cursor);
    PendingExtends(seen, turn.log, first, cursor, start);
    if pending != [] {
      idlePolls := 0;
      items, cursor, finished, rows := SendBatch(items, pending, start);
    } else {
      assert start + [] == start;
      NoTerminalKeepsAll(start);
      if turn.settled {
        finished := true;
        return;
      }
      idlePolls := idlePolls + 1;
      if idlePolls % 15 == 0 {
        RowsOfSnoc(items, KeepAlive);
        items := items + [KeepAlive];
      }
    }
  }

  lemma CaughtMeans(log: seq<Row>, first: int, cursor: int, rows: seq<Row>)
    requires Caught(log, first, cursor, rows)
    ensures rows == ThroughTerminal(ListAfter(log, first)) && cursor == LastSeq(rows, first) && NoTerminal(rows)
  {
    NoTerminalKeepsAll(rows);
  }

  lemma NextTurnGrows(turns: seq<Turn>, k: nat, seen: seq<Row>)
    requires k < |turns| && Growing(turns[k..], seen)
    ensures Ordered(turns[k].log) && seen <= turns[k].log && Growing(turns[k + 1..], turns[k].log)
  {
    assert turns[k..][0] == turns[k] && turns[k..][1..] == turns[k + 1..];
  }

  /** The generator: it sends the slice of the log after its cursor, in order, up to and
      including the first terminal event, over however many turns the log takes to grow. */
  method EventGenerator(first: int, turns: seq<Turn>) returns (items: seq<Item>, cursor: int, used: nat, finished: bool)
    requires Growing(turns, [])
    ensures used <= |turns|
    ensures used == 0 ==> items == []
    ensures used > 0 ==> RowsOf(items) == ThroughTerminal(ListAfter(turns[used - 1].log, first))
    ensures !finished ==> (used == |turns| || turns[used].disconnected) && NoTerminal(RowsOf(items))
    ensures finished ==> used > 0 && (turns[used - 1].settled || !NoTerminal(RowsOf(items)))
    ensures cursor == LastSeq(RowsOf(items), first)
  {
    items, cursor, used, finished := [], first, 0, false;
    var idlePolls := 0;
    ghost var seen: seq<Row>, rows: seq<Row> := [], [];
    assert turns[0..] == turns;
    while used < |turns| && !turns[used].disconnected
      invariant used <= |turns|
      invariant Growing(turns[used..], seen)
      invariant seen == if used == 0 then [] else turns[used - 1].log
      invariant Ordered(seen) && rows == RowsOf(items) && Caught(seen, first, cursor, rows)
      invariant used == 0 ==> items == []
    {
      var turn := turns[used];
      NextTurnGrows(turns, used, seen);
      items, cursor, idlePolls, finished, rows := TakeTurn(first, turn, seen, items, cursor, idlePolls, rows);
      seen := turn.log;
      used := used + 1;
      if finished {
        return;
      }
    }
    CaughtMeans(seen, first, cursor, rows);
  }
}
