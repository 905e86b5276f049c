/** The session of `Streaming` read by the parser of `Wire`: where a reconnecting client starts is what its
    parser kept, and when that is not the last event it received. */
module Reconnect {
  import opened Domain
  import EventLog
  import opened Wire
  import opened Connections
  import opened Streaming

  /** How the payload of a stored row is read as JSON. */
  type Payloads = string -> Json

  function FrameOf(read: Payloads, item: Item): Frame {
    match item
    case Sent(row) => EventFrame(row.event.kind, read(row.event.payload), row.seqNo, row.event.node)
    case KeepAlive => CommentFrame
  }

  function FramesOf(read: Payloads, rows: seq<EventLog.Row>): seq<Frame> {
    if rows == [] then [] else FramesOf(read, rows[..|rows| - 1]) + [FrameOf(read, Sent(rows[|rows| - 1]))]
  }

  /** The frames that came over whole on each connection so far. */
  function Record(read: Payloads, s: Session, came: seq<seq<Frame>>, l: Label): seq<seq<Frame>> {
    if l.Connect? then came + [[]]
    else if l.Deliver? && came != [] && s.conn.Some? && s.conn.value.wire != [] then
      came[..|came| - 1] + [came[|came| - 1] + [FrameOf(read, s.conn.value.wire[0])]]
    else came
  }

  ghost function Recorded(read: Payloads, s: Session, came: seq<seq<Frame>>, ls: seq<Label>): seq<seq<Frame>>
    requires Legal(s, ls)
    decreases |ls|
  {
    if ls == [] then came else Recorded(read, Next(s, ls[0]), Record(read, s, came, ls[0]), ls[1..])
  }

  // ---- the session and what came over ----

  /** The frames, the rows received, and the last event ID string belong together. */
  ghost predicate Told(read: Payloads, s: Session, came: seq<seq<Frame>>) {
    && Arrived(came, |came|) == FramesOf(read, s.received)
    && Kept(came, |came|) == s.last
    && (s.conn.Some? ==> came != [] && s.conn.value.id == LastNumber(came[|came| - 1]))
  }

  lemma {:induction false} SameBefore(a: seq<seq<Frame>>, b: seq<seq<Frame>>, n: nat)
    requires n <= |a| && n <= |b| && forall i :: 0 <= i < n ==> a[i] == b[i]
    ensures Arrived(a, n) == Arrived(b, n) && Kept(a, n) == Kept(b, n)
  {
    if n > 0 {
      SameBefore(a, b, n - 1);
    }
  }

  lemma ConnectTold(read: Payloads, s: Session, came: seq<seq<Frame>>)
    requires Told(read, s, came) && Enabled(s, Connect)
    ensures Told(read, DoConnect(s), came + [[]])
  {
    SameBefore(came, came + [[]], |came|);
    assert Arrived(came, |came|) + [] == Arrived(came, |came|);
  }

  lemma EventLast(now: seq<Frame>, f: Frame)
    ensures Events(now + [f]) == Events(now) + if f.EventFrame? then [f] else []
    ensures LastNumber(now + [f]) == if f.EventFrame? then Some(f.seqNo) else LastNumber(now)
  {
    EventsConcat(now, [f]);
    assert [f][1..] == [];
    assert (now + [f])[..|now|] == now;
  }

  /** A whole frame arrives on the last connection. */
  lemma FrameArrives(came: seq<seq<Frame>>, more: seq<seq<Frame>>, n: nat, f: Frame)
    requires |came| == |more| == n + 1 && (forall i :: 0 <= i < n ==> came[i] == more[i]) && more[n] == came[n] + [f]
    ensures Arrived(more, n + 1) == Arrived(came, n + 1) + if f.EventFrame? then [f] else []
    ensures Kept(more, n + 1) == LastNumber(more[n])
  {
    SameBefore(came, more, n);
    EventLast(came[n], f);
    Regroup(Arrived(came, n), Events(came[n]), if f.EventFrame? then [f] else []);
  }

  lemma Regroup(a: seq<Frame>, b: seq<Frame>, c: seq<Frame>)
    ensures a + (b + c) == a + b + c
  {
  }

  lemma FramesOfSnoc(read: Payloads, rows: seq<EventLog.Row>, row: EventLog.Row)
    ensures FramesOf(read, rows + [row]) == FramesOf(read, rows) + [FrameOf(read, Sent(row))]
  {
    assert (rows + [row])[..|rows|] == rows;
  }

  lemma DeliverTold(read: Payloads, s: Session, came: seq<seq<Frame>>, more: seq<seq<Frame>>)
    requires Told(read, s, came) && Enabled(s, Deliver) && more == Record(read, s, came, Deliver)
    ensures Told(read, DoDeliver(s), more)
  {
    var item := s.conn.value.wire[0];
    var f, n := FrameOf(read, item), |came| - 1;
    FrameArrives(came, more, n, f);
    EventLast(came[n], f);
    if item.Sent? {
      FramesOfSnoc(read, s.received, item.row);
    } else {
      assert s.received + [] == s.received && Arrived(came, n + 1) + [] == Arrived(came, n + 1);
    }
  }

  lemma StepTold(read: Payloads, s: Session, came: seq<seq<Frame>>, l: Label)
    requires Told(read, s, came) && Enabled(s, l)
    ensures Told(read, Next(s, l), Record(read, s, came, l))
  {
    match l
    case Connect => ConnectTold(read, s, came);
    case Deliver => DeliverTold(read, s, came, Record(read, s, came, Deliver));
    case _ =>
  }

  lemma {:induction false} RunTold(read: Payloads, s: Session, came: seq<seq<Frame>>, ls: seq<Label>)
    requires Told(read, s, came) && Legal(s, ls)
    ensures Told(read, Exec(s, ls), Recorded(read, s, came, ls))
    decreases |ls|
  {
    if ls != [] {
      StepTold(read, s, came, ls[0]);
      RunTold(read, Next(s, ls[0]), Record(read, s, came, ls[0]), ls[1..]);
    }
  }

  /** In every run, for all texts that bring these frames, cut anywhere: what the parser makes of them is
      exactly the rows received, and the header it sends takes the server to the cursor of the model. */
  lemma ParserGivesCursor(read: Payloads, first: int, ls: seq<Label>, texts: seq<string>)
    requires Legal(Init(first), ls) && AllBring(texts, Recorded(read, Init(first), [], ls))
    ensures var s := Exec(Init(first), ls);
            && Client(Parser(), texts, |texts|).messages == Messages(FramesOf(read, s.received))
            && StartCursor(first, ReconnectHeader(Client(Parser(), texts, |texts|).last)) == ReconnectCursor(s)
  {
    var came := Recorded(read, Init(first), [], ls);
    RunTold(read, Init(first), [], ls);
    FirstNeverChanges(Init(first), ls);
    HeaderIsLastExactly(texts, came, |came|);
    KeptExactly(came, |came|);
    IdReadBack(Exec(Init(first), ls).last);
  }

  /** As long as no event has arrived twice, the next connection is stale exactly when, after the last event,
      a later connection has brought a whole keep-alive. */
  lemma StaleExactlyWhenEmptied(read: Payloads, first: int, ls: seq<Label>)
    requires Legal(Init(first), ls) && !AnyStaleRow(Init(first), ls)
    ensures var s := Exec(Init(first), ls); var came := Recorded(read, Init(first), [], ls);
            DoConnect(s).conn.value.stale <==> Emptied(came, |came|)
  {
    var s, came := Exec(Init(first), ls), Recorded(read, Init(first), [], ls);
    RunTold(read, Init(first), [], ls);
    RunKeepsOrder(Init(first), ls);
    StaleExactly(s);
    KeptExactly(came, |came|);
    ArrivedEvents(came, |came|);
    EventsNumbered(Arrived(came, |came|));
    FramesCount(read, s.received);
  }

  lemma {:induction false} FramesCount(read: Payloads, rows: seq<EventLog.Row>)
    ensures |FramesOf(read, rows)| == |rows|
  {
    if rows != [] {
      FramesCount(read, rows[..|rows| - 1]);
    }
  }

  // ---- a client that receives an event twice ----

  ghost predicate Reached(first: int, s: Session) {
    exists ls :: Legal(Init(first), ls) && Exec(Init(first), ls) == s
  }

  lemma {:induction false} OneMore(s: Session, ls: seq<Label>, l: Label)
    requires Legal(s, ls) && Enabled(Exec(s, ls), l)
    ensures Legal(s, ls + [l]) && Exec(s, ls + [l]) == Next(Exec(s, ls), l)
    decreases |ls|
  {
    if ls == [] {
      assert [] + [l] == [l] && [l][1..] == [];
    } else {
      assert (ls + [l])[1..] == ls[1..] + [l];
      OneMore(Next(s, ls[0]), ls[1..], l);
    }
  }

  lemma ThenReached(first: int, s: Session, l: Label) returns (t: Session)
    requires Reached(first, s) && Enabled(s, l)
    ensures t == Next(s, l) && Reached(first, t)
  {
    var ls :| Legal(Init(first), ls) && Exec(Init(first), ls) == s;
    OneMore(Init(first), ls, l);
    t := Next(s, l);
  }

  ghost predicate Idle(s: Session) {
    s.conn.Some? && !s.conn.value.closed && s.conn.value.pending == [] && ListAfter(s.log, s.conn.value.cursor) == [] && !s.settled
  }

  /** Polls that find nothing send nothing before the fifteenth. */
  lemma {:induction false} IdlePolls(first: int, s: Session, n: nat) returns (t: Session)
    requires Reached(first, s) && Idle(s) && s.conn.value.idle == 0 && n < 15
    ensures Reached(first, t) && t == s.(conn := Some(s.conn.value.(idle := n)))
  {
    if n == 0 {
      t := s;
    } else {
      var u := IdlePolls(first, s, n - 1);
      t := ThenReached(first, u, Poll);
      assert u.conn.value.wire + [] == u.conn.value.wire;
    }
  }

  /** Connected at its first cursor, the client is sent the one row and drops off. */
  lemma ReceivesOnce(first: int, row: EventLog.Row, s: Session) returns (t: Session)
    requires Reached(first, s) && s.conn.None? && s.log == [row] && s.first == first < row.seqNo && s.last.None? && !s.settled
    ensures Reached(first, t) && t == s.(received := s.received + [row], last := Some(row.seqNo))
  {
    assert ListAfter([row], first) == [] + [row] by {
      assert [row][..0] == [];
    }
    var c := ThenReached(first, s, Connect);
    var p := ThenReached(first, c, Poll);
    var d := ThenReached(first, p, Send);
    var r := ThenReached(first, d, Deliver);
    t := ThenReached(first, r, Disconnect);
  }

  /** Connected again, it is sent nothing but a keep-alive and drops off. */
  lemma HearsKeepAlive(first: int, row: EventLog.Row, s: Session) returns (t: Session)
    requires Reached(first, s) && s.conn.None? && s.log == [row] && s.last == Some(row.seqNo) && !s.settled
    ensures Reached(first, t) && t == s.(last := None)
  {
    NothingAfter([row], row.seqNo);
    var c := ThenReached(first, s, Connect);
    var i := IdlePolls(first, c, 14);
    var p := ThenReached(first, i, Poll);
    assert p.conn.value.wire == [KeepAlive];
    var k := ThenReached(first, p, Deliver);
    t := ThenReached(first, k, Disconnect);
    assert s.received + [] == s.received;
  }

  /** A client that connects, hears a keep-alive and nothing else, and connects again, receives the one event
      of the log twice. */
  lemma KeepAliveThenRepeat(first: int, row: EventLog.Row) returns (s: Session)
    requires first < row.seqNo
    ensures Reached(first, s) && s.log == [row] && s.received == [row, row]
    ensures !(s.received <= ListAfter(s.log, first))
  {
    assert Legal(Init(first), []) && Exec(Init(first), []) == Init(first);
    assert [] + [row] == [row];
    var a := ThenReached(first, Init(first), AppendRow(row));
    var b := ReceivesOnce(first, row, a);
    var c := HearsKeepAlive(first, row, b);
    s := ReceivesOnce(first, row, c);
    assert s.received[0].seqNo == s.received[1].seqNo;
    RepeatsAreNoSlice(s.log, first, s.received);
  }
}
