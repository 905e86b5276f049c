/** The durable event log: many transactions append to it, each in separate steps (lock,
    read the highest number, insert, commit) and each free to roll back before it commits. */
module EventLog {
  import opened Domain

  datatype EventType =
    | RunStarted | RunAttemptFailed | ModelResolved
    | LlmRequested | LlmCompleted | LlmFailed | LlmFallback | LlmRetrying
    | NodeStarted | NodeCompleted | LlmToken
    | ToolStarted | ToolCompleted | RagStarted | RagCompleted
    | SubagentStarted | SubagentCompleted | ApprovalRequired | CheckpointCreated
    | RunCompleted | RunFailed | RunCancelled

  /** The types under the partial unique index `uq_run_terminal_event`. */
  predicate TerminalType(t: EventType) {
    t.RunCompleted? || t.RunFailed? || t.RunCancelled?
  }

  datatype Event = Event(kind: EventType, node: Option<string>, payload: string)

  type EmitterId = nat
  type TxId = nat

  /** Which emitter an event came from and the position it was emitted at; none for events
      appended without an emitter. */
  type Origin = Option<(EmitterId, nat)>

  datatype Row = Row(run: RunId, seqNo: int, event: Event, origin: Origin)

  // ---- the table and its unique indexes ----

  /** The rows of one run, in the order they became visible. */
  function Of(rows: seq<Row>, r: RunId): seq<Row> {
    if rows == [] then []
    else
      var last := rows[|rows| - 1];
      Of(rows[..|rows| - 1], r) + if last.run == r then [last] else []
  }

  /** `coalesce(max(seq), -1)` over the rows of the run. */
  function MaxSeq(rows: seq<Row>, r: RunId): int {
    if rows == [] then -1
    else
      var last := rows[|rows| - 1];
      var m := MaxSeq(rows[..|rows| - 1], r);
      if last.run == r && last.seqNo > m then last.seqNo else m
  }

  predicate HasTerminal(rows: seq<Row>, r: RunId) {
    exists i :: 0 <= i < |rows| && rows[i].run == r && TerminalType(rows[i].event.kind)
  }

  /** The new row collides with a row under one of the two unique indexes. */
  predicate Conflicts(rows: seq<Row>, row: Row) {
    || (exists i :: 0 <= i < |rows| && rows[i].run == row.run && rows[i].seqNo == row.seqNo)
    || (TerminalType(row.event.kind) && HasTerminal(rows, row.run))
  }

  /** The rows a batch inserts on top of `rows`, numbered from `next`; a conflicting row is
      silently dropped but its number stays used up within the batch. */
  function Inserted(rows: seq<Row>, r: RunId, next: int, events: seq<Event>, origin: Origin): seq<Row> {
    if events == [] then []
    else
      var n := |events| - 1;
      var before := Inserted(rows, r, next, events[..n], origin);
      var row := Row(r, next + n, events[n], origin);
      if Conflicts(rows + before, row) then before else before + [row]
  }

  // ---- the transition system ----

  datatype Phase =
    | Waiting
    | Locked
    | Inserting(next: int, done: nat, buffer: seq<Row>)

  datatype Tx = Tx(run: RunId, events: seq<Event>, origin: Origin, phase: Phase)

  /** An emitter persists one event at a time, in emission order. */
  datatype Emitter = Emitter(run: RunId, emitted: seq<Event>, started: nat, inFlight: Option<TxId>)

  datatype State = State(
    rows: seq<Row>,
    txs: map<TxId, Tx>,
    locks: map<int, TxId>,
    emitters: map<EmitterId, Emitter>)

  datatype Label =
    | OpenEmitter(e: EmitterId, run: RunId)
    | Emit(e: EmitterId, event: Event)
    | Persist(e: EmitterId, t: TxId)
    | Append(t: TxId, run: RunId, events: seq<Event>)
    | Acquire(t: TxId)
    | ReadMax(t: TxId)
    | Insert(t: TxId)
    | Commit(t: TxId)
    | Rollback(t: TxId)

  function Init(): State { State([], map[], map[], map[]) }

  function Without<K, V>(m: map<K, V>, k: K): map<K, V> {
    m - {k}
  }

  /** `key` is the hash the advisory lock is taken on; different runs may share a key. */
  predicate Enabled(key: RunId -> int, s: State, l: Label) {
    match l
    case OpenEmitter(e, _) => e !in s.emitters
    case Emit(e, _) => e in s.emitters
    case Persist(e, t) =>
      e in s.emitters && t !in s.txs && s.emitters[e].inFlight.None? && s.emitters[e].started < |s.emitters[e].emitted|
    case Append(t, _, events) => t !in s.txs && events != []
    case Acquire(t) => t in s.txs && s.txs[t].phase.Waiting? && key(s.txs[t].run) !in s.locks
    case ReadMax(t) => t in s.txs && s.txs[t].phase.Locked?
    case Insert(t) => t in s.txs && s.txs[t].phase.Inserting? && s.txs[t].phase.done < |s.txs[t].events|
    case Commit(t) => t in s.txs && s.txs[t].phase.Inserting? && s.txs[t].phase.done == |s.txs[t].events|
    case Rollback(t) => t in s.txs
  }

  /** End of a transaction: its lock is released and its emitter may go on. */
  function Ended(key: RunId -> int, s: State, t: TxId): State
    requires t in s.txs
  {
    var tx := s.txs[t];
    var locks := if tx.phase.Waiting? then s.locks else Without(s.locks, key(tx.run));
    var emitters :=
      if tx.origin.Some? && tx.origin.value.0 in s.emitters
      then s.emitters[tx.origin.value.0 := s.emitters[tx.origin.value.0].(inFlight := None)]
      else s.emitters;
    s.(txs := Without(s.txs, t), locks := locks, emitters := emitters)
  }

  ghost function InsertOne(rows: seq<Row>, tx: Tx): Tx
    requires tx.phase.Inserting? && tx.phase.done < |tx.events|
  {
    var Inserting(next, done, buffer) := tx.phase;
    var row := Row(tx.run, next + done, tx.events[done], tx.origin);
    tx.(phase := Inserting(next, done + 1, if Conflicts(rows + buffer, row) then buffer else buffer + [row]))
  }

  ghost function Next(key: RunId -> int, s: State, l: Label): State
    requires Enabled(key, s, l)
  {
    match l
    case OpenEmitter(e, run) => s.(emitters := s.emitters[e := Emitter(run, [], 0, None)])
    case Emit(e, event) => s.(emitters := s.emitters[e := s.emitters[e].(emitted := s.emitters[e].emitted + [event])])
    case Persist(e, t) =>
      var em := s.emitters[e];
      s.(txs := s.txs[t := Tx(em.run, [em.emitted[em.started]], Some((e, em.started)), Waiting)],
         emitters := s.emitters[e := em.(started := em.started + 1, inFlight := Some(t))])
    case Append(t, run, events) => s.(txs := s.txs[t := Tx(run, events, None, Waiting)])
    case Acquire(t) => s.(locks := s.locks[key(s.txs[t].run) := t], txs := s.txs[t := s.txs[t].(phase := Locked)])
    case ReadMax(t) =>
      s.(txs := s.txs[t := s.txs[t].(phase := Inserting(MaxSeq(s.rows, s.txs[t].run) + 1, 0, []))])
    case Insert(t) => s.(txs := s.txs[t := InsertOne(s.rows, s.txs[t])])
    case Commit(t) => Ended(key, s, t).(rows := s.rows + s.txs[t].phase.buffer)
    case Rollback(t) => Ended(key, s, t)
  }

  ghost predicate Legal(key: RunId -> int, s: State, ls: seq<Label>)
    decreases |ls|
  {
    ls == [] || (Enabled(key, s, ls[0]) && Legal(key, Next(key, s, ls[0]), ls[1..]))
  }

  ghost function Exec(key: RunId -> int, s: State, ls: seq<Label>): State
    requires Legal(key, s, ls)
    decreases |ls|
  {
    if ls == [] then s else Exec(key, Next(key, s, ls[0]), ls[1..])
  }

  // ---- one batch ----

  lemma {:induction false} MaxSeqBounds(rows: seq<Row>, r: RunId)
    ensures -1 <= MaxSeq(rows, r)
    ensures forall i :: 0 <= i < |rows| && rows[i].run == r ==> rows[i].seqNo <= MaxSeq(rows, r)
  {
    if rows != [] {
      MaxSeqBounds(rows[..|rows| - 1], r);
      forall i | 0 <= i < |rows| && rows[i].run == r
        ensures rows[i].seqNo <= MaxSeq(rows, r)
      {
        if i < |rows| - 1 {
          assert rows[..|rows| - 1][i] == rows[i];
        }
      }
    }
  }

  /** All rows of run `r` are numbered below `next`. */
  ghost predicate Below(rows: seq<Row>, r: RunId, next: int) {
    forall i :: 0 <= i < |rows| && rows[i].run == r ==> rows[i].seqNo < next
  }

  ghost predicate Increasing(rows: seq<Row>) {
    forall i, k :: 0 <= i < k < |rows| && rows[i].run == rows[k].run ==> rows[i].seqNo < rows[k].seqNo
  }

  ghost predicate OneTerminal(rows: seq<Row>) {
    forall i, k :: 0 <= i < k < |rows| && rows[i].run == rows[k].run && TerminalType(rows[i].event.kind) ==>
                     !TerminalType(rows[k].event.kind)
  }

  ghost predicate AnyTerminal(events: seq<Event>) {
    exists k :: 0 <= k < |events| && TerminalType(events[k].kind)
  }

  /** Event `i` of a batch is dropped: it is terminal and the run already has a terminal
      event, in the log or earlier in the batch. */
  ghost predicate Dropped(rows: seq<Row>, r: RunId, events: seq<Event>, i: nat)
    requires i < |events|
  {
    TerminalType(events[i].kind) && (HasTerminal(rows, r) || AnyTerminal(events[..i]))
  }

  ghost predicate RowOf(row: Row, r: RunId, next: int, events: seq<Event>, origin: Origin) {
    && row.run == r && row.origin == origin
    && next <= row.seqNo < next + |events|
    && row.event == events[row.seqNo - next]
  }

  /** What a batch inserts: rows of its own events, in order, with at most one terminal row
      for the run in the end. */
  ghost predicate BatchOk(rows: seq<Row>, r: RunId, next: int, events: seq<Event>, origin: Origin, b: seq<Row>) {
    && |b| <= |events|
    && (forall i :: 0 <= i < |b| ==> RowOf(b[i], r, next, events, origin))
    && Increasing(b) && OneTerminal(b)
    && (HasTerminal(rows, r) ==> !HasTerminal(b, r))
    && ((HasTerminal(rows, r) || HasTerminal(b, r)) <==> (HasTerminal(rows, r) || AnyTerminal(events)))
  }

  lemma HasTerminalConcat(a: seq<Row>, b: seq<Row>, r: RunId)
    ensures HasTerminal(a + b, r) <==> HasTerminal(a, r) || HasTerminal(b, r)
  {
    if HasTerminal(a, r) {
      var i :| 0 <= i < |a| && a[i].run == r && TerminalType(a[i].event.kind);
      assert (a + b)[i] == a[i];
    }
    if HasTerminal(b, r) {
      var i :| 0 <= i < |b| && b[i].run == r && TerminalType(b[i].event.kind);
      assert (a + b)[|a| + i] == b[i];
    }
  }

  lemma AnyTerminalSnoc(events: seq<Event>, e: Event)
    ensures AnyTerminal(events + [e]) <==> AnyTerminal(events) || TerminalType(e.kind)
  {
    if AnyTerminal(events) {
      var k :| 0 <= k < |events| && TerminalType(events[k].kind);
      assert (events + [e])[k] == events[k];
    }
    assert (events + [e])[|events|] == e;
  }

  /** A conflict can only come from the terminal index, never from a number. */
  lemma ConflictIsDrop(rows: seq<Row>, r: RunId, next: int, events: seq<Event>, origin: Origin, before: seq<Row>)
    requires events != [] && Below(rows, r, next) && BatchOk(rows, r, next, events[..|events| - 1], origin, before)
    ensures var n := |events| - 1;
            Conflicts(rows + before, Row(r, next + n, events[n], origin)) <==> Dropped(rows, r, events, n)
  {
    var n := |events| - 1;
    HasTerminalConcat(rows, before, r);
    forall i | 0 <= i < |rows + before| && (rows + before)[i].run == r
      ensures (rows + before)[i].seqNo < next + n
    {
      if i >= |rows| {
        assert RowOf(before[i - |rows|], r, next, events[..n], origin);
      }
    }
  }

  lemma BatchAppend(rows: seq<Row>, r: RunId, next: int, events: seq<Event>, origin: Origin, before: seq<Row>)
    requires events != [] && BatchOk(rows, r, next, events[..|events| - 1], origin, before)
    requires !Dropped(rows, r, events, |events| - 1)
    ensures var n := |events| - 1;
            BatchOk(rows, r, next, events, origin, before + [Row(r, next + n, events[n], origin)])
  {
    var n := |events| - 1;
    var row := Row(r, next + n, events[n], origin);
    var b := before + [row];
    assert events == events[..n] + [events[n]];
    AnyTerminalSnoc(events[..n], events[n]);
    HasTerminalConcat(before, [row], r);
    assert HasTerminal([row], r) <==> TerminalType(row.event.kind) by {
      assert [row][0] == row;
    }
    forall i | 0 <= i < |b|
      ensures RowOf(b[i], r, next, events, origin) && (i < n && i < |before| ==> b[i].seqNo < row.seqNo)
    {
      if i < |before| {
        assert RowOf(before[i], r, next, events[..n], origin);
      }
    }
    forall i | 0 <= i < |before| && TerminalType(b[i].event.kind)
      ensures !TerminalType(row.event.kind)
    {
      assert RowOf(before[i], r, next, events[..n], origin);
      assert HasTerminal(before, r);
    }
  }

  lemma BatchSkip(rows: seq<Row>, r: RunId, next: int, events: seq<Event>, origin: Origin, before: seq<Row>)
    requires events != [] && BatchOk(rows, r, next, events[..|events| - 1], origin, before)
    requires Dropped(rows, r, events, |events| - 1)
    ensures BatchOk(rows, r, next, events, origin, before)
  {
    var n := |events| - 1;
    assert events == events[..n] + [events[n]];
    AnyTerminalSnoc(events[..n], events[n]);
    forall i | 0 <= i < |before|
      ensures RowOf(before[i], r, next, events, origin)
    {
      assert RowOf(before[i], r, next, events[..n], origin);
    }
  }

  lemma {:induction false} InsertedShape(rows: seq<Row>, r: RunId, next: int, events: seq<Event>, origin: Origin)
    requires Below(rows, r, next)
    ensures BatchOk(rows, r, next, events, origin, Inserted(rows, r, next, events, origin))
  {
    if events != [] {
      var n := |events| - 1;
      InsertedShape(rows, r, next, events[..n], origin);
      var before := Inserted(rows, r, next, events[..n], origin);
      ConflictIsDrop(rows, r, next, events, origin, before);
      if Dropped(rows, r, events, n) {
        BatchSkip(rows, r, next, events, origin, before);
      } else {
        BatchAppend(rows, r, next, events, origin, before);
      }
    }
  }

  /** A batch leaves no hole in the numbering exactly when nothing it keeps follows
      something it drops; in particular a batch of one event never does. */
  ghost predicate Consecutive(b: seq<Row>, next: int) {
    forall i :: 0 <= i < |b| ==> b[i].seqNo == next + i
  }

  ghost predicate DropsAreLast(rows: seq<Row>, r: RunId, events: seq<Event>) {
    forall i, k :: 0 <= i < k < |events| && Dropped(rows, r, events, i) ==> Dropped(rows, r, events, k)
  }

  lemma DroppedPrefix(rows: seq<Row>, r: RunId, events: seq<Event>, n: nat, i: nat)
    requires i < n <= |events|
    ensures Dropped(rows, r, events[..n], i) <==> Dropped(rows, r, events, i)
  {
    assert events[..n][..i] == events[..i];
  }

  /** Kept rows so far, counted. */
  ghost function Kept(rows: seq<Row>, r: RunId, events: seq<Event>): nat {
    if events == [] then 0
    else Kept(rows, r, events[..|events| - 1]) + if Dropped(rows, r, events, |events| - 1) then 0 else 1
  }

  ghost predicate NoDrops(rows: seq<Row>, r: RunId, events: seq<Event>) {
    forall i :: 0 <= i < |events| ==> !Dropped(rows, r, events, i)
  }

  lemma NoDropsSnoc(rows: seq<Row>, r: RunId, events: seq<Event>)
    requires events != []
    ensures NoDrops(rows, r, events) <==>
            NoDrops(rows, r, events[..|events| - 1]) && !Dropped(rows, r, events, |events| - 1)
  {
    var n := |events| - 1;
    forall i | 0 <= i < n
      ensures Dropped(rows, r, events[..n], i) <==> Dropped(rows, r, events, i)
    {
      DroppedPrefix(rows, r, events, n, i);
    }
  }

  lemma {:induction false} KeptCounts(rows: seq<Row>, r: RunId, next: int, events: seq<Event>, origin: Origin)
    requires Below(rows, r, next)
    ensures |Inserted(rows, r, next, events, origin)| == Kept(rows, r, events) <= |events|
    ensures Kept(rows, r, events) == |events| <==> NoDrops(rows, r, events)
  {
    if events != [] {
      var n := |events| - 1;
      KeptCounts(rows, r, next, events[..n], origin);
      InsertedShape(rows, r, next, events[..n], origin);
      ConflictIsDrop(rows, r, next, events, origin, Inserted(rows, r, next, events[..n], origin));
      NoDropsSnoc(rows, r, events);
    }
  }

  lemma DropsAreLastSnoc(rows: seq<Row>, r: RunId, events: seq<Event>)
    requires events != []
    ensures var n := |events| - 1;
            DropsAreLast(rows, r, events) <==>
              DropsAreLast(rows, r, events[..n]) && (Dropped(rows, r, events, n) || NoDrops(rows, r, events[..n]))
  {
    var n := |events| - 1;
    forall i | 0 <= i < n
      ensures Dropped(rows, r, events[..n], i) <==> Dropped(rows, r, events, i)
    {
      DroppedPrefix(rows, r, events, n, i);
    }
  }

  lemma {:induction false} DenseExactly(rows: seq<Row>, r: RunId, next: int, events: seq<Event>, origin: Origin)
    requires Below(rows, r, next)
    ensures Consecutive(Inserted(rows, r, next, events, origin), next) <==> DropsAreLast(rows, r, events)
  {
    if events != [] {
      var n := |events| - 1;
      var b := Inserted(rows, r, next, events, origin);
      var before := Inserted(rows, r, next, events[..n], origin);
      DenseExactly(rows, r, next, events[..n], origin);
      InsertedShape(rows, r, next, events[..n], origin);
      KeptCounts(rows, r, next, events[..n], origin);
      ConflictIsDrop(rows, r, next, events, origin, before);
      NoDropsSnoc(rows, r, events);
      DropsAreLastSnoc(rows, r, events);
      if Dropped(rows, r, events, n) {
        assert b == before;
      } else {
        KeptLast(before, b[|before|], next, n);
        assert b == before + [b[|before|]];
      }
    }
  }

  /** A row kept after n events continues the numbering exactly when all of them were kept. */
  lemma KeptLast(before: seq<Row>, row: Row, next: int, n: nat)
    requires row.seqNo == next + n && |before| <= n
    ensures Consecutive(before + [row], next) <==> Consecutive(before, next) && |before| == n
  {
    var b := before + [row];
    assert b[|before|] == row;
    if Consecutive(b, next) {
      forall i | 0 <= i < |before|
        ensures before[i].seqNo == next + i
      {
        assert b[i] == before[i];
      }
    }
  }
}
