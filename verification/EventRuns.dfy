/** The event log over every interleaving of its writers. */
module EventRuns {
  import opened Domain
  import opened EventLog

  // ---- rows of other runs do not matter ----

  ghost predicate NoneOf(b: seq<Row>, r: RunId) {
    forall i :: 0 <= i < |b| ==> b[i].run != r
  }

  lemma {:induction false} MaxSeqConcat(rows: seq<Row>, b: seq<Row>, r: RunId)
    requires NoneOf(b, r)
    ensures MaxSeq(rows + b, r) == MaxSeq(rows, r)
  {
    if b == [] {
      assert rows + b == rows;
    } else {
      var n := |b| - 1;
      assert (rows + b)[..|rows + b| - 1] == rows + b[..n];
      MaxSeqConcat(rows, b[..n], r);
    }
  }

  lemma ConflictsOther(rows: seq<Row>, b: seq<Row>, before: seq<Row>, row: Row)
    requires NoneOf(b, row.run)
    ensures Conflicts(rows + b + before, row) <==> Conflicts(rows + before, row)
  {
    HasTerminalConcat(rows, b, row.run);
    HasTerminalConcat(rows + b, before, row.run);
    HasTerminalConcat(rows, before, row.run);
    if i :| 0 <= i < |rows + before| && (rows + before)[i].run == row.run && (rows + before)[i].seqNo == row.seqNo {
      var j := if i < |rows| then i else i + |b|;
      assert (rows + b + before)[j] == (rows + before)[i];
    }
    if i :| 0 <= i < |rows + b + before| && (rows + b + before)[i].run == row.run && (rows + b + before)[i].seqNo == row.seqNo {
      assert i < |rows| || i >= |rows| + |b|;
      var j := if i < |rows| then i else i - |b|;
      assert (rows + before)[j] == (rows + b + before)[i];
    }
  }

  lemma {:induction false} InsertedOther(rows: seq<Row>, b: seq<Row>, r: RunId, next: int, events: seq<Event>, origin: Origin)
    requires NoneOf(b, r)
    ensures Inserted(rows + b, r, next, events, origin) == Inserted(rows, r, next, events, origin)
  {
    if events != [] {
      var n := |events| - 1;
      InsertedOther(rows, b, r, next, events[..n], origin);
      ConflictsOther(rows, b, Inserted(rows, r, next, events[..n], origin), Row(r, next + n, events[n], origin));
    }
  }

  // ---- the invariant ----

  ghost predicate LocksOk(key: RunId -> int, s: State) {
    && (forall t :: t in s.txs && !s.txs[t].phase.Waiting? ==> key(s.txs[t].run) in s.locks && s.locks[key(s.txs[t].run)] == t)
    && (forall k :: k in s.locks ==> s.locks[k] in s.txs && !s.txs[s.locks[k]].phase.Waiting? && key(s.txs[s.locks[k]].run) == k)
  }

  /** What a transaction has inserted so far is what its batch inserts on the rows as they are
      now: nobody else committed rows of this run since it read the highest number. */
  ghost predicate TxOk(rows: seq<Row>, tx: Tx) {
    && tx.events != []
    && (tx.phase.Inserting? ==>
          && tx.phase.done <= |tx.events|
          && tx.phase.next == MaxSeq(rows, tx.run) + 1
          && tx.phase.buffer == Inserted(rows, tx.run, tx.phase.next, tx.events[..tx.phase.done], tx.origin))
  }

  ghost predicate RowsOk(rows: seq<Row>) {
    Increasing(rows) && OneTerminal(rows) && forall i :: 0 <= i < |rows| ==> 0 <= rows[i].seqNo
  }

  ghost predicate LogInv(key: RunId -> int, s: State) {
    && LocksOk(key, s)
    && (forall t :: t in s.txs ==> TxOk(s.rows, s.txs[t]))
    && RowsOk(s.rows)
  }

  lemma InsertKeepsTx(rows: seq<Row>, tx: Tx)
    requires TxOk(rows, tx) && tx.phase.Inserting? && tx.phase.done < |tx.events|
    ensures TxOk(rows, InsertOne(rows, tx))
  {
    var k := tx.phase.done;
    assert tx.events[..k + 1][..k] == tx.events[..k];
    assert tx.events[..k + 1] != [];
  }

  lemma CommitRows(rows: seq<Row>, tx: Tx)
    requires RowsOk(rows) && TxOk(rows, tx) && tx.phase.Inserting?
    ensures RowsOk(rows + tx.phase.buffer)
    ensures forall i :: 0 <= i < |tx.phase.buffer| ==> tx.phase.buffer[i].run == tx.run
  {
    var Inserting(next, done, b) := tx.phase;
    var events := tx.events[..done];
    MaxSeqBounds(rows, tx.run);
    InsertedShape(rows, tx.run, next, events, tx.origin);
    var all := rows + b;
    forall i | 0 <= i < |b|
      ensures b[i].run == tx.run && next <= b[i].seqNo
    {
      assert RowOf(b[i], tx.run, next, events, tx.origin);
    }
    forall i, k | 0 <= i < k < |all| && all[i].run == all[k].run
      ensures all[i].seqNo < all[k].seqNo
      ensures TerminalType(all[i].event.kind) ==> !TerminalType(all[k].event.kind)
    {
      if i < |rows| <= k {
        assert all[k] == b[k - |rows|];
        if TerminalType(all[i].event.kind) {
          assert HasTerminal(rows, tx.run);
          assert !HasTerminal(b, tx.run);
        }
      } else if |rows| <= i {
        assert all[i] == b[i - |rows|] && all[k] == b[k - |rows|];
      }
    }
  }

  lemma CommitKeepsOthers(rows: seq<Row>, b: seq<Row>, tx: Tx)
    requires TxOk(rows, tx) && (tx.phase.Inserting? ==> NoneOf(b, tx.run))
    ensures TxOk(rows + b, tx)
  {
    if tx.phase.Inserting? {
      MaxSeqConcat(rows, b, tx.run);
      InsertedOther(rows, b, tx.run, tx.phase.next, tx.events[..tx.phase.done], tx.origin);
    }
  }

  lemma EndedLocks(key: RunId -> int, s: State, t: TxId)
    requires LocksOk(key, s) && t in s.txs
    ensures LocksOk(key, Ended(key, s, t))
  {
  }

  lemma CommitKeepsInv(key: RunId -> int, s: State, t: TxId)
    requires LogInv(key, s) && Enabled(key, s, Commit(t))
    ensures LogInv(key, Next(key, s, Commit(t)))
  {
    var u := Next(key, s, Commit(t));
    EndedLocks(key, s, t);
    CommitRows(s.rows, s.txs[t]);
    forall x | x in u.txs
      ensures TxOk(u.rows, u.txs[x])
    {
      assert x != t && u.txs[x] == s.txs[x];
      if s.txs[x].phase.Inserting? {
        assert s.txs[x].run != s.txs[t].run;
      }
      CommitKeepsOthers(s.rows, s.txs[t].phase.buffer, s.txs[x]);
    }
  }

  lemma StepKeepsLogInv(key: RunId -> int, s: State, l: Label)
    requires LogInv(key, s) && Enabled(key, s, l)
    ensures LogInv(key, Next(key, s, l))
  {
    match l
    case Commit(t) => CommitKeepsInv(key, s, t);
    case Rollback(t) => EndedLocks(key, s, t);
    case Insert(t) => InsertKeepsTx(s.rows, s.txs[t]);
    case _ =>
  }

  lemma {:induction false} RunKeepsLogInv(key: RunId -> int, s: State, ls: seq<Label>)
    requires LogInv(key, s) && Legal(key, s, ls)
    ensures LogInv(key, Exec(key, s, ls))
    decreases |ls|
  {
    if ls != [] {
      StepKeepsLogInv(key, s, ls[0]);
      RunKeepsLogInv(key, Next(key, s, ls[0]), ls[1..]);
    }
  }

  // ---- append-only, increasing, one terminal event ----

  /** Committed rows are never changed or removed. */
  lemma {:induction false} AppendOnly(key: RunId -> int, s: State, ls: seq<Label>)
    requires Legal(key, s, ls)
    ensures s.rows <= Exec(key, s, ls).rows
    decreases |ls|
  {
    if ls != [] {
      AppendOnly(key, Next(key, s, ls[0]), ls[1..]);
    }
  }

  /** Whatever the batches, crashes and interleavings: per run the numbers grow in the order
      in which rows become visible, and at most one row is terminal. */
  lemma LogOrdered(key: RunId -> int, ls: seq<Label>)
    requires Legal(key, Init(), ls)
    ensures Increasing(Exec(key, Init(), ls).rows) && OneTerminal(Exec(key, Init(), ls).rows)
  {
    RunKeepsLogInv(key, Init(), ls);
  }

  // ---- dense numbering with single-event batches ----

  ghost predicate SingleAppends(ls: seq<Label>) {
    forall i :: 0 <= i < |ls| && ls[i].Append? ==> |ls[i].events| == 1
  }

  ghost predicate Dense(rows: seq<Row>, r: RunId) {
    forall i :: 0 <= i < |Of(rows, r)| ==> Of(rows, r)[i].seqNo == i
  }

  ghost predicate DenseInv(s: State) {
    && (forall r :: Dense(s.rows, r))
    && (forall t :: t in s.txs ==> |s.txs[t].events| == 1)
  }

  lemma {:induction false} OfConcat(a: seq<Row>, b: seq<Row>, r: RunId)
    ensures Of(a + b, r) == Of(a, r) + Of(b, r)
  {
    if b == [] {
      assert a + b == a;
    } else {
      var n := |b| - 1;
      assert (a + b)[..|a + b| - 1] == a + b[..n];
      OfConcat(a, b[..n], r);
    }
  }

  lemma {:induction false} DenseMax(rows: seq<Row>, r: RunId)
    requires Dense(rows, r)
    ensures MaxSeq(rows, r) == |Of(rows, r)| - 1
  {
    if rows != [] {
      var init := rows[..|rows| - 1];
      var last := rows[|rows| - 1];
      forall i | 0 <= i < |Of(init, r)|
        ensures Of(init, r)[i].seqNo == i
      {
        assert Of(rows, r)[i] == Of(init, r)[i];
      }
      DenseMax(init, r);
      if last.run == r {
        assert Of(rows, r)[|Of(init, r)|] == last;
      }
    }
  }

  /** A one-event batch inserts nothing, or one row with the next number. */
  lemma SingleBuffer(rows: seq<Row>, tx: Tx)
    requires TxOk(rows, tx) && tx.phase.Inserting? && |tx.events| == 1 == tx.phase.done
    ensures var b := tx.phase.buffer;
            b == [] || (|b| == 1 && b[0].run == tx.run && b[0].seqNo == MaxSeq(rows, tx.run) + 1)
  {
    var events := tx.events[..1];
    MaxSeqBounds(rows, tx.run);
    InsertedShape(rows, tx.run, tx.phase.next, events, tx.origin);
    if tx.phase.buffer != [] {
      assert RowOf(tx.phase.buffer[0], tx.run, tx.phase.next, events, tx.origin);
    }
  }

  lemma DenseSnoc(rows: seq<Row>, row: Row, r: RunId)
    requires Dense(rows, r) && Dense(rows, row.run) && row.seqNo == MaxSeq(rows, row.run) + 1
    ensures Dense(rows + [row], r)
  {
    OfConcat(rows, [row], r);
    DenseMax(rows, row.run);
    assert [row][..0] == [];
    assert Of([row], r) == if row.run == r then [row] else [];
  }

  lemma CommitKeepsDense(key: RunId -> int, s: State, t: TxId, r: RunId)
    requires LogInv(key, s) && DenseInv(s) && Enabled(key, s, Commit(t))
    ensures Dense(Next(key, s, Commit(t)).rows, r)
  {
    var b := s.txs[t].phase.buffer;
    SingleBuffer(s.rows, s.txs[t]);
    if b == [] {
      assert s.rows + b == s.rows;
    } else {
      assert b == [b[0]];
      DenseSnoc(s.rows, b[0], r);
    }
  }

  lemma StepKeepsDense(key: RunId -> int, s: State, l: Label)
    requires LogInv(key, s) && DenseInv(s) && Enabled(key, s, l) && (l.Append? ==> |l.events| == 1)
    ensures DenseInv(Next(key, s, l))
  {
    if l.Commit? {
      forall r
        ensures Dense(Next(key, s, l).rows, r)
      {
        CommitKeepsDense(key, s, l.t, r);
      }
    }
  }

  lemma {:induction false} RunKeepsDense(key: RunId -> int, s: State, ls: seq<Label>)
    requires LogInv(key, s) && DenseInv(s) && Legal(key, s, ls) && SingleAppends(ls)
    ensures DenseInv(Exec(key, s, ls))
    decreases |ls|
  {
    if ls != [] {
      StepKeepsDense(key, s, ls[0]);
      StepKeepsLogInv(key, s, ls[0]);
      RunKeepsDense(key, Next(key, s, ls[0]), ls[1..]);
    }
  }

  /** When every batch has one event, as in all callers, the rows of a run are numbered
      0, 1, 2, … in the order in which they become visible; a dropped duplicate terminal
      event and a rolled-back transaction use no number. */
  lemma NumberedInOrder(key: RunId -> int, ls: seq<Label>, r: RunId)
    requires Legal(key, Init(), ls) && SingleAppends(ls)
    ensures Dense(Exec(key, Init(), ls).rows, r)
  {
    RunKeepsDense(key, Init(), ls);
  }

  // ---- each emitter's order ----

  ghost predicate OriginOk(s: State, row: Row) {
    row.origin.Some? ==>
      var (e, i) := row.origin.value;
      && e in s.emitters
      && i < s.emitters[e].started - (if s.emitters[e].inFlight.Some? then 1 else 0)
      && i < |s.emitters[e].emitted| && row.event == s.emitters[e].emitted[i] && row.run == s.emitters[e].run
  }

  ghost predicate EmissionOrder(rows: seq<Row>) {
    forall i, k :: 0 <= i < k < |rows| && rows[i].origin.Some? && rows[k].origin.Some?
                   && rows[i].origin.value.0 == rows[k].origin.value.0 ==>
                     rows[i].origin.value.1 < rows[k].origin.value.1
  }

  ghost predicate EmitterTxOk(s: State, t: TxId)
    requires t in s.txs
  {
    s.txs[t].origin.Some? ==>
      var (e, i) := s.txs[t].origin.value;
      && e in s.emitters
      && s.emitters[e].inFlight == Some(t) && s.emitters[e].started == i + 1
      && i < |s.emitters[e].emitted| && s.txs[t].events == [s.emitters[e].emitted[i]] && s.txs[t].run == s.emitters[e].run
  }

  ghost predicate EmitInv(s: State) {
    && (forall i :: 0 <= i < |s.rows| ==> OriginOk(s, s.rows[i]))
    && (forall t :: t in s.txs ==> EmitterTxOk(s, t))
    && (forall e :: e in s.emitters ==> s.emitters[e].started <= |s.emitters[e].emitted|)
    && EmissionOrder(s.rows)
  }

  lemma BufferOfEmitter(key: RunId -> int, s: State, t: TxId)
    requires LogInv(key, s) && t in s.txs && s.txs[t].phase.Inserting? && EmitterTxOk(s, t)
    ensures var b := s.txs[t].phase.buffer;
            && (forall i :: 0 <= i < |b| ==> b[i].origin == s.txs[t].origin && b[i].run == s.txs[t].run)
            && (s.txs[t].origin.Some? ==> |b| <= 1)
            && (s.txs[t].origin.Some? && b != [] ==> b[0].event == s.txs[t].events[0])
  {
    var tx := s.txs[t];
    MaxSeqBounds(s.rows, tx.run);
    InsertedShape(s.rows, tx.run, tx.phase.next, tx.events[..tx.phase.done], tx.origin);
    forall i | 0 <= i < |tx.phase.buffer|
      ensures tx.phase.buffer[i].origin == tx.origin && tx.phase.buffer[i].run == tx.run
    {
      assert RowOf(tx.phase.buffer[i], tx.run, tx.phase.next, tx.events[..tx.phase.done], tx.origin);
    }
    if tx.origin.Some? && tx.phase.buffer != [] {
      assert RowOf(tx.phase.buffer[0], tx.run, tx.phase.next, tx.events[..tx.phase.done], tx.origin);
    }
  }

  lemma CommittedInOrder(key: RunId -> int, s: State, t: TxId)
    requires LogInv(key, s) && EmitInv(s) && Enabled(key, s, Commit(t))
    ensures EmissionOrder(s.rows + s.txs[t].phase.buffer)
  {
    var b := s.txs[t].phase.buffer;
    var rows := s.rows + b;
    assert EmitterTxOk(s, t);
    BufferOfEmitter(key, s, t);
    forall i, k | 0 <= i < k < |rows| && rows[i].origin.Some? && rows[k].origin.Some?
                  && rows[i].origin.value.0 == rows[k].origin.value.0
      ensures rows[i].origin.value.1 < rows[k].origin.value.1
    {
      if k >= |s.rows| {
        assert rows[k] == b[k - |s.rows|];
        if i < |s.rows| {
          assert OriginOk(s, s.rows[i]);
        }
      }
    }
  }

  lemma CommitKeepsEmission(key: RunId -> int, s: State, t: TxId)
    requires LogInv(key, s) && EmitInv(s) && Enabled(key, s, Commit(t))
    ensures EmitInv(Next(key, s, Commit(t)))
  {
    var u := Next(key, s, Commit(t));
    var b := s.txs[t].phase.buffer;
    assert EmitterTxOk(s, t);
    BufferOfEmitter(key, s, t);
    forall i | 0 <= i < |u.rows|
      ensures OriginOk(u, u.rows[i])
    {
      if i < |s.rows| {
        assert OriginOk(s, s.rows[i]);
      } else {
        assert u.rows[i] == b[i - |s.rows|];
      }
    }
    CommittedInOrder(key, s, t);
    forall x | x in u.txs
      ensures EmitterTxOk(u, x)
    {
      assert EmitterTxOk(s, x);
    }
  }

  lemma QuietKeepsEmission(key: RunId -> int, s: State, l: Label)
    requires EmitInv(s) && Enabled(key, s, l) && !l.Commit?
    ensures EmitInv(Next(key, s, l))
  {
    var u := Next(key, s, l);
    forall i | 0 <= i < |u.rows|
      ensures OriginOk(u, u.rows[i])
    {
      assert OriginOk(s, s.rows[i]);
    }
    forall x | x in u.txs
      ensures EmitterTxOk(u, x)
    {
      if x in s.txs {
        assert EmitterTxOk(s, x);
      }
    }
  }

  lemma {:induction false} RunKeepsEmission(key: RunId -> int, s: State, ls: seq<Label>)
    requires LogInv(key, s) && EmitInv(s) && Legal(key, s, ls)
    ensures EmitInv(Exec(key, s, ls))
    decreases |ls|
  {
    if ls != [] {
      if ls[0].Commit? {
        CommitKeepsEmission(key, s, ls[0].t);
      } else {
        QuietKeepsEmission(key, s, ls[0]);
      }
      StepKeepsLogInv(key, s, ls[0]);
      RunKeepsEmission(key, Next(key, s, ls[0]), ls[1..]);
    }
  }

  /** Each emitter's events are logged in the order it emitted them, each at most once and
      unaltered, however its transactions interleave with those of others or fail. */
  lemma EmittersKeepOrder(key: RunId -> int, ls: seq<Label>)
    requires Legal(key, Init(), ls)
    ensures var s := Exec(key, Init(), ls);
            && EmissionOrder(s.rows)
            && forall i :: 0 <= i < |s.rows| && s.rows[i].origin.Some? ==>
                 var (e, n) := s.rows[i].origin.value;
                 e in s.emitters && n < |s.emitters[e].emitted| && s.rows[i].event == s.emitters[e].emitted[n]
  {
    RunKeepsEmission(key, Init(), ls);
    var s := Exec(key, Init(), ls);
    forall i | 0 <= i < |s.rows| && s.rows[i].origin.Some?
      ensures var (e, n) := s.rows[i].origin.value;
              e in s.emitters && n < |s.emitters[e].emitted| && s.rows[i].event == s.emitters[e].emitted[n]
    {
      assert OriginOk(s, s.rows[i]);
    }
  }
}
