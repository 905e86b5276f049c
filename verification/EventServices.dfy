/** The event repository and the emitters, with the fields they update in place. */
module EventServices {
  import opened Domain
  import opened EventLog
  import EventRuns

  lemma BatchKeepsOrder(rows: seq<Row>, r: RunId, events: seq<Event>, origin: Origin)
    requires EventRuns.RowsOk(rows) && events != []
    ensures EventRuns.RowsOk(rows + Inserted(rows, r, MaxSeq(rows, r) + 1, events, origin))
  {
    var next := MaxSeq(rows, r) + 1;
    assert events[..|events|] == events;
    EventRuns.CommitRows(rows, Tx(r, events, origin, Inserting(next, |events|, Inserted(rows, r, next, events, origin))));
  }

  class EventRepository {
    var rows: seq<Row>

    constructor ()
      ensures rows == []
    {
      rows := [];
    }

    /** Append a batch in one transaction that nothing else interleaves with: every event gets
        the next number, and an event that collides under a unique index is skipped. */
    method AppendMany(r: RunId, events: seq<Event>, origin: Origin)
      modifies this
      ensures rows == old(rows) + Inserted(old(rows), r, MaxSeq(old(rows), r) + 1, events, origin)
      ensures EventRuns.RowsOk(old(rows)) ==> EventRuns.RowsOk(rows)
    {
      if events == [] {
        return;
      }
      var next := MaxSeq(rows, r) + 1;
      for offset := 0 to |events|
        invariant rows == old(rows) + Inserted(old(rows), r, next, events[..offset], origin)
      {
        var row := Row(r, next + offset, events[offset], origin);
        assert events[..offset + 1][..offset] == events[..offset];
        if !Conflicts(rows, row) {
          rows := rows + [row];
        }
      }
      assert events[..|events|] == events;
      if EventRuns.RowsOk(old(rows)) {
        BatchKeepsOrder(old(rows), r, events, origin);
      }
    }

    method HasEvent(r: RunId, kind: EventType) returns (found: bool)
      ensures found <==> exists i :: 0 <= i < |rows| && rows[i].run == r && rows[i].event.kind == kind
    {
      for i := 0 to |rows|
        invariant forall k :: 0 <= k < i ==> rows[k].run != r || rows[k].event.kind != kind
      {
        if rows[i].run == r && rows[i].event.kind == kind {
          return true;
        }
      }
      return false;
    }
  }

  datatype Emitted = Emitted(seqNo: nat, run: RunId, event: Event)

  /** A persisting task: still due, finished, or ended by an exception of its transaction. */
  datatype Task = Due(emitted: Emitted) | Finished(emitted: Emitted) | Lost(emitted: Emitted)

  function Emissions(tasks: seq<Task>): (q: seq<Emitted>)
    ensures |q| == |tasks| && forall i :: 0 <= i < |tasks| ==> q[i] == tasks[i].emitted
  {
    seq(|tasks|, i requires 0 <= i < |tasks| => tasks[i].emitted)
  }

  /** A task after it was run; `fails` are the numbers of the events whose transaction fails. */
  function Ran(t: Task, fails: set<nat>): Task {
    if !t.Due? then t
    else if t.emitted.seqNo in fails then Lost(t.emitted)
    else Finished(t.emitted)
  }

  /** The events that running the tasks brings to the log, in order. */
  function Persisting(tasks: seq<Task>, fails: set<nat>): seq<Emitted> {
    if tasks == [] then []
    else
      var last := tasks[|tasks| - 1];
      Persisting(tasks[..|tasks| - 1], fails)
        + if last.Due? && last.emitted.seqNo !in fails then [last.emitted] else []
  }

  /** The in-memory emitter of one execution, whose tasks persist its events. */
  class DurableEmitter {
    var events: seq<Emitted>
    var nextSeq: nat
    var tasks: seq<Task>
    const id: EmitterId
    const repository: EventRepository

    ghost predicate Valid()
      reads this
    {
      && nextSeq == |events|
      && (forall i :: 0 <= i < |events| ==> events[i].seqNo == i)
      && |tasks| <= |events|
      && Emissions(tasks) == events[|events| - |tasks|..]
    }

    constructor (id: EmitterId, repository: EventRepository)
      ensures Valid() && events == [] && this.id == id && this.repository == repository
    {
      this.id := id;
      this.repository := repository;
      events := [];
      nextSeq := 0;
      tasks := [];
    }

    method Emit(r: RunId, event: Event) returns (e: Emitted)
      requires Valid()
      modifies this
      ensures Valid()
      ensures e == Emitted(|old(events)|, r, event)
      ensures events == old(events) + [e] && tasks == old(tasks) + [Due(e)]
    {
      e := Emitted(nextSeq, r, event);
      nextSeq := nextSeq + 1;
      events := events + [e];
      tasks := tasks + [Due(e)];
    }

    method LatestSeq() returns (latest: int)
      requires Valid()
      ensures latest == |events| - 1
    {
      latest := -1;
      for i := 0 to |events|
        invariant latest == i - 1
      {
        if events[i].seqNo > latest {
          latest := events[i].seqNo;
        }
      }
    }

    /** One persisting task: its event is appended unless its transaction fails. */
    method RunTask(t: Task, fails: set<nat>) returns (ran: Task)
      modifies repository
      ensures ran == Ran(t, fails)
      ensures repository.rows == Persisted(old(repository.rows), id, Persisting([t], fails))
    {
      assert [t][..0] == [];
      if !t.Due? {
        return t;
      }
      var e := t.emitted;
      if e.seqNo in fails {
        return Lost(e);
      }
      assert [e][..0] == [];
      repository.AppendMany(e.run, [e.event], Some((id, e.seqNo)));
      return Finished(e);
    }

    /** Wait for the persisting tasks: they run one after the other, in emission order. When one of
        them failed, now or before, its exception is raised and the tasks are kept. */
    method Drain(fails: set<nat>) returns (raised: bool)
      requires Valid()
      modifies this, repository
      ensures Valid() && events == old(events)
      ensures repository.rows == Persisted(old(repository.rows), id, Persisting(old(tasks), fails))
      ensures raised <==> AnyLost(old(tasks), fails)
      ensures tasks == if raised then RanAll(old(tasks), fails) else []
    {
      ghost var start := repository.rows;
      var done: seq<Task> := [];
      raised := false;
      for i := 0 to |tasks|
        invariant tasks == old(tasks) && events == old(events) && nextSeq == old(nextSeq)
        invariant done == RanAll(tasks[..i], fails)
        invariant repository.rows == Persisted(start, id, Persisting(tasks[..i], fails))
        invariant raised <==> AnyLost(tasks[..i], fails)
      {
        var task := tasks[i];
        PersistingMore(start, id, tasks, fails, i);
        LostMore(tasks, fails, i);
        var ran := RunTask(task, fails);
        done := done + [ran];
        raised := raised || ran.Lost?;
      }
      assert tasks[..|tasks|] == tasks;
      tasks := if raised then done else [];
      RanKeepsEmissions(old(tasks), fails);
    }
  }

  /** Running the tasks leaves one that was ended by an exception. */
  ghost predicate AnyLost(tasks: seq<Task>, fails: set<nat>) {
    exists t :: t in tasks && Ran(t, fails).Lost?
  }

  lemma LostMore(tasks: seq<Task>, fails: set<nat>, i: nat)
    requires i < |tasks|
    ensures AnyLost(tasks[..i + 1], fails) <==> AnyLost(tasks[..i], fails) || Ran(tasks[i], fails).Lost?
    ensures RanAll(tasks[..i + 1], fails) == RanAll(tasks[..i], fails) + [Ran(tasks[i], fails)]
  {
    assert tasks[..i + 1] == tasks[..i] + [tasks[i]];
  }

  function RanAll(tasks: seq<Task>, fails: set<nat>): (q: seq<Task>)
    ensures |q| == |tasks| && forall i :: 0 <= i < |tasks| ==> q[i] == Ran(tasks[i], fails)
  {
    seq(|tasks|, i requires 0 <= i < |tasks| => Ran(tasks[i], fails))
  }

  lemma RanKeepsEmissions(tasks: seq<Task>, fails: set<nat>)
    ensures Emissions(RanAll(tasks, fails)) == Emissions(tasks)
  {
  }

  lemma PersistingMore(rows: seq<Row>, id: EmitterId, tasks: seq<Task>, fails: set<nat>, i: nat)
    requires i < |tasks|
    ensures Persisted(rows, id, Persisting(tasks[..i + 1], fails))
              == Persisted(Persisted(rows, id, Persisting(tasks[..i], fails)), id, Persisting([tasks[i]], fails))
  {
    var done, t := Persisting(tasks[..i], fails), tasks[i];
    assert tasks[..i + 1][..i] == tasks[..i] && tasks[..i + 1][i] == t && [t][..0] == [];
    if t.Due? && t.emitted.seqNo !in fails {
      assert Persisting([t], fails) == [t.emitted];
      assert (done + [t.emitted])[..|done|] == done;
      PersistedSnoc(rows, id, done + [t.emitted]);
    } else {
      assert Persisting([t], fails) == [] && done + [] == done;
    }
  }

  /** The log after the events of one emitter were appended one by one. */
  function Persisted(rows: seq<Row>, id: EmitterId, tasks: seq<Emitted>): seq<Row> {
    if tasks == [] then rows
    else
      var before := Persisted(rows, id, tasks[..|tasks| - 1]);
      var e := tasks[|tasks| - 1];
      before + Inserted(before, e.run, MaxSeq(before, e.run) + 1, [e.event], Some((id, e.seqNo)))
  }

  /** What one event adds to the log. */
  lemma PersistOne(before: seq<Row>, id: EmitterId, e: Emitted)
    ensures var added := Inserted(before, e.run, MaxSeq(before, e.run) + 1, [e.event], Some((id, e.seqNo)));
            added == if TerminalType(e.event.kind) && HasTerminal(before, e.run) then []
                     else [Row(e.run, MaxSeq(before, e.run) + 1, e.event, Some((id, e.seqNo)))]
  {
    MaxSeqBounds(before, e.run);
    assert [e.event][..0] == [];
    assert Inserted(before, e.run, MaxSeq(before, e.run) + 1, [e.event][..0], Some((id, e.seqNo))) == [];
    assert before + [] == before;
  }

  /** The event is in the log at or after position `from`, or it is a terminal event that
      came too late. */
  predicate Logged(rows: seq<Row>, from: nat, id: EmitterId, e: Emitted) {
    || (exists k :: from <= k < |rows| && rows[k].origin == Some((id, e.seqNo)) && rows[k].event == e.event && rows[k].run == e.run)
    || (TerminalType(e.event.kind) && HasTerminal(rows, e.run))
  }

  lemma LoggedLater(rows: seq<Row>, added: seq<Row>, from: nat, id: EmitterId, e: Emitted)
    requires Logged(rows, from, id, e)
    ensures Logged(rows + added, from, id, e)
  {
    HasTerminalConcat(rows, added, e.run);
    if k :| from <= k < |rows| && rows[k].origin == Some((id, e.seqNo)) && rows[k].event == e.event && rows[k].run == e.run {
      assert (rows + added)[k] == rows[k];
    }
  }

  lemma PersistOneOk(before: seq<Row>, id: EmitterId, e: Emitted)
    requires EventRuns.RowsOk(before)
    ensures var after := Persisted(before, id, [e]);
            EventRuns.RowsOk(after) && before <= after && Logged(after, |before|, id, e)
  {
    PersistOne(before, id, e);
    assert [e][..0] == [] && [e.event][..1] == [e.event];
    var added := Inserted(before, e.run, MaxSeq(before, e.run) + 1, [e.event], Some((id, e.seqNo)));
    EventRuns.CommitRows(before, Tx(e.run, [e.event], Some((id, e.seqNo)), Inserting(MaxSeq(before, e.run) + 1, 1, added)));
    if added == [] {
      HasTerminalConcat(before, added, e.run);
    } else {
      assert (before + added)[|before|] == added[0];
    }
  }

  lemma PersistedSnoc(rows: seq<Row>, id: EmitterId, tasks: seq<Emitted>)
    requires tasks != []
    ensures var n := |tasks| - 1;
            Persisted(rows, id, tasks) == Persisted(Persisted(rows, id, tasks[..n]), id, [tasks[n]])
  {
    var e := tasks[|tasks| - 1];
    assert [e][..0] == [];
  }

  /** The log before the last task, the step that persists it, and the log after it. */
  lemma LastTask(rows: seq<Row>, id: EmitterId, tasks: seq<Emitted>, before: seq<Row>, after: seq<Row>)
    requires tasks != [] && EventRuns.RowsOk(before)
    requires before == Persisted(rows, id, tasks[..|tasks| - 1]) && after == Persisted(rows, id, tasks)
    ensures EventRuns.RowsOk(after) && before <= after && Logged(after, |before|, id, tasks[|tasks| - 1])
  {
    PersistedSnoc(rows, id, tasks);
    PersistOneOk(before, id, tasks[|tasks| - 1]);
  }

  /** Draining keeps the log well-formed and only appends to it. */
  lemma {:induction false} DrainKeepsLog(rows: seq<Row>, id: EmitterId, tasks: seq<Emitted>, after: seq<Row>)
    requires EventRuns.RowsOk(rows) && after == Persisted(rows, id, tasks)
    ensures EventRuns.RowsOk(after) && rows <= after
  {
    if tasks != [] {
      var before := Persisted(rows, id, tasks[..|tasks| - 1]);
      DrainKeepsLog(rows, id, tasks[..|tasks| - 1], before);
      LastTask(rows, id, tasks, before, after);
    }
  }

  /** Draining loses no event but a second terminal one. */
  lemma {:induction false} DrainLogsAll(rows: seq<Row>, id: EmitterId, tasks: seq<Emitted>, after: seq<Row>, i: nat)
    requires EventRuns.RowsOk(rows) && after == Persisted(rows, id, tasks) && i < |tasks|
    ensures Logged(after, |rows|, id, tasks[i])
  {
    var n := |tasks| - 1;
    var before := Persisted(rows, id, tasks[..n]);
    DrainKeepsLog(rows, id, tasks[..n], before);
    LastTask(rows, id, tasks, before, after);
    if i < n {
      DrainLogsAll(rows, id, tasks[..n], before, i);
      LoggedLater(before, after[|before|..], |rows|, id, tasks[i]);
      assert before + after[|before|..] == after;
    } else {
      LoggedFrom(after, |before|, |rows|, id, tasks[n]);
    }
  }

  lemma {:induction false} PersistingHas(tasks: seq<Task>, fails: set<nat>, i: nat) returns (k: nat)
    requires i < |tasks| && tasks[i].Due? && tasks[i].emitted.seqNo !in fails
    ensures k < |Persisting(tasks, fails)| && Persisting(tasks, fails)[k] == tasks[i].emitted
  {
    var n := |tasks| - 1;
    if i < n {
      k := PersistingHas(tasks[..n], fails, i);
    } else {
      k := |Persisting(tasks[..n], fails)|;
    }
  }

  /** The event of every waiting task whose transaction succeeds is in the log after a drain, or was a
      second terminal one, whichever other tasks fail. */
  lemma DrainLogsSurvivors(rows: seq<Row>, id: EmitterId, tasks: seq<Task>, fails: set<nat>, i: nat)
    requires EventRuns.RowsOk(rows) && i < |tasks| && tasks[i].Due? && tasks[i].emitted.seqNo !in fails
    ensures Logged(Persisted(rows, id, Persisting(tasks, fails)), |rows|, id, tasks[i].emitted)
  {
    var k := PersistingHas(tasks, fails, i);
    DrainLogsAll(rows, id, Persisting(tasks, fails), Persisted(rows, id, Persisting(tasks, fails)), k);
  }

  lemma LoggedFrom(rows: seq<Row>, from: nat, earlier: nat, id: EmitterId, e: Emitted)
    requires earlier <= from && Logged(rows, from, id, e)
    ensures Logged(rows, earlier, id, e)
  {
  }
}
