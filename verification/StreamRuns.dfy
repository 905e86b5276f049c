/** The stream of a run beside the writers of its log: what a reconnecting client receives is a slice
    of what the writers committed, over every interleaving of both. */
module StreamRuns {
  import opened Domain
  import EventLog
  import EventRuns
  import opened Streaming

  /** The log that all runs share, and one client's session on run `r`. */
  datatype Joint = Joint(log: EventLog.State, session: Session)

  datatype Action = Write(write: EventLog.Label) | Client(client: Label)

  function Start(first: int): Joint {
    Joint(EventLog.Init(), Streaming.Init(first))
  }

  ghost predicate CanStep(key: RunId -> int, j: Joint, a: Action) {
    match a
    case Write(l) => EventLog.Enabled(key, j.log, l)
    case Client(l) => !l.AppendRow? && Streaming.Enabled(j.session, l)
  }

  /** A writer's step shows the session the committed rows of its run; the client's steps are its own. */
  ghost function After(key: RunId -> int, r: RunId, j: Joint, a: Action): Joint
    requires CanStep(key, j, a)
  {
    match a
    case Write(l) =>
      var t := EventLog.Next(key, j.log, l);
      Joint(t, j.session.(log := EventLog.Of(t.rows, r)))
    case Client(l) => j.(session := Streaming.Next(j.session, l))
  }

  ghost predicate CanRun(key: RunId -> int, r: RunId, j: Joint, steps: seq<Action>)
    decreases |steps|
  {
    steps == [] || (CanStep(key, j, steps[0]) && CanRun(key, r, After(key, r, j, steps[0]), steps[1..]))
  }

  ghost function Ran(key: RunId -> int, r: RunId, j: Joint, steps: seq<Action>): Joint
    requires CanRun(key, r, j, steps)
    decreases |steps|
  {
    if steps == [] then j else Ran(key, r, After(key, r, j, steps[0]), steps[1..])
  }

  /** An event arrives on a stale connection at some step. */
  ghost predicate AnyStale(key: RunId -> int, r: RunId, j: Joint, steps: seq<Action>)
    requires CanRun(key, r, j, steps)
    decreases |steps|
  {
    steps != [] && ((steps[0].Client? && StaleRow(j.session, steps[0].client))
                    || AnyStale(key, r, After(key, r, j, steps[0]), steps[1..]))
  }

  ghost predicate JointInv(key: RunId -> int, r: RunId, first: int, j: Joint) {
    Shared(key, r, first, j) && InOrder(j.session) && IdKnown(j.session)
  }

  /** What holds whether or not a row was received twice. */
  ghost predicate Shared(key: RunId -> int, r: RunId, first: int, j: Joint) {
    && EventRuns.LogInv(key, j.log)
    && j.session.log == EventLog.Of(j.log.rows, r) && Ordered(j.session.log)
    && j.session.first == first
    && StopsAtTerminal(j.session)
  }

  lemma {:induction false} GrowthKeepsOrder(s: Session, more: seq<EventLog.Row>)
    requires InOrder(s) && Ordered(s.log + more)
    ensures InOrder(s.(log := s.log + more))
    decreases |more|
  {
    if more == [] {
      assert s.log + more == s.log;
    } else {
      var n := |more| - 1;
      assert s.log + more == s.log + more[..n] + [more[n]];
      OrderedPrefix(s.log + more[..n], more[n]);
      GrowthKeepsOrder(s, more[..n]);
      AppendKeepsOrder(s.(log := s.log + more[..n]), more[n]);
    }
  }

  lemma RowsKeepOrder(s: Session, rows: seq<EventLog.Row>, longer: seq<EventLog.Row>, r: RunId)
    requires InOrder(s) && s.log == EventLog.Of(rows, r) && rows <= longer && EventLog.Increasing(longer)
    ensures InOrder(s.(log := EventLog.Of(longer, r)))
  {
    var more := longer[|rows|..];
    assert longer == rows + more;
    EventRuns.OfConcat(rows, more, r);
    LogOfRunOrdered(longer, r);
    GrowthKeepsOrder(s, EventLog.Of(more, r));
  }

  lemma CommittedGrow(key: RunId -> int, s: EventLog.State, l: EventLog.Label)
    requires EventLog.Enabled(key, s, l)
    ensures s.rows <= EventLog.Next(key, s, l).rows
  {
  }

  /** Whatever a writer does, the run's committed rows stay in order. */
  lemma WriteKeepsShared(key: RunId -> int, r: RunId, first: int, j: Joint, l: EventLog.Label)
    requires Shared(key, r, first, j) && EventLog.Enabled(key, j.log, l)
    ensures Shared(key, r, first, After(key, r, j, Write(l)))
  {
    EventRuns.StepKeepsLogInv(key, j.log, l);
    LogOfRunOrdered(EventLog.Next(key, j.log, l).rows, r);
  }

  lemma StepKeepsShared(key: RunId -> int, r: RunId, first: int, j: Joint, a: Action)
    requires Shared(key, r, first, j) && CanStep(key, j, a)
    ensures Shared(key, r, first, After(key, r, j, a))
  {
    match a
    case Write(l) => WriteKeepsShared(key, r, first, j, l);
    case Client(l) => StepKeepsStop(j.session, l);
  }

  lemma StepKeepsJointInv(key: RunId -> int, r: RunId, first: int, j: Joint, a: Action)
    requires JointInv(key, r, first, j) && CanStep(key, j, a) && !(a.Client? && StaleRow(j.session, a.client))
    ensures JointInv(key, r, first, After(key, r, j, a))
  {
    StepKeepsShared(key, r, first, j, a);
    match a
    case Write(l) =>
      EventRuns.StepKeepsLogInv(key, j.log, l);
      CommittedGrow(key, j.log, l);
      RowsKeepOrder(j.session, j.log.rows, EventLog.Next(key, j.log, l).rows, r);
    case Client(l) => StepKeepsOrder(j.session, l);
  }

  /** What was received twice stays so. */
  lemma {:induction false} RunKeepsRepeated(key: RunId -> int, r: RunId, first: int, j: Joint, steps: seq<Action>)
    requires Shared(key, r, first, j) && !Ordered(j.session.received) && CanRun(key, r, j, steps)
    ensures Shared(key, r, first, Ran(key, r, j, steps)) && !Ordered(Ran(key, r, j, steps).session.received)
    decreases |steps|
  {
    if steps != [] {
      StepKeepsShared(key, r, first, j, steps[0]);
      if steps[0].Client? {
        StepKeepsRepeats(j.session, steps[0].client);
      }
      RunKeepsRepeated(key, r, first, After(key, r, j, steps[0]), steps[1..]);
    }
  }

  lemma {:induction false} RunKeepsJointInv(key: RunId -> int, r: RunId, first: int, j: Joint, steps: seq<Action>)
    requires JointInv(key, r, first, j) && CanRun(key, r, j, steps)
    ensures Shared(key, r, first, Ran(key, r, j, steps))
    ensures if AnyStale(key, r, j, steps) then !Ordered(Ran(key, r, j, steps).session.received)
            else JointInv(key, r, first, Ran(key, r, j, steps))
    decreases |steps|
  {
    if steps != [] {
      var a := steps[0];
      if a.Client? && StaleRow(j.session, a.client) {
        StepKeepsShared(key, r, first, j, a);
        StaleRowRepeats(j.session);
        RunKeepsRepeated(key, r, first, After(key, r, j, a), steps[1..]);
      } else {
        StepKeepsJointInv(key, r, first, j, a);
        RunKeepsJointInv(key, r, first, After(key, r, j, a), steps[1..]);
      }
    }
  }

  /** Over any interleaving of writers that lock, insert, commit and roll back with a client that
      connects, is sent rows, receives them and drops off: the client has received the committed rows
      of the run after its first cursor from their beginning, without gap, duplicate or reordering, exactly
      when no event has arrived on a stale connection; and no connection sends anything after a terminal
      event. */
  lemma ReceivedIsCommittedSliceExactly(key: RunId -> int, r: RunId, first: int, steps: seq<Action>)
    requires CanRun(key, r, Start(first), steps)
    ensures var j := Ran(key, r, Start(first), steps);
            && (j.session.received <= ListAfter(EventLog.Of(j.log.rows, r), first) <==> !AnyStale(key, r, Start(first), steps))
            && StopsAtTerminal(j.session)
  {
    RunKeepsJointInv(key, r, first, Start(first), steps);
    if AnyStale(key, r, Start(first), steps) {
      var s := Ran(key, r, Start(first), steps).session;
      RepeatsAreNoSlice(s.log, first, s.received);
    }
  }

  /** A client whose connection is idle, with nothing left to list, has received all of them. */
  lemma CaughtUpWithWriters(key: RunId -> int, r: RunId, first: int, steps: seq<Action>)
    requires CanRun(key, r, Start(first), steps) && !AnyStale(key, r, Start(first), steps)
    requires var s := Ran(key, r, Start(first), steps).session;
             s.conn.Some? && s.conn.value.wire == [] && ListAfter(s.log, s.conn.value.cursor) == []
    ensures var j := Ran(key, r, Start(first), steps);
            j.session.received == ListAfter(EventLog.Of(j.log.rows, r), first)
  {
    RunKeepsJointInv(key, r, first, Start(first), steps);
    NothingMissing(Ran(key, r, Start(first), steps).session);
  }
}
