/** A client's connections one after the other: what it has seen, and the id it sends back. */
module Connections {
  import opened Domain
  import opened EventLog
  import opened Wire

  // ---- what came over ----

  /** The events among the frames that came over on the first `n` connections. */
  function Arrived(came: seq<seq<Frame>>, n: nat): seq<Frame>
    requires n <= |came|
  {
    if n == 0 then [] else Arrived(came, n - 1) + Events(came[n - 1])
  }

  /** After the last event, a later connection brought a keep-alive. */
  predicate Emptied(came: seq<seq<Frame>>, n: nat)
    requires n <= |came|
  {
    exists k :: 0 <= k < n && came[k] != [] && 0 < |Arrived(came, k)| == |Arrived(came, n)|
  }

  lemma {:induction false} ArrivedEvents(came: seq<seq<Frame>>, n: nat)
    requires n <= |came|
    ensures AllEvents(Arrived(came, n))
  {
    if n > 0 {
      ArrivedEvents(came, n - 1);
    }
  }

  lemma {:induction false} ArrivedGrows(came: seq<seq<Frame>>, k: nat, n: nat)
    requires k <= n <= |came|
    ensures |Arrived(came, k)| <= |Arrived(came, n)|
  {
    if k < n {
      ArrivedGrows(came, k, n - 1);
    }
  }

  /** The number of the last event among the frames. */
  function LastNumber(frames: seq<Frame>): Option<int> {
    if frames == [] then None
    else if frames[|frames| - 1].EventFrame? then Some(frames[|frames| - 1].seqNo)
    else LastNumber(frames[..|frames| - 1])
  }

  /** A number as the id text; no number is the empty string. */
  function IdText(n: Option<int>): string {
    if n.None? then "" else IntText(n.value)
  }

  lemma {:induction false} LastIdIs(frames: seq<Frame>)
    ensures LastId("", frames) == IdText(LastNumber(frames))
  {
    if frames != [] && frames[|frames| - 1].CommentFrame? {
      LastIdIs(frames[..|frames| - 1]);
    }
  }

  lemma {:induction false} LastNumberOfEvents(frames: seq<Frame>)
    ensures LastNumber(frames) == LastNumber(Events(frames))
  {
    if frames != [] {
      var n := |frames| - 1;
      assert frames == frames[..n] + [frames[n]];
      EventsConcat(frames[..n], [frames[n]]);
      if frames[n].EventFrame? {
        assert Events([frames[n]]) == [frames[n]];
      } else {
        assert Events([frames[n]]) == [];
        LastNumberOfEvents(frames[..n]);
      }
    }
  }

  lemma LastArrived(before: seq<Frame>, frames: seq<Frame>)
    ensures LastNumber(before + Events(frames)) == if Events(frames) == [] then LastNumber(before) else LastNumber(frames)
    ensures Events(frames) == [] ==> LastNumber(frames) == None
  {
    LastNumberOfEvents(frames);
    if Events(frames) == [] {
      assert before + Events(frames) == before;
    }
  }

  lemma EventsNumbered(events: seq<Frame>)
    requires AllEvents(events)
    ensures LastNumber(events) == if events == [] then None else Some(events[|events| - 1].seqNo)
  {
  }

  /** Keep-alives alone empty the string if there was an event before; an event sets it; and a connection
      that brings nothing leaves it. */
  lemma EmptiedStep(came: seq<seq<Frame>>, n: nat)
    requires n < |came|
    ensures Emptied(came, n + 1) == (Events(came[n]) == [] && if came[n] == [] then Emptied(came, n) else Arrived(came, n) != [])
  {
    forall k | 0 <= k <= n
      ensures |Arrived(came, k)| <= |Arrived(came, n)|
    {
      ArrivedGrows(came, k, n);
    }
    assert |Arrived(came, n + 1)| == |Arrived(came, n)| + |Events(came[n])|;
  }

  /** The number, connection by connection: that of the last one that brought anything. */
  function Kept(came: seq<seq<Frame>>, n: nat): Option<int>
    requires n <= |came|
  {
    if n == 0 then None else if came[n - 1] == [] then Kept(came, n - 1) else LastNumber(came[n - 1])
  }

  /** It is that of the last event, unless a keep-alive came over on a connection after it. */
  lemma {:induction false} KeptExactly(came: seq<seq<Frame>>, n: nat)
    requires n <= |came|
    ensures Kept(came, n) == if Emptied(came, n) then None else LastNumber(Arrived(came, n))
  {
    if n > 0 {
      KeptExactly(came, n - 1);
      EmptiedStep(came, n - 1);
      LastArrived(Arrived(came, n - 1), came[n - 1]);
    }
  }

  // ---- what the client makes of it ----

  /** The text is what a client got of a stream of frames that was cut somewhere: these came over whole. */
  ghost predicate Brings(text: string, came: seq<Frame>) {
    exists frames :: CutOf(frames, text, came)
  }

  ghost predicate CutOf(frames: seq<Frame>, text: string, came: seq<Frame>) {
    text <= PrintAll(frames) && came == Whole(frames, |text|)
  }

  /** What a client keeps between connections, and what it has seen. */
  datatype Seen = Seen(last: string, messages: seq<Message>)

  /** From the last event ID string and a connection's text to the new string and the messages. */
  type Reader = (string, string) -> Seen

  /** The parser of section 9.2.6, on one connection. */
  function Parser(): Reader {
    (last: string, text: string) => var (b, m) := ParseFrom(last, text); Seen(b.last, m)
  }

  /** The client after the first `n` connections. */
  function Client(reader: Reader, texts: seq<string>, n: nat): Seen
    requires n <= |texts|
  {
    if n == 0 then Seen("", [])
    else
      var before := Client(reader, texts, n - 1);
      var now := reader(before.last, texts[n - 1]);
      Seen(now.last, before.messages + now.messages)
  }

  ghost predicate AllBring(texts: seq<string>, came: seq<seq<Frame>>) {
    |texts| == |came| && forall i :: 0 <= i < |texts| ==> Brings(texts[i], came[i])
  }

  /** The reader keeps the id of the last event that came over. */
  ghost predicate Keeps(reader: Reader, text: string, came: seq<Frame>) {
    forall last: string :: reader(last, text).last == if came == [] then last else IdText(LastNumber(came))
  }

  /** The reader gives the events that came over. */
  ghost predicate Gives(reader: Reader, text: string, came: seq<Frame>) {
    forall last: string :: reader(last, text).messages == Messages(Events(came))
  }

  lemma ParserReads(text: string, came: seq<Frame>)
    requires Brings(text, came)
    ensures Keeps(Parser(), text, came) && Gives(Parser(), text, came)
  {
    var frames :| CutOf(frames, text, came);
    assert text == PrintAll(frames)[..|text|];
    forall last: string
      ensures Parser()(last, text) == Seen(if came == [] then last else IdText(LastNumber(came)), Messages(Events(came)))
    {
      CutAnywhere(last, frames, |text|);
      LastIdIs(came);
      MessagesOfEvents(came);
    }
  }

  lemma {:induction false} LastFollows(reader: Reader, texts: seq<string>, came: seq<seq<Frame>>, n: nat)
    requires |texts| == |came| && n <= |texts| && forall i :: 0 <= i < |texts| ==> Keeps(reader, texts[i], came[i])
    ensures Client(reader, texts, n).last == IdText(Kept(came, n))
  {
    if n > 0 {
      LastFollows(reader, texts, came, n - 1);
      assert Keeps(reader, texts[n - 1], came[n - 1]);
    }
  }

  lemma {:induction false} MessagesFollow(reader: Reader, texts: seq<string>, came: seq<seq<Frame>>, n: nat)
    requires |texts| == |came| && n <= |texts| && forall i :: 0 <= i < |texts| ==> Gives(reader, texts[i], came[i])
    ensures Client(reader, texts, n).messages == Messages(Arrived(came, n))
  {
    if n > 0 {
      MessagesFollow(reader, texts, came, n - 1);
      assert Gives(reader, texts[n - 1], came[n - 1]);
      MessagesConcat(Arrived(came, n - 1), Events(came[n - 1]));
    }
  }

  /** Whatever was sent and wherever the connections were cut: the client has seen exactly the events that
      came over whole, and the id it sends back is that of the last of them exactly when no later
      connection has brought a whole keep-alive; otherwise it sends none. */
  lemma HeaderIsLastExactly(texts: seq<string>, came: seq<seq<Frame>>, n: nat)
    requires AllBring(texts, came) && n <= |texts|
    ensures Client(Parser(), texts, n).messages == Messages(Arrived(came, n))
    ensures Client(Parser(), texts, n).last == IdText(if Emptied(came, n) then None else LastNumber(Arrived(came, n)))
    ensures Client(Parser(), texts, n).last == IdText(LastNumber(Arrived(came, n))) <==> !Emptied(came, n)
  {
    var parser := Parser();
    forall i | 0 <= i < |texts|
      ensures Keeps(parser, texts[i], came[i]) && Gives(parser, texts[i], came[i])
    {
      ParserReads(texts[i], came[i]);
    }
    LastFollows(parser, texts, came, n);
    MessagesFollow(parser, texts, came, n);
    KeptExactly(came, n);
    ArrivedEvents(came, n);
    EventsNumbered(Arrived(came, n));
    IdReadBack(LastNumber(Arrived(came, n)));
  }

  /** Where the next connection starts: right after the last event seen, or, if there is none or the id was
      emptied, where the client started from. */
  lemma ReconnectResumesAtLast(texts: seq<string>, came: seq<seq<Frame>>, n: nat, afterSeq: int)
    requires AllBring(texts, came) && n <= |texts|
    ensures AllEvents(Arrived(came, n))
    ensures StartCursor(afterSeq, ReconnectHeader(Client(Parser(), texts, n).last))
              == if Arrived(came, n) == [] || Emptied(came, n) then afterSeq
                 else Arrived(came, n)[|Arrived(came, n)| - 1].seqNo
  {
    HeaderIsLastExactly(texts, came, n);
    ArrivedEvents(came, n);
    EventsNumbered(Arrived(came, n));
    IdReadBack(LastNumber(Arrived(came, n)));
  }

  /** Sending an id text back takes the cursor to its number. */
  lemma IdReadBack(n: Option<int>)
    ensures IdText(n) == "" <==> n.None?
    ensures forall afterSeq: int ::
              StartCursor(afterSeq, ReconnectHeader(IdText(n))) == if n.None? then afterSeq else n.value
  {
    if n.Some? {
      IntRoundTrip(n.value);
      DecimalRoundTrip(if n.value < 0 then -n.value else n.value);
    }
  }

  /** A client that has seen an event and then, on its next connection, a keep-alive, starts over. */
  lemma KeepAliveEmptiesHeader(f: Frame, afterSeq: int)
    requires f.EventFrame?
    ensures var texts := [PrintAll([f]), PrintAll([CommentFrame])];
            && AllBring(texts, [[f], [CommentFrame]])
            && Client(Parser(), texts, 2).messages == Messages([f])
            && StartCursor(afterSeq, ReconnectHeader(Client(Parser(), texts, 1).last)) == f.seqNo
            && StartCursor(afterSeq, ReconnectHeader(Client(Parser(), texts, 2).last)) == afterSeq
  {
    var texts, came := [PrintAll([f]), PrintAll([CommentFrame])], [[f], [CommentFrame]];
    BringsWhole([f]);
    BringsWhole([CommentFrame]);
    assert [f][1..] == [] && [CommentFrame][1..] == [];
    assert Events([f]) == [f] + [];
    assert Events([CommentFrame]) == [];
    assert Arrived(came, 0) == [] && Arrived(came, 1) == [] + [f] && Arrived(came, 2) == [f] + [];
    EmptiedStep(came, 0);
    EmptiedStep(came, 1);
    HeaderIsLastExactly(texts, came, 2);
    ReconnectResumesAtLast(texts, came, 1, afterSeq);
    ReconnectResumesAtLast(texts, came, 2, afterSeq);
  }

  lemma {:induction false} WholeAll(frames: seq<Frame>)
    ensures Whole(frames, |PrintAll(frames)|) == frames
  {
    if frames != [] {
      WholeAll(frames[1..]);
    }
  }

  /** Every sequence of frames can be what came over. */
  lemma BringsWhole(frames: seq<Frame>)
    ensures Brings(PrintAll(frames), frames)
  {
    WholeAll(frames);
    assert CutOf(frames, PrintAll(frames), frames);
  }
}
