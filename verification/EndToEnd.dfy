/** End-to-end delivery: from a client's writes through the padded wire, in any chunking, to the
    reads on the server's stream. */
module EndToEnd {
  import opened Bytes
  import opened Options
  import opened Texts
  import opened Frames
  import Engine
  import opened Pipes
  import opened Sessions
  import opened SessionSafety
  import opened SessionLifecycle
  import opened SessionReceive
  import opened SessionDelivery
  import opened SessionOutbox
  import opened SessionServer
  import opened SessionEnds
  import opened SessionTermination
  import opened SessionLogs
  import WriterRuns

  // ---- Padding frames are invisible to the reference ----

  lemma NonWasteSnoc(fs: seq<Frame>, f: Frame)
    ensures NonWaste(fs + [f]) == NonWaste(fs) + if f.cmd.Waste? then [] else [f]
  {
    NonWasteConcat(fs, [f]);
    assert [f][1..] == [];
  }

  /** The reference functions look through padding. */
  lemma {:induction false} PaddingUnseen(sid: U32, fs: seq<Frame>)
    ensures DataFor(sid, NonWaste(fs)) == DataFor(sid, fs) && EndedFor(sid, NonWaste(fs)) == EndedFor(sid, fs)
    ensures FirstEnd(sid, NonWaste(fs)) == FirstEnd(sid, fs)
    ensures Mentions(NonWaste(fs), sid) == Mentions(fs, sid)
  {
    if fs != [] {
      var front, f := fs[..|fs| - 1], Last(fs);
      assert fs == front + [f];
      PaddingUnseen(sid, front);
      NonWasteSnoc(front, f);
      DataSnoc(sid, front, f);
      Snoc(front, f, sid);
      if !f.cmd.Waste? {
        DataSnoc(sid, NonWaste(front), f);
        Snoc(NonWaste(front), f, sid);
      } else {
        assert NonWaste(front) + [] == NonWaste(front);
        assert DataFor(sid, front) + [] == DataFor(sid, front);
      }
    }
  }

  lemma {:induction false} SynFirstUnpadded(fs: seq<Frame>)
    requires SynFirst(NonWaste(fs))
    ensures SynFirst(fs)
  {
    if fs != [] {
      var front, f := fs[..|fs| - 1], Last(fs);
      assert fs == front + [f];
      NonWasteSnoc(front, f);
      PaddingUnseen(f.sid, front);
      Snoc(NonWaste(front), f, f.sid);
      assert NonWaste(front) + [] == NonWaste(front);
      SynFirstUnpadded(front);
    }
  }

  // ---- Prefixes ----

  /** More frames add data at the end, and none once the stream has ended. */
  lemma {:induction false} MoreFrames(sid: U32, a: seq<Frame>, b: seq<Frame>)
    requires a <= b
    ensures DataFor(sid, a) <= DataFor(sid, b)
    ensures EndedFor(sid, a) ==> EndedFor(sid, b) && DataFor(sid, b) == DataFor(sid, a) && FirstEnd(sid, b) == FirstEnd(sid, a)
    ensures Mentions(a, sid) ==> Mentions(b, sid)
    ensures SynFirst(b) ==> SynFirst(a)
    decreases |b|
  {
    if |a| == |b| {
      assert a == b;
    } else {
      var front, f := b[..|b| - 1], Last(b);
      assert b == front + [f] && a <= front;
      MoreFrames(sid, a, front);
      DataSnoc(sid, front, f);
      Snoc(front, f, sid);
    }
  }

  lemma {:induction false} DataIsPayload(sid: U32, fs: seq<Frame>)
    ensures DataFor(sid, fs) <= Payload(sid, fs)
    ensures !EndedFor(sid, fs) ==> DataFor(sid, fs) == Payload(sid, fs)
  {
    if fs != [] {
      DataIsPayload(sid, fs[..|fs| - 1]);
    }
  }

  lemma NonWastePrefix(a: seq<Frame>, b: seq<Frame>)
    requires a <= b
    ensures NonWaste(a) <= NonWaste(b)
  {
    assert b == a + b[|a|..];
    NonWasteConcat(a, b[|a|..]);
  }

  // ---- A stream sees all of its frames ----

  lemma {:induction false} Silent(sid: U32, fs: seq<Frame>)
    requires !Mentions(fs, sid)
    ensures DataFor(sid, fs) == [] && !EndedFor(sid, fs) && FirstEnd(sid, fs) == None
  {
    if fs != [] {
      Silent(sid, fs[..|fs| - 1]);
    }
  }

  /** Nothing of a stream comes before its SYN, so a stream created there misses nothing. */
  lemma {:induction false} FromTheSyn(sid: U32, fs: seq<Frame>, k: nat)
    requires SynFirst(fs) && k < |fs| && fs[k].cmd.Syn? && fs[k].sid == sid
    ensures DataFor(sid, fs[k + 1..]) == DataFor(sid, fs) && EndedFor(sid, fs[k + 1..]) == EndedFor(sid, fs)
    ensures FirstEnd(sid, fs[k + 1..]) == FirstEnd(sid, fs)
    ensures Mentions(fs, sid)
    decreases |fs|
  {
    var front, f := fs[..|fs| - 1], Last(fs);
    assert fs == front + [f];
    Snoc(front, f, sid);
    DataSnoc(sid, front, f);
    if k == |fs| - 1 {
      Silent(sid, front);
      assert fs[k + 1..] == [];
    } else {
      FromTheSyn(sid, front, k);
      assert fs[k + 1..] == front[k + 1..] + [f];
      DataSnoc(sid, front[k + 1..], f);
    }
  }

  // ---- The two ends and the wire between them ----

  /** A reachable client that drew fewer than 2^32 identifiers. */
  ghost predicate ClientReached(digest: Text -> Text, client: Session)
  {
    exists cap: nat, engine: Engine.State, order: seq<(Text, Text)>, events: seq<Event> ::
      Run(digest, NewSession(true, cap, engine, order), events) == Some(client) && client.table.opens < IDS
  }

  ghost predicate ServerReached(digest: Text -> Text, server: Session)
  {
    exists cap: nat, engine: Engine.State, events: seq<Event> ::
      Run(digest, NewSession(false, cap, engine, []), events) == Some(server)
  }

  /** The parameters and the events of a run of one end. */
  datatype History = History(cap: nat, engine: Engine.State, order: seq<(Text, Text)>, events: seq<Event>)

  function Start(isClient: bool, h: History): Session
  {
    NewSession(isClient, h.cap, h.engine, if isClient then h.order else [])
  }

  /** The history leads to this state, and a client drew fewer than 2^32 identifiers on its way. */
  ghost predicate Ran(digest: Text -> Text, isClient: bool, h: History, s: Session)
  {
    Run(digest, Start(isClient, h), h.events) == Some(s) && (isClient ==> s.table.opens < IDS)
  }

  /** All bytes the reads on stream `o` returned. */
  function BytesReadOn(digest: Text -> Text, isClient: bool, h: History, o: nat): seq<Byte>
  {
    Returned(ReadLog(digest, Start(isClient, h), h.events, o))
  }

  /** All bytes that writes to stream `o` queued. */
  function BytesWrittenTo(digest: Text -> Text, isClient: bool, h: History, o: nat): seq<Byte>
  {
    Flat(WriteLog(digest, Start(isClient, h), h.events, o))
  }

  lemma RanReached(digest: Text -> Text, isClient: bool, h: History, s: Session)
    requires Ran(digest, isClient, h, s)
    ensures if isClient then ClientReached(digest, s) else ServerReached(digest, s)
  {
    hide Run, NewSession;
  }

  lemma RanLogged(digest: Text -> Text, isClient: bool, h: History, s: Session, o: nat)
    requires Ran(digest, isClient, h, s) && o < |s.table.objs|
    ensures s.table.objs[o].pipe.delivered == BytesReadOn(digest, isClient, h, o)
    ensures s.table.objs[o].sent == BytesWrittenTo(digest, isClient, h, o)
  {
    InitiallySound(isClient, h.cap, h.engine, if isClient then h.order else []);
    assert Start(isClient, h).table.objs == [];
    hide Sound, Run, NewSession, Start;
    LogsAgree(digest, Start(isClient, h), h.events, o);
  }

  lemma ClientFacts(digest: Text -> Text, client: Session)
    requires ClientReached(digest, client)
    ensures Sound(client) && OutboxOk(client)
  {
    var cap: nat, engine: Engine.State, order: seq<(Text, Text)>, events: seq<Event> :|
      Run(digest, NewSession(true, cap, engine, order), events) == Some(client) && client.table.opens < IDS;
    var init := NewSession(true, cap, engine, order);
    InitiallyDelivered(true, cap, engine, order);
    ClientStarts(cap, engine, order);
    InitialOutbox(cap, engine, order);
    hide NewSession, Sound, Tracks, AllDelivered, Reassembled, OutboxOk, ClientOk;
    DeliveryRuns(digest, init, events);
    OutboxRuns(digest, init, events);
  }

  lemma ServerFacts(digest: Text -> Text, server: Session)
    requires ServerReached(digest, server)
    ensures Sound(server) && Tracks(server) && AllDelivered(server) && Reassembled(server.rx) && AllBornBySyn(server)
  {
    var cap: nat, engine: Engine.State, events: seq<Event> :|
      Run(digest, NewSession(false, cap, engine, []), events) == Some(server);
    var init := NewSession(false, cap, engine, []);
    InitiallyDelivered(false, cap, engine, []);
    assert AllBornBySyn(init);
    hide NewSession, Sound, Tracks, AllDelivered, Reassembled, AllBornBySyn;
    DeliveryRuns(digest, init, events);
    BornRuns(digest, init, events);
  }

  /** What rules out lost ends: later streams are born later, closes by the peer are announced, and
      without repeated identifiers every stream is accounted for. */
  lemma ServerEnds(digest: Text -> Text, server: Session)
    requires ServerReached(digest, server)
    ensures BornInOrder(server) && Winding(server)
    ensures Distinct(server.table.objs) ==> AllAccounted(server)
  {
    var cap: nat, engine: Engine.State, events: seq<Event> :|
      Run(digest, NewSession(false, cap, engine, []), events) == Some(server);
    var init := NewSession(false, cap, engine, []);
    InitiallyDelivered(false, cap, engine, []);
    assert AllBornBySyn(init) && BornInOrder(init) && AllAccounted(init) && Winding(init);
    hide NewSession, Sound, Tracks, AllDelivered, Reassembled, AllBornBySyn, BornInOrder, AllAccounted, Distinct, NoEviction, Winding;
    OrderRuns(digest, init, events);
    WindingRuns(digest, init, events);
    if Distinct(server.table.objs) {
      DistinctRuns(digest, init, events);
      RunAccounts(digest, init, events);
    }
  }

  /** The sender's writer task has taken frames off its queue in order, each of which fits, under
      schemes with numbers up to 65535; the receiver has received some prefix of the wire. */
  ghost predicate Connected(sender: Session, ops: seq<WriterRuns.Op>, receiver: Session)
  {
    var writer := WriterRuns.Run(sender.isClient, ops);
    && WriterRuns.Fair(sender.isClient, ops)
    && writer.submitted <= sender.channel.frames
    && receiver.rx.received <= writer.Wire()
  }

  /** Everything queued has been written and has arrived, and the receive loop is at rest. */
  ghost predicate Settled(sender: Session, ops: seq<WriterRuns.Op>, receiver: Session)
  {
    var writer := WriterRuns.Run(sender.isClient, ops);
    && writer.submitted == sender.channel.frames && writer.ws.buffer == []
    && receiver.rx.received == writer.Wire()
    && receiver.rx.at.Next? && receiver.rx.todo == [] && Decode(receiver.rx.pending).None?
  }

  /** The frames the receiver has handled are, padding aside, the first frames the sender queued. */
  lemma WirePrefix(ops: seq<WriterRuns.Op>, sender: Session, receiver: Session)
    requires Connected(sender, ops, receiver)
    requires Reassembled(receiver.rx) && Unpadded(sender.channel.frames)
    ensures NonWaste(receiver.rx.handled) <= sender.channel.frames
    ensures Settled(sender, ops, receiver) ==> NonWaste(receiver.rx.handled) == sender.channel.frames
  {
    var t := WriterRuns.Run(sender.isClient, ops);
    var wire := t.Wire();
    hide WriterRuns.Fair, Parsed, Tail;
    WriterRuns.PaddingIsTransparent(sender.isClient, ops);
    ParsePrefix(receiver.rx.received, wire);
    assert receiver.rx.handled <= Parsed(receiver.rx.received);
    NonWastePrefix(receiver.rx.handled, Parsed(wire));
    NonWastePrefix(t.submitted, sender.channel.frames);
    NonWasteIdentity(sender.channel.frames);
    assert NonWaste(Parsed(wire)) <= NonWaste(t.submitted);
    if Settled(sender, ops, receiver) {
      SettledFrames(receiver.rx);
      WriterRuns.ShortParse([]);
      assert NonWaste(Parsed(wire)) + [] == NonWaste(Parsed(wire));
    }
  }

  lemma SettledFrames(rx: Receiver)
    requires Reassembled(rx) && Decode(rx.pending).None?
    ensures rx.handled == Parsed(rx.received)
  {
    assert rx.handled + [] == rx.handled;
  }

  /** What was addressed to a server stream, against the client's queue. */
  ghost predicate Sourced(x: Stream, handled: seq<Frame>, frames: seq<Frame>)
    requires x.born <= |handled|
  {
    && DataFor(x.sid, Seen(x, handled)) <= DataFor(x.sid, frames)
    && (EndedFor(x.sid, Seen(x, handled)) ==>
          && EndedFor(x.sid, frames) && DataFor(x.sid, Seen(x, handled)) == DataFor(x.sid, frames)
          && FirstEnd(x.sid, Seen(x, handled)) == FirstEnd(x.sid, frames))
    && (NonWaste(handled) == frames ==>
          && DataFor(x.sid, Seen(x, handled)) == DataFor(x.sid, frames)
          && EndedFor(x.sid, Seen(x, handled)) == EndedFor(x.sid, frames))
    && Mentions(frames, x.sid)
  }

  lemma StreamSource(x: Stream, handled: seq<Frame>, frames: seq<Frame>)
    requires BornBySyn(x, handled) && SynFirst(frames) && NonWaste(handled) <= frames
    ensures Sourced(x, handled, frames)
  {
    hide DataFor, EndedFor, FirstEnd, SynFirst, Mentions;
    MoreFrames(x.sid, NonWaste(handled), frames);
    SynFirstUnpadded(handled);
    FromTheSyn(x.sid, handled, x.born - 1);
    PaddingUnseen(x.sid, handled);
  }

  lemma QueueFacts(client: Session)
    requires OutboxOk(client)
    ensures OwnFrames(client.channel.frames) && SynFirst(client.channel.frames) && Unpadded(client.channel.frames)
  {
    hide Mentions, Payload, Fins, SynFirst, OnlyOpened, OneSyn, Recorded;
  }

  lemma ClientStream(client: Session, sid: U32)
    requires OutboxOk(client) && Mentions(client.channel.frames, sid)
    ensures 1 <= sid <= |client.table.objs|
    ensures Payload(sid, client.channel.frames) == client.table.objs[sid - 1].sent
  {
    hide Mentions, Payload, Fins, OwnFrames, SynFirst, OneSyn;
    assert Recorded(client.table.objs[sid - 1], sid - 1, client.channel);
  }

  lemma ServerStream(server: Session, o: nat)
    requires Sound(server) && AllDelivered(server) && AllBornBySyn(server) && o < |server.table.objs|
    ensures var x := server.table.objs[o];
            && StreamOk(x) && Delivered(x, o, server.table.Attached(o), server.rx) && BornBySyn(x, server.rx.handled)
  {
    hide StreamOk, Delivered, BornBySyn, TasksOk, AtOk, MapOk;
  }

  /** A server stream, and the client stream it belongs to. */
  ghost predicate Paired(client: Session, server: Session, o: nat)
    requires o < |server.table.objs|
  {
    var x := server.table.objs[o];
    && StreamOk(x) && Delivered(x, o, server.table.Attached(o), server.rx)
    && x.born <= |server.rx.handled| && Sourced(x, server.rx.handled, client.channel.frames)
    && 1 <= x.sid <= |client.table.objs|
    && Payload(x.sid, client.channel.frames) == client.table.objs[x.sid - 1].sent
  }

  lemma Counterpart(digest: Text -> Text, ops: seq<WriterRuns.Op>, client: Session, server: Session, o: nat)
    requires ClientReached(digest, client) && ServerReached(digest, server)
    requires Connected(client, ops, server) && o < |server.table.objs|
    ensures Paired(client, server, o)
    ensures Settled(client, ops, server) ==>
              NonWaste(server.rx.handled) == client.channel.frames
  {
    hide Sound, Tracks, AllDelivered, Reassembled, AllBornBySyn, OutboxOk, ClientReached, ServerReached,
         Connected, Settled, StreamOk, Delivered, OwnFrames, SynFirst, Payload, Mentions, DataFor, EndedFor, NonWaste;
    var x := server.table.objs[o];
    ClientFacts(digest, client);
    ServerFacts(digest, server);
    QueueFacts(client);
    ServerStream(server, o);
    WirePrefix(ops, client, server);
    StreamSource(x, server.rx.handled, client.channel.frames);
    ClientStream(client, x.sid);
  }

  /** End to end, always: whatever the interleavings, drawn sizes, chunk boundaries and read sizes,
      the bytes that reads on a server stream returned are a prefix of the bytes written to the client
      stream with its identifier. */
  lemma DeliveredIsPrefix(digest: Text -> Text, ops: seq<WriterRuns.Op>, past: History, client: Session,
                          history: History, server: Session, o: nat)
    requires Ran(digest, true, past, client) && Ran(digest, false, history, server)
    requires Connected(client, ops, server) && o < |server.table.objs|
    ensures var sid := server.table.objs[o].sid;
            && 1 <= sid <= |client.table.objs|
            && BytesReadOn(digest, false, history, o) <= BytesWrittenTo(digest, true, past, sid - 1)
  {
    hide Ran, Connected, BytesReadOn, BytesWrittenTo, ClientReached, ServerReached;
    RanReached(digest, true, past, client);
    RanReached(digest, false, history, server);
    DeliveredIsSent(digest, ops, client, server, o);
    RanLogged(digest, false, history, server, o);
    RanLogged(digest, true, past, client, server.table.objs[o].sid - 1);
  }

  lemma DeliveredIsSent(digest: Text -> Text, ops: seq<WriterRuns.Op>, client: Session, server: Session, o: nat)
    requires ClientReached(digest, client) && ServerReached(digest, server)
    requires Connected(client, ops, server) && o < |server.table.objs|
    ensures var x := server.table.objs[o];
            1 <= x.sid <= |client.table.objs| && x.pipe.delivered <= client.table.objs[x.sid - 1].sent
  {
    hide ClientReached, ServerReached, Connected, Settled, StreamOk, Delivered, Payload, Mentions,
         DataFor, EndedFor, NonWaste;
    var x := server.table.objs[o];
    Counterpart(digest, ops, client, server, o);
    PipeIsPrefix(x, server.rx, o, server.table.Attached(o));
    DataIsPayload(x.sid, client.channel.frames);
  }

  lemma PipeIsPrefix(x: Stream, rx: Receiver, o: nat, attached: bool)
    requires StreamOk(x) && Delivered(x, o, attached, rx)
    ensures x.pipe.delivered <= DataFor(x.sid, Seen(x, rx.handled))
  {
    hide DataFor, EndedFor, InFlight, CloseNext, EndLast;
    assert Conserved(x.pipe);
  }

  /** An open stream of a receive loop at rest has accepted all that was addressed to it. */
  lemma RestingStream(x: Stream, rx: Receiver, o: nat)
    requires StreamOk(x) && Delivered(x, o, true, rx) && !x.Closed() && rx.at.Next? && rx.todo == []
    ensures x.pipe.delivered + (x.pipe.buffer + BytesOf(x.pipe.Pending())) == DataFor(x.sid, Seen(x, rx.handled))
    ensures !EndedFor(x.sid, Seen(x, rx.handled))
  {
    hide DataFor, EndedFor, EndLast;
    assert Conserved(x.pipe);
    assert x.pipe.accepted + [] == x.pipe.accepted;
  }

  /** End to end, complete: once everything queued has arrived, an open server stream holds exactly
      the bytes written, as read so far, left over and still queued; a drained one has read them all. */
  lemma SettledIsComplete(digest: Text -> Text, ops: seq<WriterRuns.Op>, past: History, client: Session,
                          history: History, server: Session, o: nat)
    requires Ran(digest, true, past, client) && Ran(digest, false, history, server)
    requires Connected(client, ops, server) && Settled(client, ops, server)
    requires o < |server.table.objs| && server.table.Attached(o) && !server.table.objs[o].Closed()
    ensures var x := server.table.objs[o];
            && 1 <= x.sid <= |client.table.objs|
            && BytesReadOn(digest, false, history, o) + (x.pipe.buffer + BytesOf(x.pipe.Pending()))
               == BytesWrittenTo(digest, true, past, x.sid - 1)
  {
    hide Ran, Connected, Settled, BytesReadOn, BytesWrittenTo, ClientReached, ServerReached, BytesOf;
    RanReached(digest, true, past, client);
    RanReached(digest, false, history, server);
    SettledHoldsAll(digest, ops, client, server, o);
    RanLogged(digest, false, history, server, o);
    RanLogged(digest, true, past, client, server.table.objs[o].sid - 1);
  }

  lemma SettledHoldsAll(digest: Text -> Text, ops: seq<WriterRuns.Op>, client: Session, server: Session, o: nat)
    requires ClientReached(digest, client) && ServerReached(digest, server)
    requires Connected(client, ops, server) && Settled(client, ops, server)
    requires o < |server.table.objs| && server.table.Attached(o) && !server.table.objs[o].Closed()
    ensures var x := server.table.objs[o];
            && 1 <= x.sid <= |client.table.objs|
            && x.pipe.delivered + (x.pipe.buffer + BytesOf(x.pipe.Pending())) == client.table.objs[x.sid - 1].sent
  {
    hide ClientReached, ServerReached, Connected, StreamOk, Delivered, Payload, Mentions,
         DataFor, EndedFor, NonWaste, BytesOf, Decode;
    var x := server.table.objs[o];
    Counterpart(digest, ops, client, server, o);
    RestingStream(x, server.rx, o);
    DataIsPayload(x.sid, client.channel.frames);
  }

  // ---- A FIN ends the stream at the other end ----

  lemma {:induction false} EndedIsFin(sid: U32, fs: seq<Frame>)
    requires OwnFrames(fs)
    ensures EndedFor(sid, fs) <==> Fins(sid, fs) > 0
  {
    if fs != [] {
      assert OwnFrames(fs[..|fs| - 1]);
      EndedIsFin(sid, fs[..|fs| - 1]);
    }
  }

  /** A client's own frames never refuse a stream. */
  lemma {:induction false} OwnEnds(sid: U32, fs: seq<Frame>)
    requires OwnFrames(fs)
    ensures FirstEnd(sid, fs) == None
  {
    if fs != [] {
      assert OwnFrames(fs[..|fs| - 1]);
      OwnEnds(sid, fs[..|fs| - 1]);
    }
  }

  lemma {:induction false} MentionsAt(fs: seq<Frame>, i: nat)
    requires i < |fs| && Talks(fs[i])
    ensures Mentions(fs, fs[i].sid)
  {
    if i < |fs| - 1 {
      MentionsAt(fs[..|fs| - 1], i);
    }
  }

  lemma {:induction false} SynIsFirst(fs: seq<Frame>, j: nat)
    requires SynFirst(fs) && j < |fs| && fs[j].cmd.Syn?
    ensures !Mentions(fs[..j], fs[j].sid)
  {
    if j < |fs| - 1 {
      SynIsFirst(fs[..|fs| - 1], j);
      assert fs[..|fs| - 1][..j] == fs[..j];
    }
  }

  /** A client that opens every stream with one SYN never gives a server two streams of one name. */
  lemma ServerDistinct(server: Session)
    requires AllBornBySyn(server) && BornInOrder(server) && SynFirst(server.rx.handled)
    ensures Distinct(server.table.objs)
  {
    hide SynFirst, Mentions;
    var objs, fs := server.table.objs, server.rx.handled;
    forall i, j | 0 <= i < j < |objs|
      ensures objs[i].sid != objs[j].sid
    {
      assert BornBySyn(objs[i], fs) && BornBySyn(objs[j], fs);
      var a, b := objs[i].born - 1, objs[j].born - 1;
      SynIsFirst(fs, b);
      assert fs[..b][a] == fs[a];
      MentionsAt(fs[..b], a);
    }
  }

  /** The reader of a stream that the peer has closed still gets exactly `data`, and then the end with
      `error`. */
  ghost predicate EndsWith(p: Pipe, data: seq<Byte>, error: Option<Error>)
  {
    var events := p.Pending();
    && p.endQueued && p.endError == error
    && p.delivered + (p.buffer + BytesOf(events)) == data
    && (if p.closed then p.delivered == data else events != [] && events[|events| - 1] == StreamEnd(error))
  }

  lemma ClosedByPeer(x: Stream, rx: Receiver, o: nat, attached: bool)
    requires StreamOk(x) && Delivered(x, o, attached, rx) && !rx.at.PeerFinish? && x.closedBy == Some(Peer)
    ensures EndedFor(x.sid, Seen(x, rx.handled))
    ensures EndsWith(x.pipe, DataFor(x.sid, Seen(x, rx.handled)), FirstEnd(x.sid, Seen(x, rx.handled)))
  {
    hide DataFor, EndedFor, FirstEnd, InFlight, CloseNext, BytesOf;
    assert Conserved(x.pipe) && EndLast(x.pipe);
    if x.pipe.closed {
      NothingPending(x.pipe);
    }
  }

  lemma NothingPending(p: Pipe)
    requires Conserved(p) && p.buffer == [] && p.Pending() == []
    ensures p.delivered == p.accepted
  {
    assert p.delivered + ([] + []) == p.delivered;
  }

  /** At rest, a stream whose end has arrived is no longer in the map. */
  lemma EndedDetached(x: Stream, rx: Receiver, o: nat, attached: bool)
    requires Delivered(x, o, attached, rx) && rx.at.Next? && rx.todo == [] && EndedFor(x.sid, Seen(x, rx.handled))
    ensures !attached
  {
    hide DataFor, EndedFor;
  }

  lemma AccountedOne(server: Session, o: nat)
    requires AllAccounted(server) && o < |server.table.objs| && !server.table.Attached(o)
    ensures server.table.objs[o].Closed() || Closing(server, o)
  {
    hide Closing;
    assert Accounted(server, o);
  }

  /** What the server side knows of its own ends when it serves such a client. */
  lemma ServerAtEnd(digest: Text -> Text, ops: seq<WriterRuns.Op>, client: Session, server: Session)
    requires ClientReached(digest, client) && ServerReached(digest, server)
    requires Connected(client, ops, server)
    ensures AllAccounted(server) && Winding(server) && OwnFrames(client.channel.frames)
  {
    hide ClientReached, ServerReached, Sound, Tracks, AllDelivered, Reassembled, AllBornBySyn, OutboxOk,
         Connected, SynFirst, NonWaste, BornInOrder, AllAccounted, Distinct, OwnFrames, Winding;
    ClientFacts(digest, client);
    ServerFacts(digest, server);
    ServerEnds(digest, server);
    QueueFacts(client);
    WirePrefix(ops, client, server);
    HandledFrames(server.rx.handled, client.channel.frames);
    ServerDistinct(server);
  }

  lemma HandledFrames(handled: seq<Frame>, frames: seq<Frame>)
    requires NonWaste(handled) <= frames && SynFirst(frames)
    ensures SynFirst(handled)
  {
    hide SynFirst, NonWaste;
    MoreFrames(0, NonWaste(handled), frames);
    SynFirstUnpadded(handled);
  }

  /** End to end, the end: once everything queued has arrived and a FIN was among it, the server
      stream is closed or its close by the session is pending; and if the peer's close came first,
      its reader gets exactly what was queued before the FIN, and then the end without an error. */
  lemma FinMeansEof(digest: Text -> Text, ops: seq<WriterRuns.Op>, client: Session, server: Session, o: nat)
    requires ClientReached(digest, client) && ServerReached(digest, server)
    requires Connected(client, ops, server) && Settled(client, ops, server)
    requires o < |server.table.objs| && Fins(server.table.objs[o].sid, client.channel.frames) > 0
    ensures var x := server.table.objs[o];
            && !Open(server, o)
            && (x.closedBy == Some(Peer) ==> EndsWith(x.pipe, DataFor(x.sid, client.channel.frames), None))
  {
    hide ClientReached, ServerReached, Connected, StreamOk, Delivered, Payload, Mentions, OwnFrames, Winding,
         DataFor, EndedFor, FirstEnd, NonWaste, BytesOf, Decode, AllAccounted, Closing, Fins, EndsWith;
    var x := server.table.objs[o];
    Counterpart(digest, ops, client, server, o);
    ServerAtEnd(digest, ops, client, server);
    EndedIsFin(x.sid, client.channel.frames);
    EndedDetached(x, server.rx, o, server.table.Attached(o));
    AccountedOne(server, o);
    OwnEnds(x.sid, client.channel.frames);
    if x.closedBy == Some(Peer) {
      ClosedByPeer(x, server.rx, o, server.table.Attached(o));
    }
  }

  // ---- What an end of file means ----

  /** The read that `step` ends reports end of file to a reader with a non-empty buffer. */
  ghost predicate ReportsEof(s: Session, o: nat, step: PipeStep)
  {
    && Possible(s, Api(ReadStream(o, step))) && RoomOf(s.table.objs[o].pipe, step) > 0
    && Result(s.table.objs[o].pipe, step) == Some(Ok([]))
  }

  /** End to end, end of file: the stream is closed, what was read is a prefix of what was written,
      and it depends on who closed it. The peer did: a FIN was queued and everything before it has
      been read. The session did: it is terminated. Otherwise the reader's own side did. */
  lemma EofCases(digest: Text -> Text, ops: seq<WriterRuns.Op>, client: Session, server: Session, o: nat, step: PipeStep)
    requires ClientReached(digest, client) && ServerReached(digest, server)
    requires Connected(client, ops, server) && ReportsEof(server, o, step)
    ensures var x := server.table.objs[o];
            var delivered := Apply(x.pipe, step).delivered;
            && x.Closed() && 1 <= x.sid <= |client.table.objs| && delivered <= client.table.objs[x.sid - 1].sent
            && (x.closedBy == Some(Peer) ==>
                  && Fins(x.sid, client.channel.frames) > 0
                  && delivered == DataFor(x.sid, client.channel.frames))
            && (x.closedBy == Some(SessionEnd) ==> server.Terminated())
  {
    hide ClientReached, ServerReached, Connected, StreamOk, Delivered, Payload, Mentions, Fins,
         DataFor, EndedFor, FirstEnd, NonWaste, Result, RoomOf, Enabled, Apply, OwnFrames, AllAccounted, Winding;
    var x := server.table.objs[o];
    Counterpart(digest, ops, client, server, o);
    ServerAtEnd(digest, ops, client, server);
    EndedIsFin(x.sid, client.channel.frames);
    EofOfStream(x, server.rx, o, server.table.Attached(o), step);
    DataIsPayload(x.sid, client.channel.frames);
    WindingOne(server, o);
  }

  lemma EofOfStream(x: Stream, rx: Receiver, o: nat, attached: bool, step: PipeStep)
    requires StreamOk(x) && Delivered(x, o, attached, rx) && Enabled(x.pipe, step) && RoomOf(x.pipe, step) > 0
    requires step.Check? || step.Take? || step.Receive? || step.Restore?
    requires Result(x.pipe, step) == Some(Ok([]))
    ensures x.Closed() && Apply(x.pipe, step).delivered <= DataFor(x.sid, Seen(x, rx.handled))
    ensures x.closedBy == Some(Peer) ==>
              && EndedFor(x.sid, Seen(x, rx.handled))
              && Apply(x.pipe, step).delivered == DataFor(x.sid, Seen(x, rx.handled))
  {
    hide DataFor, EndedFor, InFlight, CloseNext, Inv, Result, RoomOf, Enabled, Apply;
    ReadsAccepted(x.pipe, step);
    PipeEndsOnlyClosed(x.pipe, step);
    if !x.pipe.closedLocally {
      EofIsEnd(x.pipe, step);
    }
  }

  /** A read accepts nothing and delivers only what was accepted. */
  lemma ReadsAccepted(p: Pipe, step: PipeStep)
    requires Inv(p) && Enabled(p, step) && (step.Check? || step.Take? || step.Receive? || step.Restore?)
    ensures Apply(p, step).delivered <= p.accepted
  {
    hide Inv, Apply, Enabled;
    Preserved(p, step);
    DeliveredAccepted(Apply(p, step));
    ReadsAcceptNothing(p, step);
  }

  lemma DeliveredAccepted(p: Pipe)
    requires Inv(p)
    ensures p.delivered <= p.accepted
  {
    hide EndLast, NoEmpty;
    assert Conserved(p);
  }

  lemma ReadsAcceptNothing(p: Pipe, step: PipeStep)
    requires Enabled(p, step) && !step.Write?
    ensures Apply(p, step).accepted == p.accepted
  {
  }

  /** End of file on a stream that the reader's side has not closed, in a session that is not
      terminated: only after the client's FIN, with everything written before it read. */
  lemma EofMeansFin(digest: Text -> Text, ops: seq<WriterRuns.Op>, client: Session, server: Session, o: nat, step: PipeStep)
    requires ClientReached(digest, client) && ServerReached(digest, server)
    requires Connected(client, ops, server) && ReportsEof(server, o, step)
    requires !server.Terminated() && server.table.objs[o].closedBy != Some(Local)
    ensures var x := server.table.objs[o];
            && Fins(x.sid, client.channel.frames) > 0
            && Apply(x.pipe, step).delivered == DataFor(x.sid, client.channel.frames)
  {
    hide ClientReached, ServerReached, Connected, Fins, DataFor, Result, RoomOf, Enabled, Apply;
    EofCases(digest, ops, client, server, o, step);
    assert server.table.objs[o].closedBy.value.Peer?;
  }
}
