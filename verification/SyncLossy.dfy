/** Why no frame of an attached client may vanish, as the rate limiter makes them: a late ack of a first
    copy completes a second one that never arrived. */
module SyncLossy {
  import opened Common
  import opened SendQueue
  import opened SendQueueRuns
  import opened SendQueueRefinement
  import opened SyncWithQueues
  import opened SyncSteps
  import opened SyncSettles
  import M = SyncMachine

  /** The client's next two single edits, written as updates that merge into one message. */
  ghost predicate EditsMerge(w: World, c: M.ClientId, p: Peer, m1: CollabMessage, m2: CollabMessage) {
    var k, id := p.rest.clock, p.sink.counter;
    && IsUpdate(w.cfg.yrs, m1) && m1.msgId == id && w.item(m1) == M.UpdateSync(M.NewOps(c, k, 1))
    && IsUpdate(w.cfg.yrs, m2) && m2.msgId == id + 1 && w.item(m2) == M.UpdateSync(M.NewOps(c, k + 1, 1))
    && Merge(w.cfg.yrs, w.cfg.maximumPayloadSize, m1, m2).Continue?
  }

  /** The peer whose last frame vanished on the way. */
  function FrameLost(p: Peer): Peer {
    p.(rest := p.rest.(toServer := []))
  }

  /** Waiting for the ack of a message that was sent again with more in it, while the ack of its first copy
      is on its way. */
  ghost predicate Resent(w: World, p: Peer, id: MsgId, k: M.SubId) {
    && p.rest.fromServer == [M.Ack(id, [], k)] && p.rest.processing == [] && p.rest.unqueued == []
    && |p.rest.toServer| == 1 && p.rest.phase == M.Synced(k)
    && p.sink.queue.Keys == {id} && p.sink.queue[id].tx.Some? && p.sink.runner == Waiting(p.sink.queue[id].tx.value)
    && p.sink.queue[id].msg in p.sink.socket && !p.sink.paused
  }

  /** The ack of the first copy completes the second. */
  lemma StaleAckCompletes(w: World, c: M.ClientId, p: Peer, id: MsgId, k: M.SubId)
    requires ValidConfig(w.cfg) && p.rest.toServer == [] && p.rest.processing == []
    requires p.rest.fromServer == [M.Ack(id, [], k)]
    requires p.sink.queue.Keys == {id} && p.sink.queue[id].tx.Some?
    requires p.sink.runner == Waiting(p.sink.queue[id].tx.value) && p.sink.queue[id].msg in p.sink.socket
    ensures Possible(w.cfg, w.item, p, Receives)
    ensures var p1 := Next(w.cfg, w.item, c, p, Receives);
            && Possible(w.cfg, w.item, p1, Runs(RunnerAcked))
            && var p2 := Next(w.cfg, w.item, c, p1, Runs(RunnerAcked));
               && p2.sink.queue == map[] && p2.sink.runner == Idle && p2.sink.paused == p.sink.paused
               && p2.rest == p.rest.(fromServer := [], processingId := id, processingSub := k)
  {
    var s := p.sink;
    assert id in s.queue;
    assert IsTop(s.queue, w.cfg.pop(s.queue)) && w.cfg.pop(s.queue) == id;
    var p1 := Next(w.cfg, w.item, c, p, Receives);
    assert id in p1.sink.queue;
    assert IsTop(p1.sink.queue, w.cfg.pop(p1.sink.queue)) && w.cfg.pop(p1.sink.queue) == id;
    hide ValidConfig; hide IsTop;
    assert !Loses(w.cfg, p1.sink, RunnerAcked);
    assert p1.rest.toServer + [] == p1.rest.toServer;
    assert p1.sink.queue - {id} == map[];
  }

  /** A timeout of the message that waits for its ack, alone in the queue. */
  lemma TimeoutIs(w: World, c: M.ClientId, p: Peer, id: MsgId)
    requires ValidConfig(w.cfg) && p.sink.queue.Keys == {id} && p.sink.runner.Waiting?
    ensures Possible(w.cfg, w.item, p, Runs(RunnerTimeout))
    ensures Next(w.cfg, w.item, c, p, Runs(RunnerTimeout))
         == p.(sink := p.sink.(queue := p.sink.queue[id := p.sink.queue[id].(state := Timeout)], runner := Idle))
  {
    assert id in p.sink.queue && IsTop(p.sink.queue, w.cfg.pop(p.sink.queue));
    assert !Loses(w.cfg, p.sink, RunnerTimeout);
    assert p.rest.toServer + [] == p.rest.toServer;
  }

  /** Two updates, the first to be sent again: it takes the second in. */
  lemma BothSent(w: World, s: Sink, id: MsgId, m1: CollabMessage, m2: CollabMessage)
    requires ValidConfig(w.cfg) && IsUpdate(w.cfg.yrs, m1) && IsUpdate(w.cfg.yrs, m2) && m1.msgId == id && m2.msgId > id
    requires s.queue.Keys == {id, m2.msgId} && s.queue[id].msg == m1 && s.queue[id].state == Timeout
    requires s.queue[m2.msgId].msg == m2
    requires Merge(w.cfg.yrs, w.cfg.maximumPayloadSize, m1, m2).Continue?
    ensures CanSendHead(w, s) && w.cfg.pop(s.queue) == id && Absorb(w.cfg, s.queue, id).queue == map[]
  {
    hide AsUpdate;
    TopIsOldest(w.cfg, s.queue);
    UpdatesDoNotTie(w.cfg.yrs, s.queue);
    assert w.cfg.pop(s.queue) == id;
    var rest := s.queue - {id};
    assert rest.Keys == {m2.msgId};
    assert m2.msgId in rest && IsTop(rest, w.cfg.pop(rest)) && w.cfg.pop(rest) == m2.msgId;
    assert rest - {m2.msgId} == map[] && rest[m2.msgId].msg == m2;
    MergeHalts(w.cfg, m1, m2);
    var merged := Merge(w.cfg.yrs, w.cfg.maximumPayloadSize, m1, m2).merged;
    hide Merge;
    assert !Overflows(w.cfg, merged, map[]) && MergeLoop(w.cfg, merged, map[]) == Outcome(merged, map[], [], None);
    assert !Overflows(w.cfg, m1, rest);
    assert MergeLoop(w.cfg, m1, rest).queue == map[];
  }

  /** One queued edit is sent and served. */
  lemma EditServed(w: World, h: History, c: M.ClientId, m: CollabMessage) returns (h': History)
    requires Valid(w, h) && Sound(w) && c in End(h).sinks && M.Attached(End(h).core, c)
    requires Resting(PeerOf(End(h), c)) && End(h).sinks[c].queue == map[] && WritesEdit(w, PeerOf(End(h), c), m)
    requires |PeerOf(End(h), c).rest.unqueued| == 1
    ensures Goes(w, h, h', c, false) && Valid(w, h') && c in End(h').sinks && M.Attached(End(h').core, c)
    ensures var p, p' := PeerOf(End(h), c), PeerOf(End(h'), c);
            && p'.rest == p.rest.(unqueued := [], fromServer := [M.Ack(m.msgId, [], End(h').core.subs[c])])
            && p'.sink == AfterSend(Push(p.sink, m), m.msgId, Outcome(m, map[], [], None), true)
  {
    SoundConfig(w);
    var b := EditQueued(w, h, c, m);
    hide Goes; hide Valid; hide Sound; hide M.AllEdits; hide ValidConfig; hide Reads; hide AtRound; hide Absorb;
    hide IsUpdate; hide Push; hide M.ItemOps; hide AfterSend; hide Resting; hide WritesEdit;
    EditsStay(w, h, b, c, false);
    h' := RoundUp(w, b, c, false);
    EditsStay(w, b, h', c, false);
    GoesAgain(w, h, b, h', c, false);
  }

  /** A message alone in the queue that must be sent again, while the ack of its first copy is on its way. */
  predicate FirstSent(p: Peer, m: CollabMessage, k: M.SubId) {
    && (m.ClientInitSync? || m.ServerInitSync? || m.ClientUpdateSync?) && m.msgId < p.sink.counter
    && p.rest.unqueued == [] && p.rest.processing == [] && p.rest.toServer == []
    && p.rest.fromServer == [M.Ack(m.msgId, [], k)]
    && p.sink.queue.Keys == {m.msgId} && p.sink.queue[m.msgId].msg == m && p.sink.queue[m.msgId].state == Timeout
    && p.sink.runner == Idle && !p.sink.paused
  }

  lemma FirstSentIs(w: World, c: M.ClientId, p: Peer, s: Sink, m: CollabMessage, k: M.SubId)
    requires ValidConfig(w.cfg) && m.ClientUpdateSync? && m.msgId == s.counter && s.queue == map[] && !s.paused
    requires p.sink == AfterSend(Push(s, m), m.msgId, Outcome(m, map[], [], None), true)
    requires p.rest.unqueued == [] && p.rest.processing == [] && p.rest.toServer == []
    requires p.rest.fromServer == [M.Ack(m.msgId, [], k)]
    ensures Possible(w.cfg, w.item, p, Runs(RunnerTimeout))
    ensures var p' := Next(w.cfg, w.item, c, p, Runs(RunnerTimeout));
            FirstSent(p', m, k) && p'.rest == p.rest && p'.sink.counter == s.counter + 1
  {
    TimeoutIs(w, c, p, m.msgId);
    hide ValidConfig; hide Next; hide Possible;
  }

  lemma ServedThenTimeout(w: World, h: History, c: M.ClientId, m: CollabMessage) returns (h': History)
    requires Valid(w, h) && Sound(w) && c in End(h).sinks && M.Attached(End(h).core, c)
    requires Resting(PeerOf(End(h), c)) && End(h).sinks[c].queue == map[] && WritesEdit(w, PeerOf(End(h), c), m)
    requires |PeerOf(End(h), c).rest.unqueued| == 1
    ensures Goes(w, h, h', c, false) && Valid(w, h') && c in End(h').sinks && M.Attached(End(h').core, c)
    ensures FirstSent(PeerOf(End(h'), c), m, End(h').core.subs[c])
    ensures PeerOf(End(h'), c).rest.clock == PeerOf(End(h), c).rest.clock
    ensures PeerOf(End(h'), c).sink.counter == PeerOf(End(h), c).sink.counter + 1
  {
    SoundConfig(w);
    hide Valid; hide Sound; hide M.AllEdits; hide ValidConfig; hide Reads; hide Possible; hide Next; hide Goes;
    hide AsUpdate;
    var d := EditServed(w, h, c, m);
    EditsStay(w, h, d, c, false);
    FirstSentIs(w, c, PeerOf(End(d), c), End(h).sinks[c], m, End(d).core.subs[c]);
    hide FirstSent; hide AfterSend; hide IsUpdate;
    h' := DoLocal(w, d, c, Runs(RunnerTimeout), false);
    EditsStay(w, d, h', c, false);
    GoesAgain(w, h, d, h', c, false);
  }

  /** An edit is queued, sent and served, and its ack is on the way when the send times out. */
  lemma FirstCopy(w: World, h: History, c: M.ClientId, m: CollabMessage) returns (h': History)
    requires Valid(w, h) && Sound(w) && c in End(h).sinks && AtPeace(End(h), c)
    requires PeerOf(End(h), c).rest.fromServer == []
    requires M.AllEdits(End(h).core) + {M.CrdtDocument.Op(c, PeerOf(End(h), c).rest.clock)} <= w.ops
    requires IsUpdate(w.cfg.yrs, m) && m.msgId == PeerOf(End(h), c).sink.counter
    requires w.item(m) == M.UpdateSync(M.NewOps(c, PeerOf(End(h), c).rest.clock, 1))
    ensures Valid(w, h') && OnlyMoved(h, h', c) && c in End(h').sinks && M.Attached(End(h').core, c)
    ensures FirstSent(PeerOf(End(h'), c), m, End(h').core.subs[c])
    ensures PeerOf(End(h'), c).rest.clock == PeerOf(End(h), c).rest.clock + 1
    ensures PeerOf(End(h'), c).sink.counter == PeerOf(End(h), c).sink.counter + 1
  {
    Lengths(w, h);
    hide Valid; hide Sound; hide M.AllEdits; hide Undisturbed; hide Resting; hide IsUpdate; hide FirstSent;
    var before, a := EditMade(w, h, c);
    Lengths(w, a);
    h' := ServedThenTimeout(w, a, c, m);
    EditsStay(w, a, h', c, false);
    GoesMoves(w, a, h', c);
    hide Goes; hide M.Attached; hide OnlyMoved;
    MovedAgain(h, a, h', c);
  }

  /** The message is sent again with the second edit merged in. */
  lemma ResendIs(w: World, c: M.ClientId, p: Peer, m: CollabMessage, m2: CollabMessage, k: M.SubId)
    requires ValidConfig(w.cfg) && SinkInv(w.cfg.yrs, Push(p.sink, m2)) && FirstSent(p, m, k)
    requires p.rest.phase == M.Synced(k)
    requires IsUpdate(w.cfg.yrs, m) && IsUpdate(w.cfg.yrs, m2) && m2.msgId == p.sink.counter
    requires Merge(w.cfg.yrs, w.cfg.maximumPayloadSize, m, m2).Continue?
    ensures var p1 := p.(sink := Push(p.sink, m2));
            && Possible(w.cfg, w.item, p1, SENDS)
            && Resent(w, Next(w.cfg, w.item, c, p1, SENDS), m.msgId, k)
            && Next(w.cfg, w.item, c, p1, SENDS).rest.doc == p.rest.doc
  {
    var p1 := p.(sink := Push(p.sink, m2));
    assert p1.sink.queue.Keys == {m.msgId, m2.msgId};
    BothSent(w, p1.sink, m.msgId, m, m2);
    SentHead(w, p1.sink);
    SendHead(w, c, p1);
    hide Absorb; hide CanSendHead; hide Possible; hide Next; hide SinkInv; hide ValidConfig; hide Merge; hide M.Payload;
    var out := Absorb(w.cfg, p1.sink.queue, m.msgId);
    var s' := AfterSend(p1.sink, m.msgId, out, true);
    assert s'.queue.Keys == {m.msgId};
    assert s'.queue[m.msgId].msg == out.head && out.head in s'.socket;
  }

  /** Another edit, while the message waits to be sent again. */
  lemma EditMeanwhile(w: World, h: History, c: M.ClientId, m: CollabMessage) returns (h': History)
    requires Valid(w, h) && ValidConfig(w.cfg) && c in End(h).sinks && M.Attached(End(h).core, c)
    requires FirstSent(PeerOf(End(h), c), m, End(h).core.subs[c])
    requires M.AllEdits(End(h).core) + {M.CrdtDocument.Op(c, PeerOf(End(h), c).rest.clock)} <= w.ops
    ensures Valid(w, h') && OnlyMoved(h, h', c) && c in End(h').sinks && M.Attached(End(h').core, c)
    ensures M.AllEdits(End(h').core) <= w.ops
    ensures End(h').core.server == End(h).core.server && End(h').core.subs == End(h).core.subs
    ensures var k, p' := PeerOf(End(h), c).rest.clock, PeerOf(End(h'), c);
            && p'.rest.unqueued == [M.NewOps(c, k, 1)] && M.CrdtDocument.Op(c, k) in p'.rest.doc
            && p'.sink == PeerOf(End(h), c).sink
            && FirstSent(p'.(rest := p'.rest.(unqueued := [])), m, End(h).core.subs[c])
  {
    var k := PeerOf(End(h), c).rest.clock;
    Lengths(w, h);
    assert M.CrdtDocument.Op(c, k) in M.NewOps(c, k, 1);
    h' := MakeEdit(w, h, c);
    EditAdds(w, h, h', c);
    Lengths(w, h');
    hide Valid; hide M.AllEdits; hide Undisturbed;
  }

  /** A second edit is made and queued behind the message that must be sent again, which takes it in. */
  lemma SecondCopy(w: World, h: History, c: M.ClientId, m: CollabMessage, m2: CollabMessage) returns (h': History)
    requires Valid(w, h) && Sound(w) && c in End(h).sinks && M.Attached(End(h).core, c)
    requires FirstSent(PeerOf(End(h), c), m, End(h).core.subs[c]) && IsUpdate(w.cfg.yrs, m)
    requires M.AllEdits(End(h).core) + {M.CrdtDocument.Op(c, PeerOf(End(h), c).rest.clock)} <= w.ops
    requires IsUpdate(w.cfg.yrs, m2) && m2.msgId == PeerOf(End(h), c).sink.counter
    requires w.item(m2) == M.UpdateSync(M.NewOps(c, PeerOf(End(h), c).rest.clock, 1))
    requires Merge(w.cfg.yrs, w.cfg.maximumPayloadSize, m, m2).Continue?
    ensures Valid(w, h') && OnlyMoved(h, h', c) && c in End(h').sinks && M.Attached(End(h').core, c)
    ensures Resent(w, PeerOf(End(h'), c), m.msgId, End(h').core.subs[c]) && End(h').core.server == End(h).core.server
    ensures M.CrdtDocument.Op(c, PeerOf(End(h), c).rest.clock) in PeerOf(End(h'), c).rest.doc
  {
    SoundConfig(w);
    Lengths(w, h);
    hide Valid; hide Sound; hide M.AllEdits; hide ValidConfig; hide Reads; hide IsUpdate; hide Merge; hide M.NewOps;
    hide Goes; hide FirstSent; hide OnlyMoved;
    var a := EditMeanwhile(w, h, c, m);
    Lengths(w, a);
    assert WritesEdit(w, PeerOf(End(a), c), m2) && |PeerOf(End(a), c).rest.unqueued| == 1;
    hide *;
    h' := SecondCopySent(w, a, c, m, m2);
    Lengths(w, h');
    GoesMoves(w, a, h', c);
    MovedAgain(h, a, h', c);
    SameServerSame(End(a), End(h'));
    ResentAttached(w, End(h'), c, m.msgId);
  }

  lemma ResentAttached(w: World, n: Network, c: M.ClientId, id: MsgId)
    requires Paired(n) && c in n.sinks && c in n.core.subs && Resent(w, PeerOf(n, c), id, n.core.subs[c])
    ensures M.Attached(n.core, c)
  {
  }

  lemma SecondCopySent(w: World, h: History, c: M.ClientId, m: CollabMessage, m2: CollabMessage) returns (h': History)
    requires Valid(w, h) && Sound(w) && c in End(h).sinks && M.Attached(End(h).core, c)
    requires var p := PeerOf(End(h), c);
             && |p.rest.unqueued| == 1 && FirstSent(p.(rest := p.rest.(unqueued := [])), m, End(h).core.subs[c])
             && WritesEdit(w, p, m2)
    requires IsUpdate(w.cfg.yrs, m) && Merge(w.cfg.yrs, w.cfg.maximumPayloadSize, m, m2).Continue?
    ensures Goes(w, h, h', c, false) && Valid(w, h') && c in End(h').sinks && SameServer(End(h), End(h'))
    ensures Resent(w, PeerOf(End(h'), c), m.msgId, End(h').core.subs[c])
    ensures PeerOf(End(h'), c).rest.doc == PeerOf(End(h), c).rest.doc
  {
    var p := PeerOf(End(h), c);
    SoundConfig(w);
    EditCanBeQueued(w, p, m2);
    QueuedIs(w, c, p, m2);
    hide Valid; hide Sound; hide M.AllEdits; hide ValidConfig; hide Reads; hide Possible; hide Next; hide Goes;
    hide SinkInv; hide OthersSame;
    hide IsUpdate; hide Merge; hide Resent; hide FirstSent;
    var a := DoLocal(w, h, c, QueuesEdit(0, m2), false);
    EditsStay(w, h, a, c, false);
    LiveWhenSubscribed(w, a, c);
    ResendIs(w, c, p.(rest := p.rest.(unqueued := [])), m, m2, End(h).core.subs[c]);
    h' := DoLocal(w, a, c, SENDS, false);
    EditsStay(w, a, h', c, false);
    GoesAgain(w, h, a, h', c, false);
  }

  /** Why no frame of an attached client may vanish, as the rate limiter makes them: an edit is sent and
      acknowledged too late, its message is sent again with a second edit merged in, that frame vanishes,
      and the late ack completes it. The client is then attached and quiet, and the server lacks the second
      edit. */
  lemma VanishedFrameLosesAnEdit(w: World, h: History, c: M.ClientId, m1: CollabMessage, m2: CollabMessage)
    returns (more: History, p1: Peer, p2: Peer)
    requires Valid(w, h) && Sound(w) && c in End(h).sinks && AtPeace(End(h), c)
    requires PeerOf(End(h), c).rest.fromServer == [] && EditsMerge(w, c, PeerOf(End(h), c), m1, m2)
    requires var k := PeerOf(End(h), c).rest.clock;
             M.AllEdits(End(h).core) + {M.CrdtDocument.Op(c, k), M.CrdtDocument.Op(c, k + 1)} <= w.ops
    ensures Valid(w, more) && OnlyMoved(h, more, c) && c in End(more).sinks && M.Attached(End(more).core, c)
    ensures var lost := FrameLost(PeerOf(End(more), c));
            && |PeerOf(End(more), c).rest.toServer| == 1
            && Possible(w.cfg, w.item, lost, Receives) && p1 == Next(w.cfg, w.item, c, lost, Receives)
            && Possible(w.cfg, w.item, p1, Runs(RunnerAcked)) && p2 == Next(w.cfg, w.item, c, p1, Runs(RunnerAcked))
    ensures p2.sink.queue == map[] && Resting(p2) && p2.rest.unqueued == []
    ensures p2.rest.phase == M.Synced(End(more).core.subs[c]) && !(p2.rest.doc <= End(more).core.server)
  {
    var k := PeerOf(End(h), c).rest.clock;
    SoundConfig(w);
    Lengths(w, h);
    assert Merge(w.cfg.yrs, w.cfg.maximumPayloadSize, m1, m2).Continue?;
    assert IsUpdate(w.cfg.yrs, m1) && w.item(m1) == M.UpdateSync(M.NewOps(c, k, 1));
    assert IsUpdate(w.cfg.yrs, m2) && w.item(m2) == M.UpdateSync(M.NewOps(c, k + 1, 1));
    assert m1.msgId == PeerOf(End(h), c).sink.counter && m2.msgId == m1.msgId + 1;
    hide *;
    var a := FirstCopy(w, h, c, m1);
    Lengths(w, a);
    EditsAfter(w, h, a, c, k);
    NotYetThere(w, a, c);
    more := SecondCopy(w, a, c, m1, m2);
    Lengths(w, more);
    MovedAgain(h, a, more, c);
    p1, p2 := LateAck(w, more, c, m1.msgId);
  }

  lemma EditsAfter(w: World, h: History, a: History, c: M.ClientId, k: nat)
    requires Valid(w, h) && Valid(w, a) && OnlyMoved(h, a, c) && c in End(h).sinks && c in End(a).sinks
    requires PeerOf(End(h), c).rest.clock == k && PeerOf(End(a), c).rest.clock == k + 1
    ensures M.AllEdits(End(a).core) <= M.AllEdits(End(h).core) + {M.CrdtDocument.Op(c, k)}
  {
    Lengths(w, h);
    Lengths(w, a);
    hide Valid; hide M.AllEdits;
    assert forall d <- End(h).sinks :: d != c ==> Undisturbed(End(h), End(a), d);
    ClockAdds(End(h).core, End(a).core, c, k);
  }

  lemma LateAck(w: World, h: History, c: M.ClientId, id: MsgId) returns (p1: Peer, p2: Peer)
    requires Valid(w, h) && ValidConfig(w.cfg) && c in End(h).sinks && c in End(h).core.subs
    requires Resent(w, PeerOf(End(h), c), id, End(h).core.subs[c])
    ensures var lost := FrameLost(PeerOf(End(h), c));
            && |PeerOf(End(h), c).rest.toServer| == 1
            && Possible(w.cfg, w.item, lost, Receives) && p1 == Next(w.cfg, w.item, c, lost, Receives)
            && Possible(w.cfg, w.item, p1, Runs(RunnerAcked)) && p2 == Next(w.cfg, w.item, c, p1, Runs(RunnerAcked))
    ensures p2.sink.queue == map[] && Resting(p2) && p2.rest.unqueued == []
    ensures p2.rest.phase == M.Synced(End(h).core.subs[c]) && p2.rest.doc == PeerOf(End(h), c).rest.doc
  {
    var lost := FrameLost(PeerOf(End(h), c));
    StaleAckCompletes(w, c, lost, id, End(h).core.subs[c]);
    p1 := Next(w.cfg, w.item, c, lost, Receives);
    p2 := Next(w.cfg, w.item, c, p1, Runs(RunnerAcked));
  }

  lemma NotYetThere(w: World, h: History, c: M.ClientId)
    requires Valid(w, h) && Reads(w.cfg.yrs, w.item) && c in End(h).sinks
    ensures M.CrdtDocument.Op(c, PeerOf(End(h), c).rest.clock) !in End(h).core.server
  {
    IsReached(w, h);
  }

  /** When everyone else's clock stands still, the edits are those before and the client's new one. */
  lemma ClockAdds(s: M.System, s': M.System, c: M.ClientId, k: nat)
    requires c in s.clients && c in s'.clients && s'.clients.Keys == s.clients.Keys
    requires s.clients[c].clock == k && s'.clients[c].clock == k + 1
    requires forall d <- s.clients :: d != c ==> s'.clients[d].clock == s.clients[d].clock
    ensures M.AllEdits(s') <= M.AllEdits(s) + {M.CrdtDocument.Op(c, k)}
  {
    forall op: Op | op in M.AllEdits(s') ensures op in M.AllEdits(s) + {M.CrdtDocument.Op(c, k)} {
      assert M.CrdtDocument.Op(op.author, op.clock) == op;
    }
  }
}
