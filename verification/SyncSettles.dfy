/** Convergence is within reach of clients with real queues: from every reachable state the system can
    settle without another edit and without a disconnect. And it does not last by itself: a client that
    has lost its subscription is left behind by the next edit, with its handshake complete and nothing
    queued or in flight. */
module SyncSettles {
  import opened Common
  import opened SendQueue
  import opened SendQueueRuns
  import opened SendQueueRefinement
  import opened SyncWithQueues
  import opened SyncSteps
  import M = SyncMachine

  // ---------------------------------------------------------------- the head of the heap

  /** No two queued messages are equal in the heap's order. */
  predicate NoTies(queue: Queue) {
    forall i, j | i in queue && j in queue && i != j :: Cmp(queue[i].msg, queue[j].msg) != 0
  }

  predicate SameRank(m: CollabMessage, m': CollabMessage) {
    IdOf(m') == IdOf(m) && (m'.ClientInitSync? <==> m.ClientInitSync?) && (m'.ServerInitSync? <==> m.ServerInitSync?)
  }

  lemma SameRankCompares(a: CollabMessage, b: CollabMessage, a': CollabMessage, b': CollabMessage)
    requires SameRank(a, a') && SameRank(b, b')
    ensures Cmp(a', b') == Cmp(a, b)
  {
  }

  /** The head stays the head while messages keep their rank and others leave. */
  lemma OnlyTop(cfg: Config, queue: Queue, queue': Queue, id: MsgId)
    requires ValidConfig(cfg) && NoTies(queue) && IsTop(queue, id) && id in queue'
    requires forall j <- queue' :: j in queue && SameRank(queue[j].msg, queue'[j].msg)
    ensures cfg.pop(queue') == id && NoTies(queue')
  {
    var top := cfg.pop(queue');
    assert IsTop(queue', top);
    hide ValidConfig; hide Cmp; hide SameRank;
    forall i, j | i in queue' && j in queue'
      ensures Cmp(queue'[i].msg, queue'[j].msg) == Cmp(queue[i].msg, queue[j].msg)
    {
      SameRankCompares(queue[i].msg, queue[j].msg, queue'[i].msg, queue'[j].msg);
    }
    OrderIsTotalPreorder(queue[id].msg, queue[top].msg, queue[id].msg);
  }

  lemma UpdatesDoNotTie(yrs: Yrs, queue: Queue)
    requires UpdatesOnly(yrs, queue)
    ensures NoTies(queue)
  {
    hide AsUpdate;
  }

  /** At work on nothing but its queue: the runner is free, nothing is in flight or being processed. */
  predicate Resting(p: Peer) {
    && p.rest.processing == [] && p.rest.toServer == [] && p.rest.fromServer == []
    && p.sink.runner == Idle && !p.sink.paused
  }

  /** An unsent head that is no init and does not run over the limit. */
  ghost predicate CanSendHead(w: World, s: Sink)
    requires ValidConfig(w.cfg)
  {
    && s.queue != map[] && NoTies(s.queue)
    && var id := w.cfg.pop(s.queue);
       && id in s.queue && !s.queue[id].msg.ClientInitSync?
       && (s.queue[id].state == Pending || s.queue[id].state == Timeout)
       && !(s.queue[id].msg.ClientUpdateSync? && Overflows(w.cfg, s.queue[id].msg, s.queue - {id}))
  }

  const SENDS := Runs(Process(false, true))

  lemma SentHead(w: World, s: Sink)
    requires ValidConfig(w.cfg) && SinkInv(w.cfg.yrs, s) && CanSendHead(w, s)
    ensures var id := w.cfg.pop(s.queue);
            var out := Absorb(w.cfg, s.queue, id);
            && SameRank(s.queue[id].msg, out.head) && IdOf(out.head) == Some(id) && !out.head.ClientInitSync?
            && id !in out.queue && (forall j <- out.queue :: j in s.queue && out.queue[j] == s.queue[j])
            && TrySend(w.cfg, s, true) == AfterSend(s, id, out, true)
  {
    hide Overflows; hide Ops; hide OpsOf; hide OnlyGrows; hide AsUpdate;
    AbsorbIs(w.cfg, s.queue);
    TrySendIs(w.cfg, s, true);
  }

  lemma ProcessSends(w: World, s: Sink)
    requires ValidConfig(w.cfg) && SinkInv(w.cfg.yrs, s) && CanSendHead(w, s) && s.runner == Idle && !s.paused
    ensures var id := w.cfg.pop(s.queue);
            Apply(w.cfg, s, SENDS.e) == AfterSend(s, id, Absorb(w.cfg, s.queue, id), true)
    ensures !Loses(w.cfg, s, SENDS.e) && Enabled(s, SENDS.e)
  {
    SentHead(w, s);
    hide Overflows; hide SinkInv; hide Absorb; hide TrySend; hide NoTies; hide SameRank;
  }

  lemma SendHead(w: World, c: M.ClientId, p: Peer)
    requires ValidConfig(w.cfg) && SinkInv(w.cfg.yrs, p.sink)
    requires p.rest.toServer == [] && p.sink.runner == Idle && !p.sink.paused
    requires p.rest.phase != M.Offline && CanSendHead(w, p.sink)
    ensures Possible(w.cfg, w.item, p, SENDS)
    ensures var id := w.cfg.pop(p.sink.queue);
            var out := Absorb(w.cfg, p.sink.queue, id);
            Next(w.cfg, w.item, c, p, SENDS)
            == Peer(p.rest.(toServer := [M.Upstream(id, M.Payload(w.item(out.head)))]),
              AfterSend(p.sink, id, out, true))
  {
    var s := p.sink;
    var out := Absorb(w.cfg, s.queue, w.cfg.pop(s.queue));
    SentHead(w, s);
    ProcessSends(w, s);
    hide SinkInv; hide Absorb; hide Apply; hide Loses; hide Enabled; hide CanSendHead; hide SameRank; hide M.Payload;
    var s' := AfterSend(s, w.cfg.pop(s.queue), out, true);
    assert s'.socket[|s'.socket| - 1] == out.head && |s'.socket| == |s.socket| + 1;
  }

  /** The message carried by the head asks for no handshake. */
  lemma PayloadOf(w: World, m: CollabMessage)
    requires Reads(w.cfg.yrs, w.item) && !m.ClientInitSync?
    ensures var ms := M.Payload(w.item(m));
            |ms| == 1 && !ms[0].Step1? && M.Effect(ms[0]) == M.ItemOps(w.item(m))
  {
    hide Ops;
  }

  /** The message that was sent is the head until it is popped, whatever its state. */
  lemma SentStaysTop(cfg: Config, queue: Queue, id: MsgId, out: Outcome, p: PendingMessage)
    requires ValidConfig(cfg) && NoTies(queue) && IsTop(queue, id) && SameRank(queue[id].msg, out.head)
    requires id !in out.queue && forall j <- out.queue :: j in queue && out.queue[j] == queue[j]
    requires p.msg == out.head
    ensures cfg.pop(out.queue[id := p]) == id && out.queue[id := p] - {id} == out.queue
  {
    OnlyTop(cfg, queue, out.queue[id := p], id);
  }

  /** The ack of a send is accepted, and the pop takes the message it is for. */
  lemma AckThenPop(w: World, s: Sink, id: MsgId, out: Outcome)
    requires ValidConfig(w.cfg) && NoTies(s.queue) && IsTop(s.queue, id) && SameRank(s.queue[id].msg, out.head)
    requires id !in out.queue && forall j <- out.queue :: j in s.queue && out.queue[j] == s.queue[j]
    ensures var s1 := AfterSend(s, id, out, true);
            var s2 := AckMsg(w.cfg, s1, id).0;
            && AckMsg(w.cfg, s1, id).1 && s2.runner == Acked && !Loses(w.cfg, s2, RunnerAcked)
            && PopAcked(w.cfg, s2) == s1.(queue := out.queue, runner := Idle)
  {
    var s1 := AfterSend(s, id, out, true);
    var done := PendingMessage(out.head, Done, None);
    SentStaysTop(w.cfg, s.queue, id, out, PendingMessage(out.head, Processing, Some(s.nextToken)));
    SentStaysTop(w.cfg, s.queue, id, out, done);
    hide IsTop; hide NoTies; hide ValidConfig; hide SameRank; hide Cmp;
    var s2 := AckMsg(w.cfg, s1, id).0;
    assert s1.queue[id := done] == out.queue[id := done];
    assert s2 == s1.(queue := out.queue[id := done], runner := Acked);
    assert out.head in s2.socket;
  }

  lemma TakeAck(w: World, c: M.ClientId, p: Peer, s: Sink, id: MsgId, out: Outcome, reply: seq<M.Message>,
                k: M.SubId, more: seq<M.Downstream>)
    requires ValidConfig(w.cfg) && NoTies(s.queue) && IsTop(s.queue, id) && SameRank(s.queue[id].msg, out.head)
    requires id !in out.queue && forall j <- out.queue :: j in s.queue && out.queue[j] == s.queue[j]
    requires p.sink == AfterSend(s, id, out, true)
    requires p.rest.fromServer == [M.Ack(id, reply, k)] + more && p.rest.processing == []
    ensures Possible(w.cfg, w.item, p, Receives)
    ensures var p1 := Next(w.cfg, w.item, c, p, Receives);
            && Possible(w.cfg, w.item, p1, Runs(RunnerAcked))
            && var p2 := Next(w.cfg, w.item, c, p1, Runs(RunnerAcked));
               p2 == Peer(p.rest.(fromServer := more, processing := reply, processingId := id, processingSub := k),
                          p.sink.(queue := out.queue, runner := Idle))
  {
    AckThenPop(w, s, id, out);
    hide IsTop; hide NoTies; hide ValidConfig; hide SameRank; hide AckMsg; hide PopAcked; hide Loses; hide AfterSend;
    var p1 := Next(w.cfg, w.item, c, p, Receives);
    assert p.rest.fromServer[0] == M.Ack(id, reply, k) && p.rest.fromServer[1..] == more;
    assert p1 == Peer(p.rest.(fromServer := more, processing := reply, processingId := id, processingSub := k),
                      AckMsg(w.cfg, p.sink, id).0);
    assert p1.rest.toServer + [] == p1.rest.toServer;
  }

  // ---------------------------------------------------------------- one round: send, serve, acknowledge, pop

  lemma LiveWhenSubscribed(w: World, h: History, c: M.ClientId)
    requires Valid(w, h) && Reads(w.cfg.yrs, w.item)
    ensures c in End(h).core.subs ==> End(h).core.live
    ensures c in End(h).sinks ==> c in End(h).core.clients && SinkInv(w.cfg.yrs, End(h).sinks[c])
  {
    hide Valid; hide Reads; hide SinkInv;
    IsReached(w, h);
  }

  /** What a served message that is no init leaves behind. */
  lemma ServedOne(cl: M.Client, server: set<Op>, k: M.SubId, id: MsgId, ms: seq<M.Message>)
    requires cl.toServer == [M.Upstream(id, ms)] && |ms| == 1 && !ms[0].Step1?
    ensures M.Acknowledge(cl, server, k) == cl.(toServer := [], fromServer := cl.fromServer + [M.Ack(id, [], k)])
  {
  }

  /** A lone message that is no init is served through the client's subscription. */
  lemma ServeOne(w: World, h: History, c: M.ClientId, id: MsgId, ms: seq<M.Message>, shakes: bool)
    returns (h': History)
    requires Valid(w, h) && Reads(w.cfg.yrs, w.item) && c in End(h).sinks && c in End(h).core.subs
    requires PeerOf(End(h), c).rest.toServer == [M.Upstream(id, ms)] && |ms| == 1 && !ms[0].Step1?
    ensures Goes(w, h, h', c, shakes) && Valid(w, h') && c in End(h').sinks
    ensures c in End(h').core.subs && End(h').core.subs[c] == End(h).core.subs[c]
    ensures End(h').core.server == End(h).core.server + M.Effect(ms[0])
    ensures var p, k := PeerOf(End(h), c), End(h).core.subs[c];
            PeerOf(End(h'), c) ==
              p.(rest := p.rest.(toServer := [], fromServer := p.rest.fromServer + [M.Ack(id, [], k)]))
  {
    LiveWhenSubscribed(w, h, c);
    ServedOne(PeerOf(End(h), c).rest, End(h).core.server, End(h).core.subs[c], id, ms);
    hide Valid; hide Goes; hide Reads; hide SinkInv; hide M.Acknowledge; hide M.Effect;
    h' := DoServe(w, h, c, shakes);
    EditsStay(w, h, h', c, shakes);
  }

  /** An attached client whose runner is free and whose head can be sent. */
  ghost predicate AtRound(w: World, n: Network, c: M.ClientId)
    requires ValidConfig(w.cfg) && Paired(n)
  {
    c in n.sinks && M.Attached(n.core, c) && Resting(PeerOf(n, c)) && CanSendHead(w, n.sinks[c])
  }

  lemma SubscriptionKnown(n: Network, c: M.ClientId)
    requires Paired(n) && M.Attached(n.core, c) && Resting(PeerOf(n, c))
    ensures c in n.core.subs && n.core.clients[c].toServer == [] && n.core.clients[c].fromServer == []
  {
  }

  lemma StillAttached(n: Network, n': Network, c: M.ClientId)
    requires M.Attached(n.core, c) && c in n'.core.clients && c in n'.core.subs
    requires n'.core.subs[c] == n.core.subs[c] && n'.core.clients[c].phase == n.core.clients[c].phase
    ensures M.Attached(n'.core, c)
  {
  }

  lemma SameServerSame(n: Network, n': Network)
    requires SameServer(n, n')
    ensures n'.core.subs == n.core.subs && n'.core.server == n.core.server && n'.core.live == n.core.live
  {
  }

  /** The head is sent. */
  lemma RoundSend(w: World, h: History, c: M.ClientId, shakes: bool) returns (h': History)
    requires Valid(w, h) && ValidConfig(w.cfg) && Reads(w.cfg.yrs, w.item) && AtRound(w, End(h), c)
    ensures Goes(w, h, h', c, shakes) && Valid(w, h') && SameServer(End(h), End(h'))
    ensures var s, rest := End(h).sinks[c], End(h).core.clients[c];
            var id := w.cfg.pop(s.queue);
            var out := Absorb(w.cfg, s.queue, id);
            && PeerOf(End(h'), c) == Peer(rest.(toServer := [M.Upstream(id, M.Payload(w.item(out.head)))]),
                                          AfterSend(s, id, out, true))
            && var ms := M.Payload(w.item(out.head));
               |ms| == 1 && !ms[0].Step1? && M.Effect(ms[0]) == M.ItemOps(w.item(out.head))
  {
    var p := PeerOf(End(h), c);
    LiveWhenSubscribed(w, h, c);
    SentHead(w, p.sink);
    PayloadOf(w, Absorb(w.cfg, p.sink.queue, w.cfg.pop(p.sink.queue)).head);
    SendHead(w, c, p);
    hide Valid; hide Goes; hide ValidConfig; hide Reads; hide SinkInv; hide CanSendHead; hide Absorb; hide AfterSend;
    hide Possible; hide Next; hide SameRank; hide M.Payload; hide M.ItemOps; hide M.Effect; hide AtRound;
    h' := DoLocal(w, h, c, SENDS, shakes);
    EditsStay(w, h, h', c, shakes);
  }

  /** The head is sent and served. */
  lemma RoundUp(w: World, h: History, c: M.ClientId, shakes: bool) returns (h': History)
    requires Valid(w, h) && ValidConfig(w.cfg) && Reads(w.cfg.yrs, w.item) && AtRound(w, End(h), c)
    ensures Goes(w, h, h', c, shakes) && Valid(w, h') && M.Attached(End(h').core, c)
    ensures var s, rest, k := End(h).sinks[c], End(h).core.clients[c], End(h').core.subs[c];
            var id := w.cfg.pop(s.queue);
            var out := Absorb(w.cfg, s.queue, id);
            && PeerOf(End(h'), c) == Peer(rest.(fromServer := [M.Ack(id, [], k)]), AfterSend(s, id, out, true))
            && End(h').core.server == End(h).core.server + M.ItemOps(w.item(out.head))
  {
    SubscriptionKnown(End(h), c);
    var id := w.cfg.pop(End(h).sinks[c].queue);
    var out := Absorb(w.cfg, End(h).sinks[c].queue, id);
    var a := RoundSend(w, h, c, shakes);
    EditsStay(w, h, a, c, shakes);
    SameServerSame(End(h), End(a));
    var ack := M.Ack(id, [], End(a).core.subs[c]);
    assert PeerOf(End(a), c).rest.fromServer == [] && [] + [ack] == [ack];
    hide *;
    h' := ServeOne(w, a, c, id, M.Payload(w.item(out.head)), shakes);
    EditsStay(w, a, h', c, shakes);
    StillAttached(End(h), End(h'), c);
    GoesAgain(w, h, a, h', c, shakes);
  }

  /** Two steps of one client in a row. */
  lemma DoTwo(w: World, h: History, c: M.ClientId, e1: PeerEvent, e2: PeerEvent, shakes: bool) returns (h': History)
    requires Valid(w, h) && ValidConfig(w.cfg) && c in End(h).sinks && Possible(w.cfg, w.item, PeerOf(End(h), c), e1)
    requires Possible(w.cfg, w.item, Next(w.cfg, w.item, c, PeerOf(End(h), c), e1), e2)
    requires !e1.Edits? && (e1.StartsHandshake? ==> shakes) && SendsWork(e1)
    requires !e2.Edits? && (e2.StartsHandshake? ==> shakes) && SendsWork(e2)
    ensures Goes(w, h, h', c, shakes) && Valid(w, h') && SameServer(End(h), End(h')) && c in End(h').sinks
    ensures PeerOf(End(h'), c)
         == Next(w.cfg, w.item, c, Next(w.cfg, w.item, c, PeerOf(End(h), c), e1), e2)
  {
    hide Valid; hide Goes; hide ValidConfig; hide Possible; hide Next; hide OthersSame;
    var a := DoLocal(w, h, c, e1, shakes);
    EditsStay(w, h, a, c, shakes);
    h' := DoLocal(w, a, c, e2, shakes);
    EditsStay(w, a, h', c, shakes);
    GoesAgain(w, h, a, h', c, shakes);
  }

  lemma RoundDownIs(w: World, c: M.ClientId, p: Peer, s: Sink, k: M.SubId)
    requires ValidConfig(w.cfg) && SinkInv(w.cfg.yrs, s) && CanSendHead(w, s)
    requires var id := w.cfg.pop(s.queue);
             && p.sink == AfterSend(s, id, Absorb(w.cfg, s.queue, id), true) && p.rest.processing == []
             && p.rest.fromServer == [M.Ack(id, [], k)]
    ensures Possible(w.cfg, w.item, p, Receives)
    ensures var p1, id := Next(w.cfg, w.item, c, p, Receives), w.cfg.pop(s.queue);
            && Possible(w.cfg, w.item, p1, Runs(RunnerAcked))
            && Next(w.cfg, w.item, c, p1, Runs(RunnerAcked)) ==
                 Peer(p.rest.(fromServer := [], processingId := id, processingSub := k),
                      p.sink.(queue := Absorb(w.cfg, s.queue, id).queue, runner := Idle))
  {
    var id := w.cfg.pop(s.queue);
    SentHead(w, s);
    TopOf(w, s);
    assert p.rest.fromServer == [M.Ack(id, [], k)] + [] && [] == p.rest.processing;
    hide ValidConfig; hide SinkInv; hide Absorb; hide IsTop; hide Possible; hide Next; hide SameRank; hide AfterSend;
    hide NoTies;
    TakeAck(w, c, p, s, id, Absorb(w.cfg, s.queue, id), [], k, []);
  }

  /** The ack arrives and the message is popped. */
  lemma RoundDown(w: World, h: History, c: M.ClientId, s: Sink, out: Outcome, shakes: bool) returns (h': History)
    requires Valid(w, h) && ValidConfig(w.cfg) && SinkInv(w.cfg.yrs, s) && CanSendHead(w, s)
    requires out == Absorb(w.cfg, s.queue, w.cfg.pop(s.queue)) && c in End(h).sinks && M.Attached(End(h).core, c)
    requires var p, id := PeerOf(End(h), c), w.cfg.pop(s.queue);
             && p.sink == AfterSend(s, id, out, true) && p.rest.processing == []
             && p.rest.fromServer == [M.Ack(id, [], End(h).core.subs[c])]
    ensures Goes(w, h, h', c, shakes) && Valid(w, h') && M.Attached(End(h').core, c)
    ensures SameServer(End(h), End(h'))
    ensures var rest, k := End(h).core.clients[c], End(h).core.subs[c];
            PeerOf(End(h'), c) == Peer(rest.(fromServer := [], processingId := w.cfg.pop(s.queue), processingSub := k),
                                       End(h).sinks[c].(queue := out.queue, runner := Idle))
  {
    RoundDownIs(w, c, PeerOf(End(h), c), s, End(h).core.subs[c]);
    hide *;
    h' := DoTwo(w, h, c, Receives, Runs(RunnerAcked), shakes);
    EditsStay(w, h, h', c, shakes);
    SameServerSame(End(h), End(h'));
    StillAttached(End(h), End(h'), c);
  }

  /** The head of an attached client's queue reaches the server and leaves the queue, with whatever was
      merged into it. */
  lemma Round(w: World, h: History, c: M.ClientId, shakes: bool) returns (h': History)
    requires Valid(w, h) && ValidConfig(w.cfg) && Reads(w.cfg.yrs, w.item) && AtRound(w, End(h), c)
    ensures Goes(w, h, h', c, shakes) && Valid(w, h')
    ensures M.Attached(End(h').core, c) && Resting(PeerOf(End(h'), c))
    ensures var s, s', rest := End(h).sinks[c], End(h').sinks[c], End(h).core.clients[c];
            var rest' := End(h').core.clients[c];
            var out := Absorb(w.cfg, s.queue, w.cfg.pop(s.queue));
            && s'.queue == out.queue && s'.counter == s.counter && s.socket <= s'.socket
            && rest' == rest.(processingId := rest'.processingId, processingSub := rest'.processingSub)
            && End(h').core.server == End(h).core.server + M.ItemOps(w.item(out.head))
  {
    var s := End(h).sinks[c];
    LiveWhenSubscribed(w, h, c);
    var out := Absorb(w.cfg, s.queue, w.cfg.pop(s.queue));
    var a := RoundUp(w, h, c, shakes);
    Lengths(w, a);
    hide Valid; hide Goes; hide ValidConfig; hide SinkInv; hide CanSendHead; hide Absorb; hide M.ItemOps;
    h' := RoundDown(w, a, c, s, out, shakes);
    Lengths(w, h');
    GoesAgain(w, h, a, h', c, shakes);
  }

  lemma TopOf(w: World, s: Sink)
    requires ValidConfig(w.cfg) && s.queue != map[]
    ensures IsTop(s.queue, w.cfg.pop(s.queue))
  {
  }

  // ---------------------------------------------------------------- a client comes to rest

  function UpCount(channel: seq<M.Upstream>): nat {
    if channel == [] then 0 else |channel[0].payload| + UpCount(channel[1..])
  }

  lemma OneMessageLess(cl: M.Client, server: set<Op>, k: M.SubId)
    requires cl.toServer != [] && cl.toServer[0].payload != []
    ensures UpCount(M.Acknowledge(cl, server, k).toServer) < UpCount(cl.toServer)
    ensures var cl' := M.Acknowledge(cl, server, k);
            cl' == cl.(toServer := cl'.toServer, fromServer := cl'.fromServer)
  {
    hide M.ServerReply;
    var up, cl' := cl.toServer[0], M.Acknowledge(cl, server, k);
    assert cl.toServer == [up] + cl.toServer[1..];
    if |up.payload| == 1 {
      assert cl'.toServer == cl.toServer[1..];
    } else {
      assert cl'.toServer[1..] == cl.toServer[1..];
    }
  }

  lemma PayloadsHold(w: World, h: History, c: M.ClientId)
    requires Valid(w, h) && Reads(w.cfg.yrs, w.item) && c in End(h).sinks
    ensures c in End(h).core.clients && forall up <- End(h).core.clients[c].toServer :: up.payload != []
    ensures End(h).core.live || End(h).core.subs == map[]
  {
    IsReached(w, h);
  }

  /** Everything sent reaches the server, or is discarded for want of a group. */
  lemma {:induction false} FlushUp(w: World, h: History, c: M.ClientId, shakes: bool) returns (h': History)
    requires Valid(w, h) && Reads(w.cfg.yrs, w.item) && c in End(h).sinks
    ensures Goes(w, h, h', c, shakes) && Valid(w, h')
    ensures var p, p' := PeerOf(End(h), c), PeerOf(End(h'), c);
            p' == Peer(p.rest.(toServer := [], fromServer := p'.rest.fromServer), p.sink)
    decreases UpCount(PeerOf(End(h), c).rest.toServer)
  {
    PayloadsHold(w, h, c);
    hide Valid; hide Goes; hide Reads; hide UpCount;
    var rest := PeerOf(End(h), c).rest;
    if rest.toServer == [] {
      Stays(w, h, c, shakes);
      h' := h;
    } else {
      assert rest.toServer[0] in rest.toServer;
      var a: History;
      if M.CanServe(End(h).core, c) {
        a := DoServe(w, h, c, shakes);
        Lengths(w, a);
        OneMessageLess(rest, End(h).core.server, End(a).core.subs[c]);
      } else {
        a := DoDiscard(w, h, c, shakes);
        Lengths(w, a);
        CountTail(rest.toServer);
      }
      h' := FlushUp(w, a, c, shakes);
      Lengths(w, h');
      GoesAgain(w, h, a, h', c, shakes);
    }
  }

  lemma CountTail(channel: seq<M.Upstream>)
    requires channel != [] && channel[0].payload != []
    ensures UpCount(channel[1..]) < UpCount(channel)
  {
  }

  /** The answer to the server's init can be written. */
  lemma AnswerWritable(w: World, h: History, c: M.ClientId) returns (m: CollabMessage)
    requires Valid(w, h) && Sound(w) && c in End(h).sinks && M.AllEdits(End(h).core) <= w.ops
    requires var rest := PeerOf(End(h), c).rest; rest.processing != [] && rest.processing[0].Step1?
    ensures Possible(w.cfg, w.item, PeerOf(End(h), c), AnswersReply(m))
    ensures m.ServerInitSync? && m.msgId == End(h).sinks[c].counter
  {
    var p := PeerOf(End(h), c);
    hide Valid;
    IsReached(w, h);
    var diff := M.CrdtDocument.EncodeStateAsUpdate(p.rest.doc, p.rest.processing[0].sv);
    assert diff <= p.rest.doc;
    hide M.CrdtDocument.EncodeStateAsUpdate; hide M.AllEdits; hide Ops; hide AsUpdate;
    assert Writable(w, p.sink.counter, M.ServerInit(diff));
    m :| ClientMessage(w.cfg.yrs, m, p.sink.counter) && w.item(m) == M.ServerInit(diff);
    assert w.item(m).ServerInit?;
  }

  lemma EditWritable(w: World, h: History, c: M.ClientId) returns (m: CollabMessage)
    requires Valid(w, h) && Sound(w) && c in End(h).sinks && M.AllEdits(End(h).core) <= w.ops
    requires PeerOf(End(h), c).rest.unqueued != []
    ensures Possible(w.cfg, w.item, PeerOf(End(h), c), QueuesEdit(0, m))
    ensures IsUpdate(w.cfg.yrs, m) && m.msgId == End(h).sinks[c].counter
    ensures w.item(m) == M.UpdateSync(PeerOf(End(h), c).rest.unqueued[0])
  {
    var p := PeerOf(End(h), c);
    hide Valid;
    IsReached(w, h);
    hide M.AllEdits; hide Ops; hide AsUpdate;
    var u := p.rest.unqueued[0];
    assert Writable(w, p.sink.counter, M.UpdateSync(u));
    m :| ClientMessage(w.cfg.yrs, m, p.sink.counter) && w.item(m) == M.UpdateSync(u);
    assert w.item(m).UpdateSync?;
  }

  lemma InitWritable(w: World, h: History, c: M.ClientId) returns (m: CollabMessage)
    requires Valid(w, h) && Sound(w) && c in End(h).sinks && M.AllEdits(End(h).core) <= w.ops
    ensures Possible(w.cfg, w.item, PeerOf(End(h), c), StartsHandshake(m))
    ensures m.ClientInitSync? && m.msgId == End(h).sinks[c].counter
    ensures w.item(m) == M.InitSync(M.CrdtDocument.StateVectorOf(PeerOf(End(h), c).rest.doc))
  {
    var p := PeerOf(End(h), c);
    hide Valid;
    IsReached(w, h);
    hide M.AllEdits; hide Ops; hide AsUpdate; hide M.CrdtDocument.StateVectorOf;
    var sv := M.CrdtDocument.StateVectorOf(p.rest.doc);
    assert Writable(w, p.sink.counter, M.InitSync(sv));
    m :| ClientMessage(w.cfg.yrs, m, p.sink.counter) && w.item(m) == M.InitSync(sv);
    assert w.item(m).InitSync?;
  }

  lemma EditsStay(w: World, h: History, h': History, c: M.ClientId, shakes: bool)
    requires Goes(w, h, h', c, shakes)
    ensures M.AllEdits(End(h').core) == M.AllEdits(End(h).core)
    ensures Valid(w, h) && Valid(w, h') && |h.run| == |h.acts| + 1 && |h'.run| == |h'.acts| + 1
    ensures Paired(End(h)) && Paired(End(h')) && c in End(h').sinks && c in End(h').core.clients
  {
  }

  /** Everything received is worked through. */
  lemma {:induction false} TakeAll(w: World, h: History, c: M.ClientId, shakes: bool) returns (h': History)
    requires Valid(w, h) && Sound(w) && c in End(h).sinks && M.AllEdits(End(h).core) <= w.ops
    ensures Goes(w, h, h', c, shakes) && Valid(w, h')
    ensures var rest, rest' := PeerOf(End(h), c).rest, PeerOf(End(h'), c).rest;
            && rest'.processing == [] && rest'.fromServer == []
            && rest'.toServer == rest.toServer && rest'.unqueued == rest.unqueued
    decreases |PeerOf(End(h), c).rest.fromServer|, |PeerOf(End(h), c).rest.processing|
  {
    var p := PeerOf(End(h), c);
    hide Valid; hide Goes; hide Sound; hide M.AllEdits;
    if p.rest.processing == [] && p.rest.fromServer == [] {
      Stays(w, h, c, shakes);
      h' := h;
    } else {
      var e := Receives;
      if p.rest.processing != [] {
        if p.rest.processing[0].Step1? {
          var m := AnswerWritable(w, h, c);
          e := AnswersReply(m);
        } else {
          e := AppliesReply;
        }
      }
      SoundConfig(w);
      OneLessToTake(w, c, p, e);
      hide Possible; hide Next;
      var a := DoLocal(w, h, c, e, shakes);
      EditsStay(w, h, a, c, shakes);
      h' := TakeAll(w, a, c, shakes);
      EditsStay(w, a, h', c, shakes);
      GoesAgain(w, h, a, h', c, shakes);
    }
  }

  lemma SoundConfig(w: World)
    requires Sound(w)
    ensures ValidConfig(w.cfg) && Reads(w.cfg.yrs, w.item)
  {
  }

  lemma OneLessToTake(w: World, c: M.ClientId, p: Peer, e: PeerEvent)
    requires ValidConfig(w.cfg) && Possible(w.cfg, w.item, p, e) && (e.Receives? || e.AppliesReply? || e.AnswersReply?)
    ensures var rest, rest' := p.rest, Next(w.cfg, w.item, c, p, e).rest;
            && rest'.toServer == rest.toServer && rest'.unqueued == rest.unqueued
            && (|rest'.fromServer| < |rest.fromServer|
                || (|rest'.fromServer| == |rest.fromServer| && |rest'.processing| < |rest.processing|))
  {
    hide AckMsg; hide M.CrdtDocument.EncodeStateAsUpdate; hide M.Effect;
  }

  /** Every edit's queueing task runs. */
  lemma {:induction false} QueueAll(w: World, h: History, c: M.ClientId, shakes: bool) returns (h': History)
    requires Valid(w, h) && Sound(w) && c in End(h).sinks && M.AllEdits(End(h).core) <= w.ops
    ensures Goes(w, h, h', c, shakes) && Valid(w, h')
    ensures var rest, rest' := PeerOf(End(h), c).rest, PeerOf(End(h'), c).rest; rest' == rest.(unqueued := [])
    decreases |PeerOf(End(h), c).rest.unqueued|
  {
    var p := PeerOf(End(h), c);
    hide Valid; hide Goes; hide Sound; hide M.AllEdits;
    if p.rest.unqueued == [] {
      Stays(w, h, c, shakes);
      h' := h;
    } else {
      var m := EditWritable(w, h, c);
      SoundConfig(w);
      QueuedIs(w, c, p, m);
      hide Possible; hide Next;
      var a := DoLocal(w, h, c, QueuesEdit(0, m), shakes);
      EditsStay(w, h, a, c, shakes);
      h' := QueueAll(w, a, c, shakes);
      EditsStay(w, a, h', c, shakes);
      GoesAgain(w, h, a, h', c, shakes);
    }
  }

  lemma QueuedIs(w: World, c: M.ClientId, p: Peer, m: CollabMessage)
    requires ValidConfig(w.cfg) && Possible(w.cfg, w.item, p, QueuesEdit(0, m))
    ensures Next(w.cfg, w.item, c, p, QueuesEdit(0, m))
         == Peer(p.rest.(unqueued := p.rest.unqueued[1..]), Push(p.sink, m))
  {
    assert p.rest.unqueued[..0] + p.rest.unqueued[1..] == p.rest.unqueued[1..];
  }

  /** The queue is not paused and the runner is free; an empty queue loses nothing by that. */
  lemma FreeRunner(w: World, h: History, c: M.ClientId, shakes: bool) returns (h': History)
    requires Valid(w, h) && ValidConfig(w.cfg) && c in End(h).sinks
    ensures Goes(w, h, h', c, shakes) && Valid(w, h') && SameServer(End(h), End(h'))
    ensures var p, p' := PeerOf(End(h), c), PeerOf(End(h'), c);
            && p'.rest == p.rest.(phase := p'.rest.phase)
            && p'.sink.runner == Idle && !p'.sink.paused && p'.sink.counter == p.sink.counter
            && (p.sink.queue == map[] || p.sink.runner == Idle ==>
                  p'.sink.queue == p.sink.queue && p'.rest == p.rest && p'.sink.socket == p.sink.socket)
  {
    var p := PeerOf(End(h), c);
    Unpause(w, c, p);
    var e := if p.sink.runner.Waiting? then RunnerTimeout else RunnerAcked;
    var p1 := Next(w.cfg, w.item, c, p, Runs(SetPaused(false)));
    if p.sink.runner != Idle { Freed(w, c, p1, e); }
    hide Valid; hide Goes; hide ValidConfig; hide Possible; hide Next;
    var a := DoLocal(w, h, c, Runs(SetPaused(false)), shakes);
    Lengths(w, a);
    if p.sink.runner == Idle {
      h' := a;
    } else {
      h' := DoLocal(w, a, c, Runs(e), shakes);
      Lengths(w, h');
      GoesAgain(w, h, a, h', c, shakes);
    }
  }

  lemma Unpause(w: World, c: M.ClientId, p: Peer)
    requires ValidConfig(w.cfg)
    ensures Possible(w.cfg, w.item, p, Runs(SetPaused(false)))
    ensures Next(w.cfg, w.item, c, p, Runs(SetPaused(false))) == p.(sink := p.sink.(paused := false))
  {
    assert p.rest.toServer + [] == p.rest.toServer;
  }

  lemma Freed(w: World, c: M.ClientId, p: Peer, e: Event)
    requires ValidConfig(w.cfg) && Enabled(p.sink, e) && (e == RunnerTimeout || e == RunnerAcked)
    ensures Possible(w.cfg, w.item, p, Runs(e))
    ensures var p' := Next(w.cfg, w.item, c, p, Runs(e));
            && p'.rest == p.rest.(phase := p'.rest.phase)
            && p'.sink.runner == Idle && p'.sink.paused == p.sink.paused && p'.sink.counter == p.sink.counter
            && (p.sink.queue == map[] ==> p'.sink == p.sink.(runner := Idle) && p'.rest == p.rest)
  {
    hide ValidConfig;
    var s' := Apply(w.cfg, p.sink, e);
    assert s'.socket == p.sink.socket;
    assert p.rest.toServer + [] == p.rest.toServer;
  }

  /** At rest, with every edit queued. */
  lemma CalmDown(w: World, h: History, c: M.ClientId, shakes: bool) returns (h': History)
    requires Valid(w, h) && Sound(w) && c in End(h).sinks && M.AllEdits(End(h).core) <= w.ops
    ensures Goes(w, h, h', c, shakes) && Valid(w, h')
    ensures Resting(PeerOf(End(h'), c)) && PeerOf(End(h'), c).rest.unqueued == []
  {
    SoundConfig(w);
    hide *;
    var a := FlushUp(w, h, c, shakes);
    EditsStay(w, h, a, c, shakes);
    var b := TakeAll(w, a, c, shakes);
    EditsStay(w, a, b, c, shakes);
    var d := QueueAll(w, b, c, shakes);
    EditsStay(w, b, d, c, shakes);
    h' := FreeRunner(w, d, c, shakes);
    EditsStay(w, d, h', c, shakes);
    GoesAgain(w, h, a, b, c, shakes);
    GoesAgain(w, h, b, d, c, shakes);
    GoesAgain(w, h, d, h', c, shakes);
    AtRest(PeerOf(End(h'), c));
  }

  lemma AtRest(p: Peer)
    requires p.rest.processing == [] && p.rest.toServer == [] && p.rest.fromServer == []
    requires p.sink.runner == Idle && !p.sink.paused
    ensures Resting(p)
  {
  }

  // ---------------------------------------------------------------- one handshake

  function Single(id: MsgId, m: CollabMessage): Queue {
    map[id := PendingMessage(m, Pending, None)]
  }

  lemma SingleTop(cfg: Config, id: MsgId, m: CollabMessage)
    requires ValidConfig(cfg) && IdOf(m) == Some(id)
    ensures cfg.pop(Single(id, m)) == id && NoTies(Single(id, m)) && IsTop(Single(id, m), id)
    ensures Single(id, m) - {id} == map[] && SameRank(m, m)
  {
    assert id in Single(id, m);
    assert IsTop(Single(id, m), cfg.pop(Single(id, m)));
  }

  lemma StartIs(w: World, c: M.ClientId, p: Peer, m: CollabMessage)
    requires ValidConfig(w.cfg) && Possible(w.cfg, w.item, p, StartsHandshake(m))
    ensures var id := p.sink.counter;
            Next(w.cfg, w.item, c, p, StartsHandshake(m))
            == Peer(p.rest.(phase := M.AwaitingReply(id)), p.sink.(queue := Single(id, m), counter := id + 1))
  {
  }

  lemma InitSends(w: World, s: Sink, id: MsgId, m: CollabMessage)
    requires ValidConfig(w.cfg) && m.ClientInitSync? && m.msgId == id
    requires s.queue == Single(id, m) && s.runner == Idle && !s.paused
    ensures var s' := AfterSend(s, id, Outcome(m, map[], [], None), true);
            Enabled(s, SENDS.e) && Apply(w.cfg, s, SENDS.e) == s' && !Loses(w.cfg, s, SENDS.e)
            && s'.socket == s.socket + [m]
  {
    SingleTop(w.cfg, id, m);
    TrySendIs(w.cfg, s, true);
  }

  lemma SendInit(w: World, c: M.ClientId, p: Peer, id: MsgId, m: CollabMessage, sv: M.CrdtDocument.StateVector)
    requires ValidConfig(w.cfg) && m.ClientInitSync? && m.msgId == id && w.item(m) == M.InitSync(sv)
    requires p.sink.queue == Single(id, m) && Resting(p) && p.rest.phase == M.AwaitingReply(id)
    ensures Possible(w.cfg, w.item, p, SENDS)
    ensures Next(w.cfg, w.item, c, p, SENDS)
         == Peer(p.rest.(toServer := [M.Upstream(id, [M.Step1(sv), M.Presence])]),
                 AfterSend(p.sink, id, Outcome(m, map[], [], None), true))
  {
    InitSends(w, p.sink, id, m);
    hide Apply; hide Loses; hide AfterSend;
  }

  lemma ServedStep1(cl: M.Client, server: set<Op>, k: M.SubId, id: MsgId, sv: M.CrdtDocument.StateVector)
    returns (diff: M.CrdtDocument.Update, sv': M.CrdtDocument.StateVector)
    requires cl.toServer == [M.Upstream(id, [M.Step1(sv), M.Presence])] && cl.fromServer == []
    ensures M.Acknowledge(cl, server, k)
         == cl.(toServer := [M.Upstream(id, [M.Presence])], fromServer := [M.Ack(id, [M.Step2(diff), M.Step1(sv')], k)])
  {
    diff, sv' := M.CrdtDocument.EncodeStateAsUpdate(server, sv), M.CrdtDocument.StateVectorOf(server);
    hide M.CrdtDocument.EncodeStateAsUpdate; hide M.CrdtDocument.StateVectorOf;
    assert [M.Step1(sv), M.Presence][1..] == [M.Presence];
  }

  /** The client's peer once its init was handed to the socket. */
  ghost function Shaking(p: Peer, m: CollabMessage): Peer {
    var id := p.sink.counter;
    Peer(p.rest.(phase := M.AwaitingReply(id)),
         AfterSend(p.sink.(queue := Single(id, m), counter := id + 1), id, Outcome(m, map[], [], None), true))
  }

  lemma ShakingIs(p: Peer, m: CollabMessage)
    ensures var id, q := p.sink.counter, Shaking(p, m);
            && q.sink == AfterSend(p.sink.(queue := Single(id, m), counter := id + 1), id,
                                   Outcome(m, map[], [], None), true)
            && q.sink.counter == id + 1 && q.sink.paused == p.sink.paused
            && q.rest == p.rest.(phase := M.AwaitingReply(id))
  {
  }

  lemma InitGoesOut(w: World, c: M.ClientId, p: Peer, m: CollabMessage, sv: M.CrdtDocument.StateVector)
    requires ValidConfig(w.cfg) && Resting(p) && Possible(w.cfg, w.item, p, StartsHandshake(m))
    requires m.ClientInitSync? && m.msgId == p.sink.counter && w.item(m) == M.InitSync(sv)
    ensures var p1 := Next(w.cfg, w.item, c, p, StartsHandshake(m));
            && Possible(w.cfg, w.item, p1, SENDS)
            && Next(w.cfg, w.item, c, p1, SENDS)
               == Peer(Shaking(p, m).rest.(toServer := [M.Upstream(p.sink.counter, [M.Step1(sv), M.Presence])]),
                       Shaking(p, m).sink)
  {
    var id := p.sink.counter;
    StartIs(w, c, p, m);
    var p1 := Peer(p.rest.(phase := M.AwaitingReply(id)), p.sink.(queue := Single(id, m), counter := id + 1));
    SendInit(w, c, p1, id, m, sv);
  }

  lemma ShakeSend(w: World, h: History, c: M.ClientId)
    returns (h': History, m: CollabMessage, sv: M.CrdtDocument.StateVector)
    requires Valid(w, h) && Sound(w) && c in End(h).sinks && M.AllEdits(End(h).core) <= w.ops
    requires Resting(PeerOf(End(h), c))
    ensures Goes(w, h, h', c, true) && Valid(w, h') && c in End(h').sinks
    ensures var p, p' := PeerOf(End(h), c), PeerOf(End(h'), c);
            var id := p.sink.counter;
            && m.ClientInitSync? && m.msgId == id
            && p' == Peer(Shaking(p, m).rest.(toServer := [M.Upstream(id, [M.Step1(sv), M.Presence])]),
                          Shaking(p, m).sink)
  {
    var p := PeerOf(End(h), c);
    SoundConfig(w);
    m := InitWritable(w, h, c);
    sv := M.CrdtDocument.StateVectorOf(p.rest.doc);
    InitGoesOut(w, c, p, m, sv);
    hide Valid; hide Goes; hide Sound; hide M.AllEdits; hide ValidConfig; hide Reads; hide Possible; hide Next;
    hide Shaking; hide M.CrdtDocument.StateVectorOf; hide Resting;
    var a := DoLocal(w, h, c, StartsHandshake(m), true);
    EditsStay(w, h, a, c, true);
    h' := DoLocal(w, a, c, SENDS, true);
    EditsStay(w, a, h', c, true);
    GoesAgain(w, h, a, h', c, true);
  }

  lemma InitCanBeServed(n: Network, c: M.ClientId, id: MsgId, sv: M.CrdtDocument.StateVector)
    requires Paired(n) && c in n.sinks && n.core.clients[c].toServer == [M.Upstream(id, [M.Step1(sv), M.Presence])]
    ensures M.CanServe(n.core, c)
  {
    assert M.HeadMessage(n.core.clients[c]) == M.Step1(sv);
  }

  /** The init's first message is served, through a new subscription. */
  lemma ServeStep1(w: World, h: History, c: M.ClientId, id: MsgId, sv: M.CrdtDocument.StateVector)
    returns (h': History, diff: M.CrdtDocument.Update, sv': M.CrdtDocument.StateVector)
    requires Valid(w, h) && c in End(h).sinks
    requires PeerOf(End(h), c).rest.toServer == [M.Upstream(id, [M.Step1(sv), M.Presence])]
    requires PeerOf(End(h), c).rest.fromServer == []
    ensures Goes(w, h, h', c, true) && Valid(w, h') && c in End(h').sinks && c in End(h').core.subs
    ensures var p, k := PeerOf(End(h), c), End(h').core.subs[c];
            PeerOf(End(h'), c) ==
              p.(rest := p.rest.(toServer := [M.Upstream(id, [M.Presence])],
                                 fromServer := [M.Ack(id, [M.Step2(diff), M.Step1(sv')], k)]))
  {
    Lengths(w, h);
    hide Valid; hide Goes;
    InitCanBeServed(End(h), c, id, sv);
    hide M.Acknowledge; hide M.CanServe; hide M.HeadMessage; hide M.Effect; hide M.Serve;
    h' := DoServe(w, h, c, true);
    EditsStay(w, h, h', c, true);
    diff, sv' := ServedStep1(PeerOf(End(h), c).rest, End(h).core.server, End(h').core.subs[c], id, sv);
  }

  /** The init's two messages are served. */
  lemma ShakeServe(w: World, h: History, c: M.ClientId, id: MsgId, sv: M.CrdtDocument.StateVector)
    returns (h': History, diff: M.CrdtDocument.Update, sv': M.CrdtDocument.StateVector)
    requires Valid(w, h) && Sound(w) && c in End(h).sinks
    requires PeerOf(End(h), c).rest.toServer == [M.Upstream(id, [M.Step1(sv), M.Presence])]
    requires PeerOf(End(h), c).rest.fromServer == []
    ensures Goes(w, h, h', c, true) && Valid(w, h') && c in End(h').sinks && c in End(h').core.subs
    ensures var p, k := PeerOf(End(h), c), End(h').core.subs[c];
            PeerOf(End(h'), c) ==
              p.(rest := p.rest.(toServer := [],
                                 fromServer := [M.Ack(id, [M.Step2(diff), M.Step1(sv')], k), M.Ack(id, [], k)]))
  {
    SoundConfig(w);
    hide *;
    var d: History;
    d, diff, sv' := ServeStep1(w, h, c, id, sv);
    EditsStay(w, h, d, c, true);
    var k := End(d).core.subs[c];
    var ack, next := M.Ack(id, [M.Step2(diff), M.Step1(sv')], k), M.Ack(id, [], k);
    assert [ack] + [next] == [ack, next];
    h' := ServeOne(w, d, c, id, [M.Presence], true);
    EditsStay(w, d, h', c, true);
    GoesAgain(w, h, d, h', c, true);
  }

  lemma StaleAck(w: World, c: M.ClientId, p: Peer, id: MsgId, k: M.SubId, id2: MsgId, m2: CollabMessage)
    requires ValidConfig(w.cfg) && p.sink.queue == Single(id2, m2) && IdOf(m2) == Some(id2) && id2 != id
    requires p.rest.fromServer == [M.Ack(id, [], k)] && p.rest.processing == []
    ensures Possible(w.cfg, w.item, p, Receives)
    ensures Next(w.cfg, w.item, c, p, Receives) == p.(rest := p.rest.(fromServer := []))
  {
    SingleTop(w.cfg, id2, m2);
  }

  lemma ReplyIs(w: World, c: M.ClientId, p: Peer, diff: M.CrdtDocument.Update, sv: M.CrdtDocument.StateVector)
    requires ValidConfig(w.cfg) && p.rest.processing == [M.Step2(diff), M.Step1(sv)]
    ensures Possible(w.cfg, w.item, p, AppliesReply)
    ensures Next(w.cfg, w.item, c, p, AppliesReply)
         == p.(rest := p.rest.(processing := [M.Step1(sv)], doc := p.rest.doc + diff))
  {
  }

  lemma AnswerIs(w: World, c: M.ClientId, p: Peer, sv: M.CrdtDocument.StateVector, m: CollabMessage)
    requires ValidConfig(w.cfg) && p.rest.processing == [M.Step1(sv)] && Possible(w.cfg, w.item, p, AnswersReply(m))
    requires p.rest.phase == M.AwaitingReply(p.rest.processingId) && p.sink.queue == map[]
    ensures Next(w.cfg, w.item, c, p, AnswersReply(m))
         == Peer(p.rest.(processing := [], phase := M.Synced(p.rest.processingSub)),
                 p.sink.(queue := Single(p.sink.counter, m), counter := p.sink.counter + 1))
  {
  }

  /** The reply is accepted, and the init is popped. */
  lemma TakeReply(w: World, h: History, c: M.ClientId, s: Sink, id: MsgId, m: CollabMessage,
                  reply: seq<M.Message>, ack: M.Downstream) returns (h': History)
    requires Valid(w, h) && ValidConfig(w.cfg) && c in End(h).sinks && c in End(h).core.subs
    requires m.ClientInitSync? && m.msgId == id && s.queue == Single(id, m)
    requires var p, k := PeerOf(End(h), c), End(h).core.subs[c];
             && p.sink == AfterSend(s, id, Outcome(m, map[], [], None), true)
             && p.rest.processing == [] && p.rest.fromServer == [M.Ack(id, reply, k), ack]
    ensures Goes(w, h, h', c, true) && Valid(w, h') && SameServer(End(h), End(h'))
    ensures var p, k := PeerOf(End(h), c), End(h).core.subs[c];
            PeerOf(End(h'), c) ==
              Peer(p.rest.(fromServer := [ack], processing := reply, processingId := id, processingSub := k),
                   p.sink.(queue := map[], runner := Idle))
  {
    var p, k, out := PeerOf(End(h), c), End(h).core.subs[c], Outcome(m, map[], [], None);
    SingleTop(w.cfg, id, m);
    assert p.rest.fromServer == [M.Ack(id, reply, k)] + [ack];
    TakeAck(w, c, p, s, id, out, reply, k, [ack]);
    hide Valid; hide Goes; hide ValidConfig; hide Possible; hide Next; hide IsTop; hide NoTies; hide SameRank;
    hide AfterSend;
    h' := DoTwo(w, h, c, Receives, Runs(RunnerAcked), true);
  }

  lemma SameServerAgain(n: Network, n1: Network, n2: Network)
    requires SameServer(n, n1) && SameServer(n1, n2)
    ensures SameServer(n, n2)
  {
  }

  /** The first message of the reply is applied. */
  lemma ReplyApplied(w: World, h: History, c: M.ClientId, diff: M.CrdtDocument.Update, sv: M.CrdtDocument.StateVector)
    returns (h': History)
    requires Valid(w, h) && Sound(w) && c in End(h).sinks
    requires PeerOf(End(h), c).rest.processing == [M.Step2(diff), M.Step1(sv)]
    ensures Goes(w, h, h', c, true) && Valid(w, h') && SameServer(End(h), End(h')) && c in End(h').sinks
    ensures var p := PeerOf(End(h), c);
            PeerOf(End(h'), c) == p.(rest := p.rest.(processing := [M.Step1(sv)], doc := p.rest.doc + diff))
  {
    SoundConfig(w);
    ReplyIs(w, c, PeerOf(End(h), c), diff, sv);
    hide Valid; hide Goes; hide ValidConfig; hide Possible; hide Next; hide OthersSame; hide SameServer;
    h' := DoLocal(w, h, c, AppliesReply, true);
    EditsStay(w, h, h', c, true);
  }

  /** The second message of the reply is answered. */
  lemma AnswerQueued(w: World, h: History, c: M.ClientId, id: MsgId, sv: M.CrdtDocument.StateVector)
    returns (h': History, m2: CollabMessage)
    requires Valid(w, h) && Sound(w) && c in End(h).sinks && M.AllEdits(End(h).core) <= w.ops
    requires var p := PeerOf(End(h), c);
             && p.sink.queue == map[] && p.rest.phase == M.AwaitingReply(id) && p.rest.processingId == id
             && p.rest.processing == [M.Step1(sv)]
    ensures Goes(w, h, h', c, true) && Valid(w, h') && SameServer(End(h), End(h')) && c in End(h').sinks
    ensures var p, id2 := PeerOf(End(h), c), PeerOf(End(h), c).sink.counter;
            && m2.ServerInitSync? && m2.msgId == id2
            && PeerOf(End(h'), c) ==
                 Peer(p.rest.(processing := [], phase := M.Synced(p.rest.processingSub)),
                      p.sink.(queue := Single(id2, m2), counter := id2 + 1))
  {
    SoundConfig(w);
    m2 := AnswerWritable(w, h, c);
    hide Valid; hide Goes; hide Sound; hide M.AllEdits; hide ValidConfig; hide Reads; hide Possible; hide Next;
    hide Single; hide OthersSame; hide SameServer;
    AnswerIs(w, c, PeerOf(End(h), c), sv, m2);
    h' := DoLocal(w, h, c, AnswersReply(m2), true);
    EditsStay(w, h, h', c, true);
  }

  /** The first message of the reply is applied and the second answered. */
  lemma ReplyAnswered(w: World, h: History, c: M.ClientId, id: MsgId, diff: M.CrdtDocument.Update,
                      sv: M.CrdtDocument.StateVector) returns (h': History, m2: CollabMessage)
    requires Valid(w, h) && Sound(w) && c in End(h).sinks && M.AllEdits(End(h).core) <= w.ops
    requires var p := PeerOf(End(h), c);
             && p.sink.queue == map[] && p.rest.phase == M.AwaitingReply(id) && p.rest.processingId == id
             && p.rest.processing == [M.Step2(diff), M.Step1(sv)]
    ensures Goes(w, h, h', c, true) && Valid(w, h') && SameServer(End(h), End(h')) && c in End(h').sinks
    ensures var p, id2 := PeerOf(End(h), c), PeerOf(End(h), c).sink.counter;
            && m2.ServerInitSync? && m2.msgId == id2
            && PeerOf(End(h'), c) ==
                 Peer(p.rest.(doc := p.rest.doc + diff, processing := [], phase := M.Synced(p.rest.processingSub)),
                      p.sink.(queue := Single(id2, m2), counter := id2 + 1))
  {
    hide *;
    var d := ReplyApplied(w, h, c, diff, sv);
    EditsStay(w, h, d, c, true);
    h', m2 := AnswerQueued(w, d, c, id, sv);
    EditsStay(w, d, h', c, true);
    SameServerAgain(End(h), End(d), End(h'));
    GoesAgain(w, h, d, h', c, true);
  }

  /** The reply is worked through, which makes the client attached, and its answer is queued. */
  lemma AnswerReply(w: World, h: History, c: M.ClientId, id: MsgId, diff: M.CrdtDocument.Update,
                    sv: M.CrdtDocument.StateVector) returns (h': History)
    requires Valid(w, h) && Sound(w) && c in End(h).sinks && c in End(h).core.subs && M.AllEdits(End(h).core) <= w.ops
    requires var p, k := PeerOf(End(h), c), End(h).core.subs[c];
             && p.sink.queue == map[] && id < p.sink.counter && p.sink.runner == Idle && !p.sink.paused
             && p.rest.phase == M.AwaitingReply(id) && p.rest.processingId == id && p.rest.processingSub == k
             && p.rest.processing == [M.Step2(diff), M.Step1(sv)] && p.rest.toServer == []
             && p.rest.fromServer == [M.Ack(id, [], k)]
    ensures Goes(w, h, h', c, true) && Valid(w, h')
    ensures M.Attached(End(h').core, c) && Resting(PeerOf(End(h'), c))
    ensures PeerOf(End(h'), c).rest.unqueued == PeerOf(End(h), c).rest.unqueued
    ensures exists m2: CollabMessage :: m2.ServerInitSync? && End(h').sinks[c].queue == Single(m2.msgId, m2)
  {
    SoundConfig(w);
    var k := End(h).core.subs[c];
    hide Valid; hide Goes; hide Sound; hide M.AllEdits; hide ValidConfig; hide Reads; hide Possible; hide Next;
    hide Single;
    var e, m2 := ReplyAnswered(w, h, c, id, diff, sv);
    EditsStay(w, h, e, c, true);
    StaleAck(w, c, PeerOf(End(e), c), id, k, m2.msgId, m2);
    h' := DoLocal(w, e, c, Receives, true);
    EditsStay(w, e, h', c, true);
    GoesAgain(w, h, e, h', c, true);
  }

  /** Nothing queued, nothing under way but news on its way to the client. */
  predicate OnlyNews(n: Network, c: M.ClientId)
    requires Paired(n)
  {
    && c in n.sinks && n.sinks[c].queue == map[]
    && var rest := n.core.clients[c];
       && rest.phase.Synced? && rest.processing == [] && rest.unqueued == [] && rest.toServer == []
       && forall down <- rest.fromServer :: down.Broadcast?
  }

  predicate AtPeace(n: Network, c: M.ClientId)
    requires Paired(n)
  {
    OnlyNews(n, c) && M.Attached(n.core, c)
  }

  lemma AnswerCanBeSent(w: World, s: Sink, id: MsgId, m: CollabMessage)
    requires ValidConfig(w.cfg) && m.ServerInitSync? && m.msgId == id && s.queue == Single(id, m)
    ensures CanSendHead(w, s) && Absorb(w.cfg, s.queue, w.cfg.pop(s.queue)).queue == map[]
  {
    SingleTop(w.cfg, id, m);
  }

  lemma AnswerDelivered(w: World, h: History, c: M.ClientId) returns (h': History)
    requires Valid(w, h) && ValidConfig(w.cfg) && Reads(w.cfg.yrs, w.item) && c in End(h).sinks
    requires M.Attached(End(h).core, c) && Resting(PeerOf(End(h), c)) && PeerOf(End(h), c).rest.unqueued == []
    requires exists m: CollabMessage :: m.ServerInitSync? && End(h).sinks[c].queue == Single(m.msgId, m)
    ensures Goes(w, h, h', c, true) && Valid(w, h') && Paired(End(h'))
    ensures AtPeace(End(h'), c) && PeerOf(End(h'), c).rest.fromServer == []
    ensures End(h').sinks[c].runner == Idle && !End(h').sinks[c].paused
  {
    var m: CollabMessage :| m.ServerInitSync? && End(h).sinks[c].queue == Single(m.msgId, m);
    AnswerCanBeSent(w, End(h).sinks[c], m.msgId, m);
    hide Valid; hide Goes; hide ValidConfig; hide Reads; hide Absorb; hide CanSendHead; hide M.ItemOps;
    h' := Round(w, h, c, true);
    EditsStay(w, h, h', c, true);
  }

  /** The init reaches the server, which answers it. */
  lemma ShakeAsk(w: World, h: History, c: M.ClientId)
    returns (h': History, m: CollabMessage, diff: M.CrdtDocument.Update, sv': M.CrdtDocument.StateVector)
    requires Valid(w, h) && Sound(w) && c in End(h).sinks && M.AllEdits(End(h).core) <= w.ops
    requires Resting(PeerOf(End(h), c))
    ensures Goes(w, h, h', c, true) && Valid(w, h') && c in End(h').sinks && c in End(h').core.subs
    ensures var p, k, id := PeerOf(End(h), c), End(h').core.subs[c], End(h).sinks[c].counter;
            && m.ClientInitSync? && m.msgId == id
            && PeerOf(End(h'), c) ==
                 Peer(Shaking(p, m).rest.(
                        toServer := [], fromServer := [M.Ack(id, [M.Step2(diff), M.Step1(sv')], k), M.Ack(id, [], k)]),
                      Shaking(p, m).sink)
  {
    var p := PeerOf(End(h), c);
    var a: History, sv;
    a, m, sv := ShakeSend(w, h, c);
    EditsStay(w, h, a, c, true);
    ShakingIs(p, m);
    hide Valid; hide Goes; hide Sound; hide M.AllEdits; hide Shaking; hide AfterSend;
    h', diff, sv' := ShakeServe(w, a, c, p.sink.counter, sv);
    EditsStay(w, a, h', c, true);
    GoesAgain(w, h, a, h', c, true);
  }

  /** The init reaches the server, and the reply is accepted. */
  lemma ShakeUp(w: World, h: History, c: M.ClientId)
    returns (h': History, diff: M.CrdtDocument.Update, sv': M.CrdtDocument.StateVector)
    requires Valid(w, h) && Sound(w) && c in End(h).sinks && M.AllEdits(End(h).core) <= w.ops
    requires Resting(PeerOf(End(h), c))
    ensures Goes(w, h, h', c, true) && Valid(w, h') && c in End(h').sinks && c in End(h').core.subs
    ensures var p, p', k, id := PeerOf(End(h), c), PeerOf(End(h'), c), End(h').core.subs[c], End(h).sinks[c].counter;
            && p'.sink.queue == map[] && p'.sink.counter == id + 1 && p'.sink.runner == Idle && !p'.sink.paused
            && p'.rest == p.rest.(phase := M.AwaitingReply(id), processing := [M.Step2(diff), M.Step1(sv')],
                                  processingId := id, processingSub := k, fromServer := [M.Ack(id, [], k)])
  {
    var p := PeerOf(End(h), c);
    var id := p.sink.counter;
    SoundConfig(w);
    var d, m;
    d, m, diff, sv' := ShakeAsk(w, h, c);
    EditsStay(w, h, d, c, true);
    ShakingIs(p, m);
    hide Valid; hide Goes; hide Sound; hide M.AllEdits; hide ValidConfig; hide Reads; hide Shaking; hide AfterSend;
    hide Single;
    var s := p.sink.(queue := Single(id, m), counter := id + 1);
    h' := TakeReply(w, d, c, s, id, m, [M.Step2(diff), M.Step1(sv')], M.Ack(id, [], End(d).core.subs[c]));
    EditsStay(w, d, h', c, true);
    GoesAgain(w, h, d, h', c, true);
  }

  /** A whole handshake, and the answer delivered. */
  lemma Handshake(w: World, h: History, c: M.ClientId) returns (h': History)
    requires Valid(w, h) && Sound(w) && c in End(h).sinks && M.AllEdits(End(h).core) <= w.ops
    requires Resting(PeerOf(End(h), c)) && PeerOf(End(h), c).rest.unqueued == []
    ensures Goes(w, h, h', c, true) && Valid(w, h') && Paired(End(h'))
    ensures AtPeace(End(h'), c) && PeerOf(End(h'), c).rest.fromServer == []
    ensures End(h').sinks[c].runner == Idle && !End(h').sinks[c].paused
  {
    SoundConfig(w);
    var a, diff, sv' := ShakeUp(w, h, c);
    EditsStay(w, h, a, c, true);
    hide Valid; hide Goes; hide Sound; hide M.AllEdits; hide ValidConfig; hide Reads;
    var b := AnswerReply(w, a, c, End(h).sinks[c].counter, diff, sv');
    EditsStay(w, a, b, c, true);
    GoesAgain(w, h, a, b, c, true);
    h' := AnswerDelivered(w, b, c);
    EditsStay(w, b, h', c, true);
    GoesAgain(w, h, b, h', c, true);
  }

  // ---------------------------------------------------------------- all clients

  lemma PeaceStays(n: Network, n': Network, c: M.ClientId)
    requires Paired(n) && Paired(n') && OthersUndisturbed(n, n', c)
    ensures forall d <- n.sinks :: d != c && OnlyNews(n, d) ==> OnlyNews(n', d)
    ensures forall d <- n.sinks :: d != c && AtPeace(n, d) ==> AtPeace(n', d)
  {
    forall d <- n.sinks | d != c
      ensures (OnlyNews(n, d) ==> OnlyNews(n', d)) && (AtPeace(n, d) ==> AtPeace(n', d))
    {
      assert Undisturbed(n, n', d);
      assert d in n.core.subs ==> d in n'.core.subs && n'.core.subs[d] == n.core.subs[d];
    }
  }

  lemma OthersStay(w: World, h: History, h': History, c: M.ClientId, shakes: bool)
    requires Goes(w, h, h', c, shakes)
    ensures Valid(w, h) && Valid(w, h') && GoesOn(w, h, h', shakes)
    ensures Paired(End(h)) && Paired(End(h')) && OthersUndisturbed(End(h), End(h'), c)
    ensures End(h').sinks.Keys == End(h).sinks.Keys && M.AllEdits(End(h').core) == M.AllEdits(End(h).core)
  {
  }

  /** One client more is at peace. */
  lemma PeaceGrows(n: Network, n': Network, todo: set<M.ClientId>, c: M.ClientId)
    requires Paired(n) && Paired(n') && OthersUndisturbed(n, n', c) && n'.sinks.Keys == n.sinks.Keys && AtPeace(n', c)
    requires forall d <- n.sinks :: d !in todo ==> AtPeace(n, d)
    ensures forall d <- n'.sinks :: d !in todo - {c} ==> AtPeace(n', d)
  {
    PeaceStays(n, n', c);
    hide AtPeace; hide OthersUndisturbed;
    forall d <- n'.sinks | d !in todo - {c} ensures AtPeace(n', d) {
      if d != c { assert d in n.sinks && d !in todo; }
    }
  }

  lemma {:induction false} ShakeAll(w: World, h: History, todo: set<M.ClientId>) returns (h': History)
    requires Valid(w, h) && Sound(w) && M.AllEdits(End(h).core) <= w.ops && todo <= End(h).sinks.Keys
    requires forall d <- End(h).sinks :: d !in todo ==> AtPeace(End(h), d)
    ensures GoesOn(w, h, h', true) && Valid(w, h') && forall d <- End(h').sinks :: AtPeace(End(h'), d)
    decreases todo
  {
    if todo == {} {
      h' := h;
    } else {
      hide *;
      Lengths(w, h);
      var c :| c in todo;
      var a := ShakeOne(w, h, c);
      OthersStay(w, h, a, c, true);
      Lengths(w, a);
      PeaceGrows(End(h), End(a), todo, c);
      h' := ShakeAll(w, a, todo - {c});
      GoesOnAgain(w, h, a, h', true);
    }
  }

  lemma ShakeOne(w: World, h: History, c: M.ClientId) returns (h': History)
    requires Valid(w, h) && Sound(w) && M.AllEdits(End(h).core) <= w.ops && c in End(h).sinks
    ensures Goes(w, h, h', c, true) && Valid(w, h') && Paired(End(h')) && AtPeace(End(h'), c)
  {
    hide *;
    var a := CalmDown(w, h, c, true);
    EditsStay(w, h, a, c, true);
    h' := Handshake(w, a, c);
    EditsStay(w, a, h', c, true);
    GoesAgain(w, h, a, h', c, true);
  }

  lemma NewsIs(w: World, c: M.ClientId, p: Peer)
    requires ValidConfig(w.cfg) && p.rest.processing == [] && p.rest.fromServer != [] && p.rest.fromServer[0].Broadcast?
    ensures Possible(w.cfg, w.item, p, Receives)
    ensures Next(w.cfg, w.item, c, p, Receives)
         == p.(rest := p.rest.(doc := p.rest.doc + p.rest.fromServer[0].update, fromServer := p.rest.fromServer[1..]))
  {
  }

  /** The news is received. */
  lemma {:induction false} ReceiveNews(w: World, h: History, c: M.ClientId) returns (h': History)
    requires Valid(w, h) && ValidConfig(w.cfg) && c in End(h).sinks
    requires PeerOf(End(h), c).rest.processing == []
    requires forall down <- PeerOf(End(h), c).rest.fromServer :: down.Broadcast?
    ensures Goes(w, h, h', c, false) && Valid(w, h') && SameServer(End(h), End(h'))
    ensures var p, p' := PeerOf(End(h), c), PeerOf(End(h'), c);
            p' == p.(rest := p.rest.(doc := p'.rest.doc, fromServer := []))
    ensures OthersSame(End(h), End(h'), c)
    ensures PeerOf(End(h), c).rest.fromServer == [] ==> PeerOf(End(h'), c) == PeerOf(End(h), c)
    decreases |PeerOf(End(h), c).rest.fromServer|
  {
    var p := PeerOf(End(h), c);
    if p.rest.fromServer == [] {
      Stays(w, h, c, false);
      h' := h;
    } else {
      NewsIs(w, c, p);
      hide Valid; hide Goes; hide ValidConfig; hide Possible; hide Next;
      var a := DoLocal(w, h, c, Receives, false);
      EditsStay(w, h, a, c, false);
      h' := ReceiveNews(w, a, c);
      EditsStay(w, a, h', c, false);
      GoesAgain(w, h, a, h', c, false);
    }
  }

  /** Who has no news coming is as before. */
  predicate SameButNews(n: Network, n': Network, d: M.ClientId)
    requires Paired(n) && Paired(n')
  {
    && d in n.sinks && d in n'.sinks
    && n'.sinks[d] == n.sinks[d]
    && n'.core.clients[d] == n.core.clients[d].(doc := n'.core.clients[d].doc, fromServer := [])
    && (n.core.clients[d].fromServer == [] ==> n'.core.clients[d] == n.core.clients[d])
  }

  lemma NewsLeaves(w: World, h: History, a: History, c: M.ClientId)
    requires Goes(w, h, a, c, false) && SameServer(End(h), End(a)) && c in End(h).sinks
    requires forall d <- End(h).sinks :: OnlyNews(End(h), d)
    requires var p, p' := PeerOf(End(h), c), PeerOf(End(a), c);
             p' == p.(rest := p.rest.(doc := p'.rest.doc, fromServer := []))
    requires OthersSame(End(h), End(a), c)
    ensures forall d <- End(a).sinks :: OnlyNews(End(a), d)
    ensures End(a).sinks.Keys == End(h).sinks.Keys
  {
    hide Valid; hide Benign; hide Undisturbed; hide M.AllEdits;
    EditsStay(w, h, a, c, false);
    forall d <- End(a).sinks ensures OnlyNews(End(a), d) {
      assert OnlyNews(End(h), d);
    }
  }

  lemma NothingNew(w: World, h: History)
    requires Valid(w, h) && Paired(End(h)) && forall d <- End(h).sinks :: OnlyNews(End(h), d)
    requires forall d <- End(h).core.clients :: End(h).core.clients[d].fromServer == []
    ensures GoesOn(w, h, h, false) && SameServer(End(h), End(h)) && Settled(End(h))
    ensures forall d <- End(h).sinks :: SameButNews(End(h), End(h), d)
  {
    Lengths(w, h);
    hide Valid; hide M.AllEdits;
    forall d <- End(h).core.clients
      ensures var cl := End(h).core.clients[d];
              && cl.phase.Synced? && cl.unqueued == [] && End(h).sinks[d].queue == map[] && cl.processing == []
              && cl.toServer == [] && cl.fromServer == []
    {
      assert OnlyNews(End(h), d);
    }
  }

  lemma NewsTaken(n: Network, a: Network, n': Network, c: M.ClientId)
    requires Paired(n) && Paired(a) && Paired(n') && c in n.sinks && a.sinks.Keys == n.sinks.Keys
    requires var p, p' := PeerOf(n, c), PeerOf(a, c); p' == p.(rest := p.rest.(doc := p'.rest.doc, fromServer := []))
    requires PeerOf(n, c).rest.fromServer == [] ==> PeerOf(a, c) == PeerOf(n, c)
    requires OthersSame(n, a, c)
    requires forall d <- a.sinks :: SameButNews(a, n', d)
    ensures forall d <- n.sinks :: SameButNews(n, n', d)
  {
    forall d <- n.sinks ensures SameButNews(n, n', d) {
      assert SameButNews(a, n', d);
      if d != c { assert PeerOf(a, d) == PeerOf(n, d); }
    }
  }

  lemma FewerNews(n: Network, a: Network, todo: set<M.ClientId>, c: M.ClientId)
    requires Paired(n) && Paired(a) && c in n.sinks && a.sinks.Keys == n.sinks.Keys
    requires forall d <- n.core.clients :: d !in todo ==> n.core.clients[d].fromServer == []
    requires PeerOf(a, c).rest.fromServer == []
    requires OthersSame(n, a, c)
    ensures forall d <- a.core.clients :: d !in todo - {c} ==> a.core.clients[d].fromServer == []
  {
    forall d <- a.core.clients | d !in todo - {c} ensures a.core.clients[d].fromServer == [] {
      if d != c { assert PeerOf(a, d) == PeerOf(n, d); }
    }
  }

  lemma {:induction false} NewsForAll(w: World, h: History, todo: set<M.ClientId>) returns (h': History)
    requires Valid(w, h) && ValidConfig(w.cfg) && todo <= End(h).sinks.Keys
    requires forall d <- End(h).sinks :: OnlyNews(End(h), d)
    requires forall d <- End(h).core.clients :: d !in todo ==> End(h).core.clients[d].fromServer == []
    ensures GoesOn(w, h, h', false) && Valid(w, h') && SameServer(End(h), End(h')) && Settled(End(h'))
    ensures End(h').sinks.Keys == End(h).sinks.Keys
    ensures forall d <- End(h).sinks :: SameButNews(End(h), End(h'), d)
    decreases todo
  {
    Lengths(w, h);
    if todo == {} {
      hide Valid; hide GoesOn; hide Settled; hide OnlyNews; hide SameButNews;
      NothingNew(w, h);
      h' := h;
    } else {
      var c :| c in todo;
      assert OnlyNews(End(h), c);
      var a := ReceiveNews(w, h, c);
      NewsLeaves(w, h, a, c);
      OthersStay(w, h, a, c, false);
      hide Valid; hide Goes; hide ValidConfig; hide GoesOn; hide OthersUndisturbed; hide Settled; hide OnlyNews;
      hide SameButNews; hide M.AllEdits;
      FewerNews(End(h), End(a), todo, c);
      h' := NewsForAll(w, a, todo - {c});
      Lengths(w, h');
      GoesOnAgain(w, h, a, h', false);
      NewsTaken(End(h), End(a), End(h'), c);
    }
  }

  lemma Converges(w: World, h: History)
    requires Valid(w, h) && Reads(w.cfg.yrs, w.item) && Settled(End(h)) && M.AllAttached(End(h).core)
    ensures M.Converged(End(h).core)
  {
    QueuesConverge(w.cfg, w.item, h.run, h.acts);
  }

  /** Quiet, attached, and with everyone holding exactly the union of all edits. */
  ghost predicate Agreed(n: Network) {
    Paired(n) && Settled(n) && M.AllAttached(n.core) && M.Converged(n.core)
  }

  lemma StillAtPeace(n: Network, n': Network)
    requires Paired(n) && Paired(n') && SameServer(n, n') && n'.sinks.Keys == n.sinks.Keys
    requires forall d <- n.sinks :: AtPeace(n, d) && SameButNews(n, n', d)
    ensures M.AllAttached(n'.core) && forall d <- n'.sinks :: AtPeace(n', d) && PeerOf(n', d).rest.fromServer == []
  {
    forall d <- n'.core.clients
      ensures M.Attached(n'.core, d) && AtPeace(n', d) && PeerOf(n', d).rest.fromServer == []
    {
      assert d in n.sinks && AtPeace(n, d) && SameButNews(n, n', d);
    }
  }

  lemma AllHaveOnlyNews(n: Network)
    requires Paired(n) && forall d <- n.sinks :: AtPeace(n, d)
    ensures forall d <- n.sinks :: OnlyNews(n, d)
  {
    hide OnlyNews;
  }

  /** Once everyone is at peace the news is received, and all agree. */
  lemma NewsSettles(w: World, h: History) returns (h': History)
    requires Valid(w, h) && Sound(w) && Paired(End(h)) && forall d <- End(h).sinks :: AtPeace(End(h), d)
    ensures GoesOn(w, h, h', false) && Valid(w, h') && Agreed(End(h'))
    ensures forall d <- End(h').sinks :: AtPeace(End(h'), d) && PeerOf(End(h'), d).rest.fromServer == []
  {
    SoundConfig(w);
    AllHaveOnlyNews(End(h));
    hide Valid; hide Sound; hide GoesOn; hide ValidConfig; hide Reads; hide M.Converged; hide Settled; hide OnlyNews;
    hide AtPeace; hide SameButNews; hide SameServer; hide M.AllAttached;
    h' := NewsForAll(w, h, End(h).sinks.Keys);
    Lengths(w, h');
    StillAtPeace(End(h), End(h'));
    Converges(w, h');
  }

  lemma Settle(w: World, h: History) returns (h': History)
    requires Valid(w, h) && Sound(w) && M.AllEdits(End(h).core) <= w.ops
    ensures GoesOn(w, h, h', true) && Valid(w, h') && Agreed(End(h'))
    ensures forall c <- End(h').sinks :: AtPeace(End(h'), c) && PeerOf(End(h'), c).rest.fromServer == []
  {
    hide *;
    Lengths(w, h);
    var a := ShakeAll(w, h, End(h).sinks.Keys);
    Lengths(w, a);
    h' := NewsSettles(w, a);
    Lengths(w, h');
    AllowHandshakes(w, a, h');
    GoesOnAgain(w, h, a, h', true);
  }

  /** Whatever has happened, clients with real queues and the server can settle with no further edit and
      no disconnect: each client works off what it has and handshakes anew, and then everyone holds
      exactly the union of all edits made so far. */
  lemma CanAlwaysSettle(w: World, h: History)
    requires Valid(w, h) && Sound(w) && M.AllEdits(End(h).core) <= w.ops
    ensures exists more :: GoesOn(w, h, more, true) && Agreed(End(more))
                        && End(more).core.server == M.AllEdits(End(h).core)
  {
    var more := Settle(w, h);
  }

  // ---------------------------------------------------------------- who has no subscription is left behind

  /** `h` goes on as `h'` by exactly one edit, of client `b`. */
  ghost predicate ByEdit(w: World, h: History, h': History, b: M.ClientId) {
    && Valid(w, h) && Valid(w, h') && h.run <= h'.run
    && h'.acts == h.acts + [Local(b, Edits(1), w.cfg.pop)]
  }

  /** `h` goes on as `more` by one edit of `b`, and besides only by the clients' own work and the server's;
      `shakes` says whether a client may handshake before the edit, and none does after it. */
  ghost predicate OneEdit(w: World, h: History, more: History, b: M.ClientId, shakes: bool) {
    exists before, after :: GoesOn(w, h, before, shakes) && ByEdit(w, before, after, b) && GoesOn(w, after, more, false)
  }

  lemma MakeEdit(w: World, h: History, b: M.ClientId) returns (h': History)
    requires Valid(w, h) && ValidConfig(w.cfg) && b in End(h).sinks
    ensures Valid(w, h') && ByEdit(w, h, h', b)
    ensures End(h') == With(End(h), b, Peer(M.Edit(b, PeerOf(End(h), b).rest, 1), End(h).sinks[b]))
  {
    var n := End(h);
    var a, n' := Local(b, Edits(1), w.cfg.pop), With(n, b, Peer(M.Edit(b, PeerOf(n, b).rest, 1), n.sinks[b]));
    assert w.cfg.(pop := w.cfg.pop) == w.cfg;
    assert Moves(w.cfg, w.item, n, a, n');
    hide Valid; hide Moves;
    Lengths(w, h);
    Extends(w, h, a, n');
    h' := Plus(h, a, n');
  }

  lemma UpdateCanBeSent(w: World, s: Sink, id: MsgId, m: CollabMessage)
    requires ValidConfig(w.cfg) && m.ClientUpdateSync? && m.msgId == id && s.queue == Single(id, m)
    ensures CanSendHead(w, s) && w.cfg.pop(s.queue) == id
    ensures Absorb(w.cfg, s.queue, id) == Outcome(m, map[], [], None)
  {
    SingleTop(w.cfg, id, m);
  }

  /** The message is the client's next one and reads as its next edit. */
  ghost predicate WritesEdit(w: World, p: Peer, m: CollabMessage) {
    && p.rest.unqueued != [] && w.item(m) == M.UpdateSync(p.rest.unqueued[0])
    && IsUpdate(w.cfg.yrs, m) && m.msgId == p.sink.counter
  }

  lemma EditCanBeQueued(w: World, p: Peer, m: CollabMessage)
    requires WritesEdit(w, p, m)
    ensures Possible(w.cfg, w.item, p, QueuesEdit(0, m))
  {
    hide AsUpdate;
  }

  /** An edit's update is queued, alone. */
  lemma EditQueued(w: World, h: History, b: M.ClientId, m: CollabMessage) returns (h': History)
    requires Valid(w, h) && ValidConfig(w.cfg) && b in End(h).sinks && M.Attached(End(h).core, b)
    requires Resting(PeerOf(End(h), b)) && End(h).sinks[b].queue == map[] && WritesEdit(w, PeerOf(End(h), b), m)
    ensures Goes(w, h, h', b, false) && Valid(w, h') && SameServer(End(h), End(h'))
    ensures var p := PeerOf(End(h), b);
            && PeerOf(End(h'), b) == Peer(p.rest.(unqueued := p.rest.unqueued[1..]), Push(p.sink, m))
            && AtRound(w, End(h'), b) && w.cfg.pop(End(h').sinks[b].queue) == m.msgId
            && Absorb(w.cfg, End(h').sinks[b].queue, m.msgId) == Outcome(m, map[], [], None)
  {
    var p := PeerOf(End(h), b);
    EditCanBeQueued(w, p, m);
    QueuedIs(w, b, p, m);
    hide Valid; hide Goes; hide ValidConfig; hide Possible; hide Next; hide OthersSame;
    h' := DoLocal(w, h, b, QueuesEdit(0, m), false);
    EditsStay(w, h, h', b, false);
    assert End(h').sinks[b].queue == Single(m.msgId, m);
    UpdateCanBeSent(w, End(h').sinks[b], m.msgId, m);
    hide CanSendHead; hide Absorb;
  }

  /** One queued update of an attached client reaches the server. */
  lemma UpdateArrives(w: World, h: History, b: M.ClientId) returns (h': History)
    requires Valid(w, h) && Sound(w) && b in End(h).sinks && M.AllEdits(End(h).core) <= w.ops
    requires M.Attached(End(h).core, b) && Resting(PeerOf(End(h), b)) && End(h).sinks[b].queue == map[]
    requires PeerOf(End(h), b).rest.unqueued != []
    ensures Goes(w, h, h', b, false) && Valid(w, h')
    ensures M.Attached(End(h').core, b) && Resting(PeerOf(End(h'), b)) && End(h').sinks[b].queue == map[]
    ensures PeerOf(End(h'), b).rest.unqueued == PeerOf(End(h), b).rest.unqueued[1..]
    ensures PeerOf(End(h), b).rest.unqueued[0] <= End(h').core.server
  {
    SoundConfig(w);
    var m := EditWritable(w, h, b);
    var a := EditQueued(w, h, b, m);
    hide Valid; hide Goes; hide Sound; hide ValidConfig; hide Reads; hide M.AllEdits; hide AtRound; hide Absorb;
    hide IsUpdate; hide Push; hide Resting;
    EditsStay(w, h, a, b, false);
    h' := Round(w, a, b, false);
    EditsStay(w, a, h', b, false);
    GoesAgain(w, h, a, h', b, false);
  }

  /** What `b` does leaves those without a subscription exactly as they were. */
  ghost predicate OnlyMoved(h: History, h': History, b: M.ClientId)
    requires |h.run| == |h.acts| + 1 && |h'.run| == |h'.acts| + 1
  {
    && h.run <= h'.run && h.acts <= h'.acts && Paired(End(h)) && Paired(End(h'))
    && End(h').sinks.Keys == End(h).sinks.Keys && OthersUndisturbed(End(h), End(h'), b)
  }

  lemma MovedAgain(h: History, a: History, b: History, c: M.ClientId)
    requires |h.run| == |h.acts| + 1 && |a.run| == |a.acts| + 1 && |b.run| == |b.acts| + 1
    requires OnlyMoved(h, a, c) && OnlyMoved(a, b, c)
    ensures OnlyMoved(h, b, c)
  {
    hide Undisturbed;
    UndisturbedAgain(End(h), End(a), End(b), c);
  }

  lemma GoesMoves(w: World, h: History, h': History, c: M.ClientId)
    requires Goes(w, h, h', c, false)
    ensures OnlyMoved(h, h', c)
  {
    hide Undisturbed;
    OthersStay(w, h, h', c, false);
  }

  lemma EditMoves(w: World, h: History, h': History, b: M.ClientId)
    requires ByEdit(w, h, h', b) && Paired(End(h)) && Paired(End(h'))
    requires End(h').sinks == End(h).sinks && OthersUndisturbed(End(h), End(h'), b)
    ensures OnlyMoved(h, h', b)
  {
    hide Undisturbed; hide Valid;
  }

  /** A client at peace frees its runner and makes an edit. */
  lemma EditMade(w: World, h: History, b: M.ClientId) returns (before: History, h': History)
    requires Valid(w, h) && Sound(w) && b in End(h).sinks && AtPeace(End(h), b)
    requires PeerOf(End(h), b).rest.fromServer == []
    requires M.AllEdits(End(h).core) + {M.CrdtDocument.Op(b, PeerOf(End(h), b).rest.clock)} <= w.ops
    ensures GoesOn(w, h, before, false) && ByEdit(w, before, h', b)
    ensures Valid(w, h') && OnlyMoved(h, h', b) && M.AllEdits(End(h').core) <= w.ops && b in End(h').sinks
    ensures M.Attached(End(h').core, b) && Resting(PeerOf(End(h'), b)) && End(h').sinks[b].queue == map[]
    ensures var rest, k := PeerOf(End(h'), b).rest, PeerOf(End(h), b).rest.clock;
            && rest.unqueued == [M.NewOps(b, k, 1)] && rest.clock == k + 1
            && M.CrdtDocument.Op(b, k) in rest.unqueued[0]
            && PeerOf(End(h'), b).sink.counter == PeerOf(End(h), b).sink.counter
  {
    SoundConfig(w);
    before := FreeRunner(w, h, b, false);
    EditsStay(w, h, before, b, false);
    OthersStay(w, h, before, b, false);
    GoesMoves(w, h, before, b);
    hide Goes; hide Sound; hide ValidConfig; hide Reads; hide M.AllEdits; hide GoesOn; hide OnlyMoved; hide ByEdit;
    h' := MakeEdit(w, before, b);
    EditAdds(w, before, h', b);
    assert M.CrdtDocument.Op(b, PeerOf(End(h), b).rest.clock) in M.NewOps(b, PeerOf(End(h), b).rest.clock, 1);
    Lengths(w, h');
    hide Valid; hide OthersUndisturbed;
    EditMoves(w, before, h', b);
    MovedAgain(h, before, h', b);
  }

  lemma PeaceIs(n: Network, b: M.ClientId)
    requires Paired(n) && M.Attached(n.core, b) && Resting(PeerOf(n, b)) && n.sinks[b].queue == map[]
    requires PeerOf(n, b).rest.unqueued == []
    ensures AtPeace(n, b) && PeerOf(n, b).rest.fromServer == []
  {
  }

  /** An edit of a client at peace reaches the server. */
  lemma EditArrives(w: World, h: History, b: M.ClientId) returns (before: History, after: History, h': History)
    requires Valid(w, h) && Sound(w) && b in End(h).sinks && AtPeace(End(h), b)
    requires PeerOf(End(h), b).rest.fromServer == []
    requires M.AllEdits(End(h).core) + {M.CrdtDocument.Op(b, PeerOf(End(h), b).rest.clock)} <= w.ops
    ensures GoesOn(w, h, before, false) && ByEdit(w, before, after, b) && GoesOn(w, after, h', false)
    ensures Valid(w, h') && OnlyMoved(h, h', b)
    ensures AtPeace(End(h'), b) && PeerOf(End(h'), b).rest.fromServer == []
    ensures M.CrdtDocument.Op(b, PeerOf(End(h), b).rest.clock) in End(h').core.server
  {
    hide *;
    Lengths(w, h);
    before, after := EditMade(w, h, b);
    Lengths(w, after);
    var edit := PeerOf(End(after), b).rest.unqueued[0];
    assert PeerOf(End(after), b).rest.unqueued == [edit] && [edit][1..] == [];
    h' := UpdateArrives(w, after, b);
    EditsStay(w, after, h', b, false);
    OthersStay(w, after, h', b, false);
    GoesMoves(w, after, h', b);
    MovedAgain(h, after, h', b);
    PeaceIs(End(h'), b);
  }

  lemma EditAdds(w: World, h: History, h': History, b: M.ClientId)
    requires Valid(w, h) && Valid(w, h') && b in End(h).sinks
    requires End(h') == With(End(h), b, Peer(M.Edit(b, PeerOf(End(h), b).rest, 1), End(h).sinks[b]))
    ensures var op, rest, rest' := M.CrdtDocument.Op(b, PeerOf(End(h), b).rest.clock), PeerOf(End(h), b).rest,
                                   PeerOf(End(h'), b).rest;
            && M.AllEdits(End(h').core) <= M.AllEdits(End(h).core) + {op}
            && |rest'.unqueued| == |rest.unqueued| + 1 && op in rest'.unqueued[|rest.unqueued|]
            && rest'.unqueued[..|rest.unqueued|] == rest.unqueued
            && rest' == rest.(doc := rest'.doc, clock := rest'.clock, unqueued := rest'.unqueued)
    ensures End(h').sinks == End(h).sinks && End(h').core.subs == End(h).core.subs
    ensures OthersUndisturbed(End(h), End(h'), b) && End(h').core.clients.Keys == End(h).core.clients.Keys
  {
    var n, n' := End(h), End(h');
    Lengths(w, h);
    Lengths(w, h');
    hide Valid;
    assert n'.sinks == n.sinks;
    forall op: Op | op in M.AllEdits(n'.core)
      ensures op in M.AllEdits(n.core) + {M.CrdtDocument.Op(b, PeerOf(n, b).rest.clock)}
    {
      assert M.CrdtDocument.Op(op.author, op.clock) == op;
    }
  }

  /** A client that has no subscription is left behind by the next edit of another: from every quiet state
      the run goes on, with that one edit and no handshake, to a quiet state in which the client is exactly
      as it was and lacks an operation the server has. */
  lemma UnsubscribedIsLeftBehind(w: World, h: History, a: M.ClientId, b: M.ClientId)
    returns (more: History)
    requires Valid(w, h) && Sound(w) && Settled(End(h)) && a in End(h).sinks && b in End(h).sinks && a != b
    requires a !in End(h).core.subs && M.Attached(End(h).core, b)
    requires M.AllEdits(End(h).core) + {M.CrdtDocument.Op(b, PeerOf(End(h), b).rest.clock)} <= w.ops
    ensures OneEdit(w, h, more, b, false) && Valid(w, more) && Paired(End(more)) && Settled(End(more))
    ensures a in End(more).sinks && PeerOf(End(more), a) == PeerOf(End(h), a)
    ensures !(End(more).core.server <= PeerOf(End(more), a).rest.doc)
  {
    SoundConfig(w);
    var op := M.CrdtDocument.Op(b, PeerOf(End(h), b).rest.clock);
    EditIsNew(w, h, a, b);
    assert AtPeace(End(h), b);
    var before, after, d := EditArrives(w, h, b);
    NewsForOthers(w, h, d, b);
    hide Valid; hide Sound; hide ValidConfig; hide Reads; hide Settled; hide OnlyNews; hide GoesOn; hide ByEdit;
    more := NewsForAll(w, d, End(d).sinks.Keys);
    GoesOnAgain(w, after, d, more, false);
    assert Undisturbed(End(h), End(d), a) && SameButNews(End(d), End(more), a);
  }

  lemma EditIsNew(w: World, h: History, a: M.ClientId, b: M.ClientId)
    requires Valid(w, h) && Reads(w.cfg.yrs, w.item) && a in End(h).sinks && b in End(h).sinks
    ensures M.CrdtDocument.Op(b, PeerOf(End(h), b).rest.clock) !in PeerOf(End(h), a).rest.doc
  {
    IsReached(w, h);
  }

  lemma NewsForOthers(w: World, h: History, d: History, b: M.ClientId)
    requires Valid(w, h) && Valid(w, d) && Settled(End(h)) && OnlyMoved(h, d, b)
    requires b in End(d).sinks && AtPeace(End(d), b)
    ensures forall x <- End(d).sinks :: OnlyNews(End(d), x)
  {
    Lengths(w, h);
    Lengths(w, d);
    forall x <- End(d).sinks ensures OnlyNews(End(d), x) {
      if x != b {
        assert OnlyNews(End(h), x) && Undisturbed(End(h), End(d), x);
      }
    }
  }

  lemma SameEditsSameClock(s: M.System, s': M.System, b: M.ClientId)
    requires M.AllEdits(s') == M.AllEdits(s) && b in s.clients && b in s'.clients
    ensures s'.clients[b].clock == s.clients[b].clock
  {
    var k, k' := s.clients[b].clock, s'.clients[b].clock;
    EditsOf(s, b, k');
    EditsOf(s', b, k);
    EditsOf(s, b, k);
    EditsOf(s', b, k');
  }

  lemma EditsOf(s: M.System, b: M.ClientId, k: nat)
    requires b in s.clients
    ensures M.CrdtDocument.Op(b, k) in M.AllEdits(s) <==> k < s.clients[b].clock
  {
  }

  /** `h` goes on as `h'` by exactly one eviction. */
  ghost predicate ByEviction(w: World, h: History, h': History) {
    Valid(w, h) && Valid(w, h') && h.run <= h'.run && h'.acts == h.acts + [Evicts]
  }

  lemma Evicted(w: World, h: History) returns (h': History)
    requires Valid(w, h)
    ensures Valid(w, h') && ByEviction(w, h, h') && End(h') == End(h).(core := M.Evict(End(h).core))
    ensures M.AllEdits(End(h').core) == M.AllEdits(End(h).core)
  {
    var n' := End(h).(core := M.Evict(End(h).core));
    Lengths(w, h);
    assert Paired(n');
    Extends(w, h, Evicts, n');
    h' := Plus(h, Evicts, n');
    SameClocksSameEdits(End(h).core, n'.core);
  }

  lemma Returns(w: World, h: History, b: M.ClientId) returns (h': History)
    requires Valid(w, h) && Sound(w) && M.AllEdits(End(h).core) <= w.ops && b in End(h).sinks
    requires var p := PeerOf(End(h), b);
             && p.rest.processing == [] && p.rest.toServer == [] && p.rest.fromServer == [] && p.rest.unqueued == []
             && p.sink.queue == map[]
    ensures Goes(w, h, h', b, true) && Valid(w, h') && Paired(End(h'))
    ensures AtPeace(End(h'), b) && PeerOf(End(h'), b).rest.fromServer == []
  {
    SoundConfig(w);
    hide Valid; hide Goes; hide Sound; hide ValidConfig; hide Reads; hide M.AllEdits; hide AtPeace;
    var d := FreeRunner(w, h, b, true);
    EditsStay(w, h, d, b, true);
    h' := Handshake(w, d, b);
    EditsStay(w, d, h', b, true);
    GoesAgain(w, h, d, h', b, true);
  }

  /** Only `b` has a subscription, and only `b` has moved. */
  lemma OthersUntouched(n: Network, n1: Network, n': Network, b: M.ClientId)
    requires Paired(n) && Settled(n) && n1 == n.(core := M.Evict(n.core)) && b in n.sinks
    requires OthersUndisturbed(n1, n', b) && Paired(n') && n'.sinks.Keys == n.sinks.Keys
    requires AtPeace(n', b) && PeerOf(n', b).rest.fromServer == []
    ensures Settled(n')
    ensures forall d <- n.sinks :: d != b ==> d !in n'.core.subs && PeerOf(n', d) == PeerOf(n, d)
  {
    forall d <- n.sinks | d != b ensures d !in n'.core.subs && PeerOf(n', d) == PeerOf(n, d) {
      assert d in n1.sinks && Undisturbed(n1, n', d);
    }
    forall d <- n'.core.clients
      ensures var cl := n'.core.clients[d];
              && cl.phase.Synced? && cl.unqueued == [] && n'.sinks[d].queue == map[] && cl.processing == []
              && cl.toServer == [] && cl.fromServer == []
    {
      if d != b { assert PeerOf(n', d) == PeerOf(n, d) && d in n.core.clients; }
    }
  }

  /** The group is evicted, and `b` handshakes with a new one; nobody else notices anything. */
  lemma EvictAndReturn(w: World, h: History, b: M.ClientId) returns (evicted: History, h': History)
    requires Valid(w, h) && Sound(w) && M.AllEdits(End(h).core) <= w.ops && Settled(End(h)) && b in End(h).sinks
    ensures ByEviction(w, h, evicted) && GoesOn(w, evicted, h', true)
    ensures Valid(w, h') && Paired(End(h')) && Settled(End(h'))
    ensures End(h').sinks.Keys == End(h).sinks.Keys && M.Attached(End(h').core, b)
    ensures M.AllEdits(End(h').core) == M.AllEdits(End(h).core)
    ensures forall d <- End(h).sinks :: d != b ==> d !in End(h').core.subs && PeerOf(End(h'), d) == PeerOf(End(h), d)
  {
    Lengths(w, h);
    hide Valid; hide Goes; hide Sound; hide M.AllEdits; hide ByEviction; hide OthersUndisturbed; hide GoesOn;
    evicted := Evicted(w, h);
    Lengths(w, evicted);
    h' := Returns(w, evicted, b);
    OthersStay(w, evicted, h', b, true);
    hide Settled;
    OthersUntouched(End(h), End(evicted), End(h'), b);
  }

  lemma OneEditAfter(w: World, h: History, c: History, more: History, b: M.ClientId)
    requires GoesOn(w, h, c, true) && OneEdit(w, c, more, b, false)
    ensures OneEdit(w, h, more, b, true)
  {
    var before, after :|
      GoesOn(w, c, before, false) && ByEdit(w, before, after, b) && GoesOn(w, after, more, false);
    hide GoesOn; hide ByEdit;
    AllowHandshakes(w, c, before);
    GoesOnAgain(w, h, c, before, true);
  }

  lemma LeaveBehind(w: World, h: History, a: M.ClientId, b: M.ClientId) returns (evicted: History, more: History)
    requires Valid(w, h) && Sound(w) && Settled(End(h)) && a in End(h).sinks && b in End(h).sinks && a != b
    requires M.AllEdits(End(h).core) + {M.CrdtDocument.Op(b, PeerOf(End(h), b).rest.clock)} <= w.ops
    ensures ByEviction(w, h, evicted) && OneEdit(w, evicted, more, b, true)
    ensures Valid(w, more) && Paired(End(more)) && Settled(End(more))
    ensures a in End(more).sinks && PeerOf(End(more), a) == PeerOf(End(h), a)
    ensures !(End(more).core.server <= PeerOf(End(more), a).rest.doc)
  {
    hide Valid; hide Sound; hide M.AllEdits; hide Settled; hide GoesOn; hide OneEdit; hide ByEviction;
    Lengths(w, h);
    var c;
    evicted, c := EvictAndReturn(w, h, b);
    Lengths(w, c);
    SameEditsSameClock(End(h).core, End(c).core, b);
    more := UnsubscribedIsLeftBehind(w, c, a, b);
    OneEditAfter(w, evicted, c, more, b);
    Lengths(w, more);
    assert PeerOf(End(more), a) == PeerOf(End(h), a);
  }

  /** Why convergence asks for attached clients: from every reachable state of a system with two clients
      the run can go on to a settled state, and from there, by one eviction, a handshake of `b` and one
      edit of `b`, to a state where nothing is queued or in flight, every handshake is complete, and client
      `a`, which is exactly as it was, lacks an edit the server has. */
  lemma EvictionCanLeaveAClientBehind(w: World, h: History, a: M.ClientId, b: M.ClientId)
    requires Valid(w, h) && Sound(w) && a in End(h).sinks && b in End(h).sinks && a != b
    requires M.AllEdits(End(h).core) + {M.CrdtDocument.Op(b, PeerOf(End(h), b).rest.clock)} <= w.ops
    ensures exists settled, evicted, more ::
              && GoesOn(w, h, settled, true) && Agreed(End(settled))
              && ByEviction(w, settled, evicted) && OneEdit(w, evicted, more, b, true)
              && Valid(w, more) && Paired(End(more)) && Settled(End(more))
              && a in End(settled).sinks && a in End(more).sinks
              && PeerOf(End(more), a) == PeerOf(End(settled), a)
              && !(End(more).core.server <= PeerOf(End(more), a).rest.doc)
  {
    hide Valid; hide Sound; hide M.AllEdits; hide GoesOn; hide M.Converged; hide OneEdit; hide ByEviction;
    var settled := Settle(w, h);
    Lengths(w, h);
    Lengths(w, settled);
    SettledFacts(w, h, settled);
    SameEditsSameClock(End(h).core, End(settled).core, b);
    hide Settled;
    var evicted, more := LeaveBehind(w, settled, a, b);
    Lengths(w, more);
  }

  lemma SettledFacts(w: World, h: History, h': History)
    requires GoesOn(w, h, h', true)
    ensures |h.run| == |h.acts| + 1 && |h'.run| == |h'.acts| + 1 && Paired(End(h)) && Paired(End(h'))
    ensures M.AllEdits(End(h').core) == M.AllEdits(End(h).core)
    ensures End(h').sinks.Keys == End(h).sinks.Keys && End(h').core.clients.Keys == End(h).core.clients.Keys
  {
  }
}
