/** The whole system with the heap-based queues in it: clients that each run a real send queue, and the
    server. Every run is a run of the abstract machine, so it converges. */
module SyncWithQueues {
  import opened Common
  import opened SendQueue
  import opened SendQueueRuns
  import opened SendQueueRefinement
  import M = SyncMachine

  /** The machine's system, whose clients' queues are unused, and every client's sink. */
  datatype Network = Network(core: M.System, sinks: map<M.ClientId, Sink>)

  predicate Paired(n: Network) {
    n.sinks.Keys == n.core.clients.Keys
  }

  function PeerOf(n: Network, c: M.ClientId): Peer
    requires Paired(n) && c in n.core.clients
  {
    Peer(n.core.clients[c], n.sinks[c])
  }

  ghost function ViewOf(item: CollabMessage -> M.Item, n: Network): M.System
    requires Paired(n)
  {
    n.core.(clients := map c | c in n.core.clients :: View(item, PeerOf(n, c)))
  }

  /** What can happen: a client's step, with the choice its heap makes among the greatest messages this
      time, or something at the server or on the way. */
  datatype Act =
    | Local(c: M.ClientId, e: PeerEvent, heap: Queue -> MsgId)
    | Serves(c: M.ClientId)
    | Drops(c: M.ClientId)
    | Evicts
    | LosesUp(c: M.ClientId)
    | LosesDown(c: M.ClientId, i: nat)

  function With(n: Network, c: M.ClientId, p: Peer): Network {
    Network(n.core.(clients := n.core.clients[c := p.rest]), n.sinks[c := p.sink])
  }

  ghost predicate Moves(cfg: Config, item: CollabMessage -> M.Item, n: Network, a: Act, n': Network)
    requires Paired(n)
  {
    match a
    case Local(c, e, heap) =>
      var w := cfg.(pop := heap);
      && ValidConfig(w) && c in n.core.clients && Possible(w, item, PeerOf(n, c), e)
      && n' == With(n, c, Next(w, item, c, PeerOf(n, c), e))
    case Serves(c) => M.CanServe(n.core, c) && n' == n.(core := M.Serve(n.core, c))
    case Drops(c) => c in n.core.clients && n' == n.(core := M.Drop(n.core, c))
    case Evicts => n' == n.(core := M.Evict(n.core))
    case LosesUp(c) => M.CanLoseUp(n.core, c) && n' == n.(core := M.LoseUp(n.core, c))
    case LosesDown(c, i) => M.CanLoseDown(n.core, c, i) && n' == n.(core := M.LoseDown(n.core, c, i))
  }

  predicate Begins(n: Network) {
    Paired(n) && M.Start(n.core) && forall c <- n.sinks :: n.sinks[c] == NewSink
  }

  /** A run of the whole system, and what was done at each step. */
  ghost predicate IsNetworkRun(cfg: Config, item: CollabMessage -> M.Item, run: seq<Network>, acts: seq<Act>)
  {
    && |run| == |acts| + 1 && Begins(run[0])
    && (forall n <- run :: Paired(n))
    && forall i | 0 <= i < |acts| :: Moves(cfg, item, run[i], acts[i], run[i + 1])
  }

  // ---------------------------------------------------------------- the server's steps commute with the view

  /** A client seen with another queue. */
  function Seen(cl: M.Client, queue: M.Queue, nextId: MsgId): M.Client {
    cl.(queue := queue, nextId := nextId)
  }

  /** Two systems that agree but for their clients' queues. */
  ghost predicate Alike(v: M.System, s: M.System) {
    && v == s.(clients := v.clients) && v.clients.Keys == s.clients.Keys
    && forall c <- s.clients :: v.clients[c] == Seen(s.clients[c], v.clients[c].queue, v.clients[c].nextId)
  }

  lemma ViewIsAlike(item: CollabMessage -> M.Item, n: Network)
    requires Paired(n)
    ensures Alike(ViewOf(item, n), n.core)
  {
    hide Abs;
  }

  /** Both systems took the same step, and the first kept its clients' queues. */
  ghost predicate AlikeAfter(v: M.System, v': M.System, s': M.System) {
    && Alike(v', s') && v'.clients.Keys == v.clients.Keys
    && forall c <- v'.clients :: v'.clients[c].queue == v.clients[c].queue
                              && v'.clients[c].nextId == v.clients[c].nextId
  }

  /** The view after a step that leaves the sinks alone is the view's own step. */
  lemma SameView(item: CollabMessage -> M.Item, n: Network, n': Network, v': M.System)
    requires Paired(n) && Paired(n') && n'.sinks == n.sinks && AlikeAfter(ViewOf(item, n), v', n'.core)
    ensures ViewOf(item, n') == v'
  {
    hide Abs;
    assert ViewOf(item, n').clients == v'.clients;
  }

  lemma AcknowledgeSeen(cl: M.Client, server: set<M.CrdtDocument.Op>, k: M.SubId, queue: M.Queue, nextId: MsgId)
    requires cl.toServer != [] && cl.toServer[0].payload != []
    ensures M.Acknowledge(Seen(cl, queue, nextId), server, k) == Seen(M.Acknowledge(cl, server, k), queue, nextId)
  {
    hide M.ServerReply;
  }

  lemma HandleAlike(v: M.System, s: M.System, c: M.ClientId)
    requires Alike(v, s) && M.HasHead(s, c) && c in s.subs
    ensures M.HasHead(v, c) && AlikeAfter(v, M.Handle(v, c), M.Handle(s, c))
  {
    hide M.News; hide M.Effect;
    assert M.HeadMessage(v.clients[c]) == M.HeadMessage(s.clients[c]);
    AcknowledgeSeen(s.clients[c], s.server, s.subs[c], v.clients[c].queue, v.clients[c].nextId);
    hide M.Acknowledge; hide M.HeadMessage;
  }

  lemma SubscribedAlike(v: M.System, s: M.System, c: M.ClientId)
    requires Alike(v, s) && M.CanServe(s, c)
    ensures M.CanServe(v, c) && Alike(M.Subscribed(v, c), M.Subscribed(s, c))
    ensures M.Subscribed(v, c).clients == v.clients && M.Subscribed(s, c).clients == s.clients
    ensures M.HasHead(M.Subscribed(s, c), c) && c in M.Subscribed(s, c).subs
  {
  }

  lemma ServeAlike(v: M.System, s: M.System, c: M.ClientId)
    requires Alike(v, s) && M.CanServe(s, c)
    ensures M.CanServe(v, c) && AlikeAfter(v, M.Serve(v, c), M.Serve(s, c))
  {
    SubscribedAlike(v, s, c);
    hide Alike; hide M.Handle; hide M.Subscribed;
    HandleAlike(M.Subscribed(v, c), M.Subscribed(s, c), c);
  }

  lemma DropAlike(v: M.System, s: M.System, c: M.ClientId)
    requires Alike(v, s) && c in s.clients
    ensures AlikeAfter(v, M.Drop(v, c), M.Drop(s, c))
  {
  }

  lemma EvictAlike(v: M.System, s: M.System)
    requires Alike(v, s)
    ensures AlikeAfter(v, M.Evict(v), M.Evict(s))
  {
  }

  lemma LoseUpAlike(v: M.System, s: M.System, c: M.ClientId)
    requires Alike(v, s) && M.CanLoseUp(s, c)
    ensures M.CanLoseUp(v, c) && AlikeAfter(v, M.LoseUp(v, c), M.LoseUp(s, c))
  {
  }

  lemma LoseDownAlike(v: M.System, s: M.System, c: M.ClientId, i: nat)
    requires Alike(v, s) && M.CanLoseDown(s, c, i)
    ensures M.CanLoseDown(v, c, i) && AlikeAfter(v, M.LoseDown(v, c, i), M.LoseDown(s, c, i))
  {
    hide M.Without;
  }

  lemma OutsideIsServerStep(cfg: Config, item: CollabMessage -> M.Item, n: Network, a: Act, n': Network)
    requires Paired(n) && !a.Local? && Moves(cfg, item, n, a, n')
    ensures n'.sinks == n.sinks && M.ServerStep(n.core, n'.core)
  {
    hide M.Serve; hide M.CanServe; hide M.Drop; hide M.Evict;
    hide M.LoseUp; hide M.CanLoseUp; hide M.LoseDown; hide M.CanLoseDown;
  }

  lemma OutsideSeen(item: CollabMessage -> M.Item, n: Network, n': Network)
    requires Paired(n) && Paired(n') && n'.sinks == n.sinks && M.ServerStep(n.core, n'.core)
    ensures M.ServerStep(ViewOf(item, n), ViewOf(item, n'))
  {
    ViewIsAlike(item, n);
    hide ViewOf; hide Alike; hide AlikeAfter; hide M.Serve; hide M.CanServe; hide M.Drop; hide M.Evict;
    hide M.LoseUp; hide M.CanLoseUp; hide M.LoseDown; hide M.CanLoseDown;
    var s, s', v := n.core, n'.core, ViewOf(item, n);
    assert v.clients.Keys == s.clients.Keys by { ViewKeys(item, n); }
    if c :| M.CanServe(s, c) && s' == M.Serve(s, c) {
      ServeAlike(v, s, c);
      SameView(item, n, n', M.Serve(v, c));
    } else if c :| c in s.clients && s' == M.Drop(s, c) {
      DropAlike(v, s, c);
      SameView(item, n, n', M.Drop(v, c));
    } else if s' == M.Evict(s) {
      EvictAlike(v, s);
      SameView(item, n, n', M.Evict(v));
    } else if c :| M.CanLoseUp(s, c) && s' == M.LoseUp(s, c) {
      LoseUpAlike(v, s, c);
      SameView(item, n, n', M.LoseUp(v, c));
    } else {
      var c, i: nat :| M.CanLoseDown(s, c, i) && s' == M.LoseDown(s, c, i);
      LoseDownAlike(v, s, c, i);
      SameView(item, n, n', M.LoseDown(v, c, i));
    }
  }

  lemma ViewKeys(item: CollabMessage -> M.Item, n: Network)
    requires Paired(n)
    ensures ViewOf(item, n).clients.Keys == n.core.clients.Keys
  {
  }

  // ---------------------------------------------------------------- runs refine runs

  ghost predicate SinksInv(yrs: Yrs, n: Network) {
    Paired(n) && forall c <- n.sinks :: SinkInv(yrs, n.sinks[c])
  }

  /** No step of the machine, one, or two. */
  ghost predicate Steps(v: M.System, v': M.System) {
    v' == v || M.Step(v, v') || exists mid :: M.Step(v, mid) && M.Step(mid, v')
  }

  lemma StepOf(v: M.System, c: M.ClientId, cl': M.Client)
    requires c in v.clients && OneStep(c, v.clients[c], cl')
    ensures M.Step(v, v.(clients := v.clients[c := cl']))
  {
    hide M.LocalStep; hide M.Enabled;
    var l :| M.Enabled(v.clients[c], l) && cl' == M.LocalStep(c, v.clients[c], l);
  }

  lemma StepsOf(v: M.System, c: M.ClientId, cl': M.Client)
    requires c in v.clients && LocalSteps(c, v.clients[c], cl')
    ensures Steps(v, v.(clients := v.clients[c := cl']))
  {
    hide OneStep; hide M.Step;
    var cl, v' := v.clients[c], v.(clients := v.clients[c := cl']);
    if cl' == cl {
      assert v.clients[c := cl] == v.clients;
    } else if OneStep(c, cl, cl') {
      StepOf(v, c, cl');
    } else {
      var mid :| OneStep(c, cl, mid) && OneStep(c, mid, cl');
      var w := v.(clients := v.clients[c := mid]);
      StepOf(v, c, mid);
      StepOf(w, c, cl');
      assert w.clients[c := cl'] == v'.clients;
    }
  }

  lemma LocalSeen(cfg: Config, item: CollabMessage -> M.Item, n: Network, c: M.ClientId, e: PeerEvent,
                  heap: Queue -> MsgId, n': Network)
    requires Reads(cfg.yrs, item) && SinksInv(cfg.yrs, n)
    requires Moves(cfg, item, n, Local(c, e, heap), n')
    ensures SinksInv(cfg.yrs, n') && Steps(ViewOf(item, n), ViewOf(item, n'))
  {
    hide Next; hide SinkInv; hide View; hide Possible; hide Reads; hide LocalSteps; hide Steps;
    var w, p, v := cfg.(pop := heap), PeerOf(n, c), ViewOf(item, n);
    var p' := Next(w, item, c, p, e);
    SinkRefinesMachine(w, item, c, p, e);
    assert v.clients[c] == View(item, p);
    assert ViewOf(item, n') == v.(clients := v.clients[c := View(item, p')]);
    StepsOf(v, c, View(item, p'));
  }

  lemma MoveSeen(cfg: Config, item: CollabMessage -> M.Item, n: Network, a: Act, n': Network)
    requires Reads(cfg.yrs, item) && SinksInv(cfg.yrs, n) && Paired(n')
    requires Moves(cfg, item, n, a, n')
    ensures SinksInv(cfg.yrs, n') && Steps(ViewOf(item, n), ViewOf(item, n'))
  {
    if a.Local? {
      hide ViewOf; hide Reads; hide Steps;
      LocalSeen(cfg, item, n, a.c, a.e, a.heap, n');
    } else {
      hide Moves; hide ViewOf; hide Reads; hide M.ServerStep;
      OutsideIsServerStep(cfg, item, n, a, n');
      OutsideSeen(item, n, n');
    }
  }

  lemma BeginsSeen(item: CollabMessage -> M.Item, yrs: Yrs, n: Network)
    requires Begins(n)
    ensures SinksInv(yrs, n) && M.Start(ViewOf(item, n))
  {
    assert Abs(item, NewSink) == map[];
  }

  lemma ShownGoesOn(shown: seq<M.System>, v: M.System) returns (more: seq<M.System>)
    requires M.IsRun(shown) && Steps(shown[|shown| - 1], v)
    ensures M.IsRun(more) && more[|more| - 1] == v
  {
    hide M.Step;
    var last := shown[|shown| - 1];
    if v == last {
      more := shown;
    } else if M.Step(last, v) {
      more := shown + [v];
    } else {
      var mid :| M.Step(last, mid) && M.Step(mid, v);
      more := shown + [mid, v];
    }
  }

  /** Every run of clients with real queues and the server is a run of the machine: some steps are none
      of its steps, and a send that drops a message is two. */
  lemma {:induction false} RunsRefine(cfg: Config, item: CollabMessage -> M.Item, run: seq<Network>, acts: seq<Act>)
    returns (shown: seq<M.System>)
    requires Reads(cfg.yrs, item) && IsNetworkRun(cfg, item, run, acts)
    ensures M.IsRun(shown) && shown[|shown| - 1] == ViewOf(item, run[|acts|])
    ensures SinksInv(cfg.yrs, run[|acts|])
    decreases |acts|
  {
    hide Reads; hide ViewOf; hide SinksInv; hide Moves; hide M.Step; hide Steps;
    if acts == [] {
      BeginsSeen(item, cfg.yrs, run[0]);
      shown := [ViewOf(item, run[0])];
    } else {
      var k := |acts| - 1;
      shown := RunsRefine(cfg, item, run[..k + 1], acts[..k]);
      MoveSeen(cfg, item, run[k], acts[k], run[k + 1]);
      shown := ShownGoesOn(shown, ViewOf(item, run[k + 1]));
    }
  }

  /** Every queue is empty and nothing else is under way. */
  predicate Settled(n: Network)
    requires Paired(n)
  {
    forall c <- n.core.clients ::
      var cl := n.core.clients[c];
      && cl.phase.Synced? && cl.unqueued == [] && n.sinks[c].queue == map[] && cl.processing == []
      && cl.toServer == [] && cl.fromServer == []
  }

  /** Convergence of the system that runs the real queues: in every run, whatever sends fail and
      whatever is lost on the way, whenever nothing is queued or in flight, and every client's handshake
      was answered by the subscription the server still has and its queue has lost nothing since, every
      client and the server hold exactly the union of all edits, with no gap. */
  lemma QueuesConverge(cfg: Config, item: CollabMessage -> M.Item, run: seq<Network>, acts: seq<Act>)
    requires Reads(cfg.yrs, item) && IsNetworkRun(cfg, item, run, acts)
    requires Settled(run[|acts|]) && M.AllAttached(run[|acts|].core)
    ensures M.Converged(run[|acts|].core) && M.CrdtDocument.Contiguous(run[|acts|].core.server)
  {
    var n := run[|acts|];
    assert Paired(n);
    hide IsNetworkRun; hide M.IsRun; hide Reads; hide SinksInv;
    var shown := RunsRefine(cfg, item, run, acts);
    var v := ViewOf(item, n);
    ViewSettled(item, n);
    M.Convergence(shown);
    assert M.AllEdits(v) == M.AllEdits(n.core);
    assert forall c <- n.core.clients :: v.clients[c].doc == n.core.clients[c].doc;
  }

  lemma ViewSettled(item: CollabMessage -> M.Item, n: Network)
    requires Paired(n) && Settled(n) && M.AllAttached(n.core)
    ensures M.Quiescent(ViewOf(item, n)) && M.AllAttached(ViewOf(item, n))
  {
    assert forall c <- n.sinks :: n.sinks[c].queue == map[] ==> Abs(item, n.sinks[c]) == map[];
  }

  // ---------------------------------------------------------------- how a head can be popped unsent

  ghost predicate SentOnce(s: Sink, id: MsgId) {
    exists x <- s.socket :: IdOf(x) == Some(id)
  }

  /** While sends succeed, a message that was ever sent was handed over as it stands, and only such a
      message is processing or done. */
  ghost predicate Prompt(s: Sink) {
    && (forall id <- s.queue :: id < s.counter && IdOf(s.queue[id].msg) == Some(id))
    && (forall x <- s.socket :: IdOf(x).Some? && IdOf(x).value < s.counter)
    && (forall id <- s.queue :: SentOnce(s, id) ==> s.queue[id].msg in s.socket)
    && (forall id <- s.queue :: s.queue[id].state == Processing || s.queue[id].state == Done ==> SentOnce(s, id))
  }

  /** The server acknowledges only what was sent. */
  ghost predicate AcksSent(p: Peer) {
    && (forall up <- p.rest.toServer :: SentOnce(p.sink, up.id))
    && (forall down <- p.rest.fromServer :: down.Ack? ==> SentOnce(p.sink, down.id))
  }

  predicate SendsWork(e: PeerEvent) {
    e.Runs? && e.e.Process? ==> e.e.sendOk
  }

  lemma PushPrompt(yrs: Yrs, s: Sink, m: CollabMessage)
    requires Prompt(s) && ClientMessage(yrs, m, s.counter)
    ensures Prompt(Push(s, m)) && forall id :: SentOnce(Push(s, m), id) <==> SentOnce(s, id)
  {
    assert IdOf(m) == Some(s.counter);
    hide ClientMessage;
    assert !SentOnce(s, s.counter);
    assert forall id :: SentOnce(Push(s, m), id) <==> SentOnce(s, id);
  }

  lemma AfterSendPrompt(s: Sink, id: MsgId, out: Outcome)
    requires Prompt(s) && id in s.queue && IdOf(out.head) == Some(id)
    requires forall j <- out.queue :: j != id && j in s.queue && out.queue[j] == s.queue[j]
    ensures var s' := AfterSend(s, id, out, true);
            && Prompt(s') && SentOnce(s', id)
            && forall j :: SentOnce(s, j) ==> SentOnce(s', j)
  {
    var s' := AfterSend(s, id, out, true);
    assert forall x :: x in s'.socket <==> x in s.socket || x == out.head;
    assert forall j :: SentOnce(s', j) <==> SentOnce(s, j) || j == id;
  }

  lemma TrySendPrompt(cfg: Config, s: Sink)
    requires ValidConfig(cfg) && SinkInv(cfg.yrs, s) && Prompt(s)
    requires s.queue != map[] && cfg.pop(s.queue) in s.queue
    requires var p := s.queue[cfg.pop(s.queue)]; p.state == Pending || p.state == Timeout
    ensures var s' := TrySend(cfg, s, true);
            && Prompt(s') && (forall id :: SentOnce(s, id) ==> SentOnce(s', id))
            && s'.socket == s.socket + [Absorb(cfg, s.queue, cfg.pop(s.queue)).head]
            && IdOf(Absorb(cfg, s.queue, cfg.pop(s.queue)).head) == Some(cfg.pop(s.queue))
            && SentOnce(s', cfg.pop(s.queue))
  {
    var id := cfg.pop(s.queue);
    AbsorbIs(cfg, s.queue);
    TrySendIs(cfg, s, true);
    hide Absorb; hide TrySend; hide Overflows; hide OnlyGrows; hide Ops; hide IsUpdate; hide Prompt; hide AfterSend;
    var out := Absorb(cfg, s.queue, id);
    assert IdOf(out.head) == Some(id);
    AfterSendPrompt(s, id, out);
    assert TrySend(cfg, s, true).socket == s.socket + [out.head] by { SentIs(s, id, out); }
  }

  lemma SentIs(s: Sink, id: MsgId, out: Outcome)
    ensures AfterSend(s, id, out, true).socket == s.socket + [out.head]
  {
  }

  /** A change of state or of the runner that marks nothing done or processing that was never sent. */
  lemma MarkPrompt(s: Sink, id: MsgId, state: MessageState, tx: Option<Token>, runner: Runner)
    requires Prompt(s) && id in s.queue
    requires state == Processing || state == Done ==> SentOnce(s, id)
    ensures var s' := s.(queue := s.queue[id := PendingMessage(s.queue[id].msg, state, tx)], runner := runner);
            Prompt(s') && forall j :: SentOnce(s', j) <==> SentOnce(s, j)
  {
    var s' := s.(queue := s.queue[id := PendingMessage(s.queue[id].msg, state, tx)], runner := runner);
    assert forall j :: SentOnce(s', j) <==> SentOnce(s, j);
  }

  lemma PopPrompt(s: Sink, ids: set<MsgId>, runner: Runner)
    requires Prompt(s)
    ensures var s' := s.(queue := s.queue - ids, runner := runner);
            Prompt(s') && forall j :: SentOnce(s', j) <==> SentOnce(s, j)
  {
    var s' := s.(queue := s.queue - ids, runner := runner);
    assert forall j :: SentOnce(s', j) <==> SentOnce(s, j);
  }

  lemma SentPrompt(item: CollabMessage -> M.Item, p: Peer, p': Peer, head: CollabMessage)
    requires AcksSent(p) && p'.sink.socket == p.sink.socket + [head] && IdOf(head).Some?
    requires SentOnce(p'.sink, IdOf(head).value) && forall id :: SentOnce(p.sink, id) ==> SentOnce(p'.sink, id)
    requires p'.rest.toServer == p.rest.toServer + Upstreamed(item, p.sink, p'.sink)
    requires p'.rest.fromServer == p.rest.fromServer
    ensures AcksSent(p')
  {
    hide SentOnce; hide M.Payload;
  }

  lemma ProcessIs(cfg: Config, item: CollabMessage -> M.Item, c: M.ClientId, p: Peer, e: PeerEvent)
    requires ValidConfig(cfg) && Possible(cfg, item, p, e) && e.Runs? && e.e.Process? && e.e.sendOk
    ensures var s, p' := p.sink, Next(cfg, item, c, p, e);
            && p'.rest.toServer == p.rest.toServer + Upstreamed(item, s, p'.sink)
            && p'.rest.fromServer == p.rest.fromServer
            && (s.queue == map[] ==> p'.sink == s)
            && (s.queue != map[] ==>
                  && cfg.pop(s.queue) in s.queue
                  && (p'.sink == s || p'.sink == s.(queue := s.queue - {cfg.pop(s.queue)})
                      || (&& Sends(cfg, s, e.e.tooEarly) && p'.sink == TrySend(cfg, s, true)
                          && var q := s.queue[cfg.pop(s.queue)]; q.state == Pending || q.state == Timeout)))
  {
    hide Loses; hide Absorb; hide Upstreamed; hide AfterSend;
    if p.sink.queue != map[] { assert IsTop(p.sink.queue, cfg.pop(p.sink.queue)); }
  }

  lemma SameSinkPrompt(item: CollabMessage -> M.Item, p: Peer, p': Peer)
    requires AcksSent(p) && p'.sink.socket == p.sink.socket && p'.rest.fromServer == p.rest.fromServer
    requires p'.rest.toServer == p.rest.toServer + Upstreamed(item, p.sink, p'.sink)
    requires forall j :: SentOnce(p'.sink, j) <==> SentOnce(p.sink, j)
    ensures AcksSent(p')
  {
    hide SentOnce; hide M.Payload;
  }

  lemma ProcessPrompt(cfg: Config, item: CollabMessage -> M.Item, c: M.ClientId, p: Peer, e: PeerEvent)
    requires ValidConfig(cfg) && SinkInv(cfg.yrs, p.sink) && Prompt(p.sink) && AcksSent(p)
    requires Possible(cfg, item, p, e) && e.Runs? && e.e.Process? && e.e.sendOk
    ensures var p' := Next(cfg, item, c, p, e); Prompt(p'.sink) && AcksSent(p')
  {
    var s, p' := p.sink, Next(cfg, item, c, p, e);
    ProcessIs(cfg, item, c, p, e);
    hide *;
    if s.queue != map[] && p'.sink != s {
      var id := cfg.pop(s.queue);
      if p'.sink == s.(queue := s.queue - {id}) {
        PopPrompt(s, {id}, s.runner);
        assert p'.sink == s.(queue := s.queue - {id}, runner := s.runner);
        SameSinkPrompt(item, p, p');
      } else {
        TrySendPrompt(cfg, s);
        SentPrompt(item, p, p', Absorb(cfg, s.queue, id).head);
      }
    } else {
      SameSinkPrompt(item, p, p');
    }
  }

  lemma ReceivePrompt(cfg: Config, item: CollabMessage -> M.Item, c: M.ClientId, p: Peer)
    requires ValidConfig(cfg) && Prompt(p.sink) && AcksSent(p) && Possible(cfg, item, p, Receives)
    ensures var p' := Next(cfg, item, c, p, Receives); Prompt(p'.sink) && AcksSent(p')
  {
    var s := p.sink;
    var down := p.rest.fromServer[0];
    assert down in p.rest.fromServer;
    if down.Ack? && s.queue != map[] && cfg.pop(s.queue) == down.id {
      assert IsTop(s.queue, down.id);
      MarkPrompt(s, down.id, Done, None, AckMsg(cfg, s, down.id).0.runner);
    }
    hide Prompt; hide SentOnce; hide IsTop; hide Lawful;
  }

  lemma RunnerPrompt(cfg: Config, item: CollabMessage -> M.Item, c: M.ClientId, p: Peer, e: PeerEvent)
    requires ValidConfig(cfg) && Prompt(p.sink) && AcksSent(p) && Possible(cfg, item, p, e)
    requires (e.Runs? && !e.e.Process?) || e.Cancelled?
    ensures var p' := Next(cfg, item, c, p, e); Prompt(p'.sink) && AcksSent(p')
  {
    var s := p.sink;
    var p' := Next(cfg, item, c, p, e);
    if s.queue != map[] && e.Runs? && !e.e.SetPaused? {
      var id := cfg.pop(s.queue);
      assert IsTop(s.queue, id);
      if e.e.RunnerAcked? {
        PopPrompt(s, {id}, Idle);
      } else {
        MarkPrompt(s, id, Timeout, s.queue[id].tx, Idle);
      }
    } else {
      assert forall j :: SentOnce(p'.sink, j) <==> SentOnce(s, j);
    }
    hide Prompt; hide SentOnce; hide IsTop; hide Lawful;
  }

  lemma OutsidePrompt(cfg: Config, item: CollabMessage -> M.Item, c: M.ClientId, p: Peer, e: PeerEvent)
    requires ValidConfig(cfg) && Prompt(p.sink) && AcksSent(p) && Possible(cfg, item, p, e)
    requires !e.Runs? && !e.Cancelled? && !e.Receives?
    ensures var p' := Next(cfg, item, c, p, e); Prompt(p'.sink) && AcksSent(p')
  {
    hide AsUpdate;
    var s := p.sink;
    match e {
      case QueuesEdit(_, m) => PushPrompt(cfg.yrs, s, m);
      case StartsHandshake(m) =>
        PopPrompt(s, s.queue.Keys, s.runner);
        assert s.queue - s.queue.Keys == map[];
        PushPrompt(cfg.yrs, s.(queue := map[]), m);
      case AnswersReply(m) => PushPrompt(cfg.yrs, s, m);
      case _ =>
    }
    hide Prompt; hide SentOnce; hide ClientMessage;
  }

  lemma PeerPrompt(cfg: Config, item: CollabMessage -> M.Item, c: M.ClientId, p: Peer, e: PeerEvent)
    requires ValidConfig(cfg) && SinkInv(cfg.yrs, p.sink) && Prompt(p.sink) && AcksSent(p)
    requires Possible(cfg, item, p, e) && SendsWork(e)
    ensures var p' := Next(cfg, item, c, p, e); Prompt(p'.sink) && AcksSent(p')
  {
    var process := e.Runs? && e.e.Process?;
    assert process ==> e.e.sendOk;
    hide *;
    if process {
      ProcessPrompt(cfg, item, c, p, e);
    } else if e.Receives? {
      ReceivePrompt(cfg, item, c, p);
    } else if e.Cancelled? || e.Runs? {
      RunnerPrompt(cfg, item, c, p, e);
    } else {
      OutsidePrompt(cfg, item, c, p, e);
    }
  }

  ghost predicate AllPrompt(n: Network) {
    Paired(n) && forall c <- n.core.clients :: Prompt(n.sinks[c]) && AcksSent(PeerOf(n, c))
  }

  lemma ServedAcksSent(s: M.System, c: M.ClientId, d: M.ClientId, sink: Sink)
    requires M.CanServe(s, c) && d in s.clients && AcksSent(Peer(s.clients[d], sink))
    ensures d in M.Serve(s, c).clients && AcksSent(Peer(M.Serve(s, c).clients[d], sink))
  {
    hide M.News; hide M.ServerReply; hide M.Effect; hide SentOnce;
    var cl := s.clients[d];
    assert d == c ==> cl.toServer[0] in cl.toServer;
    var cl' := M.Serve(s, c).clients[d];
    assert forall up <- cl'.toServer :: up in cl.toServer || (d == c && up.id == cl.toServer[0].id);
    assert forall down <- cl'.fromServer | down.Ack? ::
      down in cl.fromServer || (d == c && down.id == cl.toServer[0].id);
  }

  /** A step outside the clients that serves nobody puts nothing on a channel. */
  predicate Shrinks(s: M.System, s': M.System) {
    && s'.clients.Keys == s.clients.Keys
    && forall d <- s.clients ::
         && (forall up <- s'.clients[d].toServer :: up in s.clients[d].toServer)
         && (forall down <- s'.clients[d].fromServer :: down in s.clients[d].fromServer)
  }

  lemma LoseUpShrinks(s: M.System, c: M.ClientId)
    requires M.CanLoseUp(s, c)
    ensures Shrinks(s, M.LoseUp(s, c))
  {
  }

  lemma LoseDownShrinks(s: M.System, c: M.ClientId, i: nat)
    requires M.CanLoseDown(s, c, i)
    ensures Shrinks(s, M.LoseDown(s, c, i))
  {
  }

  lemma DropShrinks(s: M.System, c: M.ClientId)
    requires c in s.clients
    ensures Shrinks(s, M.Drop(s, c))
  {
  }

  lemma ServesOrShrinks(s: M.System, s': M.System)
    requires M.ServerStep(s, s')
    ensures (exists c :: M.CanServe(s, c) && s' == M.Serve(s, c)) || Shrinks(s, s')
  {
    assert Shrinks(s, M.Evict(s));
    hide M.CanServe; hide M.Serve; hide M.Drop; hide M.Evict; hide M.LoseUp; hide M.LoseDown;
    hide M.CanLoseUp; hide M.CanLoseDown; hide Shrinks;
    if c :| M.CanServe(s, c) && s' == M.Serve(s, c) {
    } else if c :| c in s.clients && s' == M.Drop(s, c) {
      DropShrinks(s, c);
    } else if c :| M.CanLoseUp(s, c) && s' == M.LoseUp(s, c) {
      LoseUpShrinks(s, c);
    } else if c, i: nat :| M.CanLoseDown(s, c, i) && s' == M.LoseDown(s, c, i) {
      LoseDownShrinks(s, c, i);
    }
  }

  lemma ShrinkingKeepsAcksSent(p: Peer, rest: M.Client)
    requires AcksSent(p)
    requires forall up <- rest.toServer :: up in p.rest.toServer
    requires forall down <- rest.fromServer :: down in p.rest.fromServer
    ensures AcksSent(Peer(rest, p.sink))
  {
    hide SentOnce;
  }

  lemma ServerPrompt(n: Network, n': Network)
    requires AllPrompt(n) && Paired(n') && n'.sinks == n.sinks && M.ServerStep(n.core, n'.core)
    ensures AllPrompt(n')
  {
    hide Prompt; hide AcksSent; hide M.ServerStep; hide M.CanServe; hide M.Serve;
    var s, s' := n.core, n'.core;
    ServesOrShrinks(s, s');
    if c :| M.CanServe(s, c) && s' == M.Serve(s, c) {
      forall d <- s'.clients ensures AcksSent(PeerOf(n', d)) {
        ServedAcksSent(s, c, d, n.sinks[d]);
      }
    } else {
      forall d <- s'.clients ensures AcksSent(PeerOf(n', d)) {
        ShrinkingKeepsAcksSent(PeerOf(n, d), s'.clients[d]);
      }
    }
  }

  lemma {:induction false} SendsWorkingKeepPrompt(cfg: Config, item: CollabMessage -> M.Item, run: seq<Network>,
                                                  acts: seq<Act>)
    requires Reads(cfg.yrs, item) && IsNetworkRun(cfg, item, run, acts)
    requires forall a <- acts :: a.Local? ==> SendsWork(a.e)
    ensures AllPrompt(run[|acts|]) && SinksInv(cfg.yrs, run[|acts|])
    decreases |acts|
  {
    if acts == [] {
      BeginsSeen(item, cfg.yrs, run[0]);
    } else {
      var k := |acts| - 1;
      var n, n', a := run[k], run[k + 1], acts[k];
      assert Paired(n) && Paired(n') && Moves(cfg, item, n, a, n') && a in acts;
      SendsWorkingKeepPrompt(cfg, item, run[..k + 1], acts[..k]);
      hide SinksInv; hide AllPrompt; hide Moves; hide SendsWork; hide IsNetworkRun;
      MoveSeen(cfg, item, n, a, n');
      MovePrompt(cfg, item, n, a, n');
    }
  }

  lemma MovePrompt(cfg: Config, item: CollabMessage -> M.Item, n: Network, a: Act, n': Network)
    requires SinksInv(cfg.yrs, n) && AllPrompt(n) && Paired(n')
    requires Moves(cfg, item, n, a, n') && (a.Local? ==> SendsWork(a.e))
    ensures AllPrompt(n')
  {
    hide Prompt; hide AcksSent; hide SinkInv; hide Possible; hide Next; hide SendsWork; hide M.ServerStep;
    if a.Local? {
      PeerPrompt(cfg.(pop := a.heap), item, a.c, PeerOf(n, a.c), a.e);
    } else {
      OutsideIsServerStep(cfg, item, n, a, n');
      ServerPrompt(n, n');
    }
  }

  /** While every send succeeds, a queue loses a message exactly by a merge that runs over the limit or
      by a race: the runner, told of an ack, pops a head that was queued in front of the acked message
      and was never sent. */
  lemma OnlyTheRaceLoses(cfg: Config, item: CollabMessage -> M.Item, run: seq<Network>, acts: seq<Act>,
                         c: M.ClientId, e: PeerEvent, heap: Queue -> MsgId)
    requires Reads(cfg.yrs, item) && IsNetworkRun(cfg, item, run, acts)
    requires forall a <- acts :: a.Local? ==> SendsWork(a.e)
    requires ValidConfig(cfg.(pop := heap))
    requires c in run[|acts|].core.clients && Possible(cfg, item, PeerOf(run[|acts|], c), e)
    ensures var s, w := run[|acts|].sinks[c], cfg.(pop := heap);
            e.Runs? ==>
              (Loses(w, s, e.e) <==>
                || Overflowing(w, s, e.e)
                || (e.e.RunnerAcked? && s.queue != map[] && !SentOnce(s, heap(s.queue))))
  {
    SendsWorkingKeepPrompt(cfg, item, run, acts);
    var n := run[|acts|];
    assert Prompt(n.sinks[c]) && Paired(n);
    hide IsNetworkRun; hide SinksInv; hide AllPrompt; hide Overflowing; hide Reads;
    var s := n.sinks[c];
    if s.queue != map[] {
      assert IsTop(s.queue, heap(s.queue));
    }
  }

  /** The race at its simplest: a reconnect queues the new init between the ack and the pop, and the
      init is popped unsent. */
  lemma RaceLosesTheInit(cfg: Config, s: Sink, m: CollabMessage)
    requires ValidConfig(cfg) && s.runner == Acked
    ensures var s' := Push(s.(queue := map[]), m);
            && s.counter in s'.queue && Apply(cfg, s', RunnerAcked).queue == map[]
            && Apply(cfg, s', RunnerAcked).socket == s.socket
  {
    var s' := Push(s.(queue := map[]), m);
    assert s'.queue.Keys == {s.counter};
    assert IsTop(s'.queue, cfg.pop(s'.queue));
  }
}
