/** Many clients and one server editing one document. Every client runs the three-message handshake
    and then sends updates; the server applies them and broadcasts what became integrated to every
    subscriber except the origin. The server may evict the document's group, with all its
    subscriptions, and tells no client; an init makes a new group. Channels are FIFO; a disconnect
    empties them, and what belongs to a subscription that is gone may be lost. The client's send queue
    appears here only by what it may do: push, clear on a new handshake, merge updates into a message and
    send it, or fail to, forget a message it has sent, or lose one. */
module SyncMachine {
  import opened Common
  import opened CrdtDocument

  type ClientId = Author
  type MsgId = nat

  datatype Message = Step1(sv: StateVector) | Step2(diff: Update) | Changes(update: Update) | Presence

  /** The operations a message brings to its receiver. */
  function Effect(m: Message): set<Op> {
    match m
    case Step2(u) => u
    case Changes(u) => u
    case _ => {}
  }

  function Carried(ms: seq<Message>): set<Op> {
    if ms == [] then {} else Effect(ms[0]) + Carried(ms[1..])
  }

  // ---------------------------------------------------------------- client state

  /** What the client queues for the server. */
  datatype Item = InitSync(sv: StateVector) | ServerInit(diff: Update) | UpdateSync(update: Update)

  function Payload(item: Item): seq<Message> {
    match item
    case InitSync(sv) => [Step1(sv), Presence]
    case ServerInit(u) => [Step2(u)]
    case UpdateSync(u) => [Changes(u)]
  }

  function ItemOps(item: Item): set<Op> {
    match item
    case InitSync(_) => {}
    case ServerInit(u) => u
    case UpdateSync(u) => u
  }

  datatype Queued = Queued(item: Item, sent: bool)

  type Queue = map<MsgId, Queued>

  datatype Upstream = Upstream(id: MsgId, payload: seq<Message>)

  /** The server numbers the subscriptions it makes. */
  type SubId = nat

  /** What reaches a client, and through which subscription. */
  datatype Downstream = Ack(id: MsgId, reply: seq<Message>, sub: SubId) | Broadcast(update: Update, sub: SubId)

  /** Where the client's latest handshake stands, and which subscription answered it; a client whose
      queue lost a message after that is lossy until its next handshake. */
  datatype Phase = Offline | AwaitingReply(id: MsgId) | Synced(sub: SubId) | Lossy

  datatype Client = Client(
    doc: set<Op>,
    clock: nat,                   // how many operations this client has authored
    unqueued: seq<Update>,        // edits whose queueing task has not run yet
    queue: Queue,
    nextId: MsgId,
    phase: Phase,
    processingId: MsgId,
    processingSub: SubId,
    processing: seq<Message>,     // the accepted reply the stream task is working through
    toServer: seq<Upstream>,
    fromServer: seq<Downstream>)

  function UpstreamOps(channel: seq<Upstream>): set<Op> {
    if channel == [] then {} else Carried(channel[0].payload) + UpstreamOps(channel[1..])
  }

  function NewsIn(down: Downstream, k: SubId): set<Op> {
    if down.Broadcast? && down.sub == k then down.update else {}
  }

  /** What is broadcast to the client through one subscription. */
  function BroadcastOps(channel: seq<Downstream>, k: SubId): set<Op> {
    if channel == [] then {} else NewsIn(channel[0], k) + BroadcastOps(channel[1..], k)
  }

  function QueueOps(queue: Queue): set<Op> {
    set id, op | id in queue && op in ItemOps(queue[id].item) :: op
  }

  function UnqueuedOps(edits: seq<Update>): set<Op> {
    if edits == [] then {} else edits[0] + UnqueuedOps(edits[1..])
  }

  // ---------------------------------------------------------------- client steps

  function NewOps(c: ClientId, from: nat, n: nat): set<Op> {
    set k | from <= k < from + n :: Op(c, k)
  }

  /** A local edit changes the document at once; a spawned task queues it later. */
  function Edit(c: ClientId, cl: Client, n: nat): Client {
    var u := NewOps(c, cl.clock, n);
    cl.(doc := cl.doc + u, clock := cl.clock + n, unqueued := cl.unqueued + [u])
  }

  function Push(cl: Client, item: Item): Client {
    cl.(queue := cl.queue[cl.nextId := Queued(item, false)], nextId := cl.nextId + 1)
  }

  function QueueEdit(cl: Client, i: nat): Client
    requires i < |cl.unqueued|
  {
    Push(cl, UpdateSync(cl.unqueued[i])).(unqueued := cl.unqueued[..i] + cl.unqueued[i + 1..])
  }

  /** init_sync: drop everything queued and start a handshake with the current state vector. */
  function StartHandshake(cl: Client): Client {
    Push(cl.(queue := map[]), InitSync(StateVectorOf(cl.doc))).(phase := AwaitingReply(cl.nextId))
  }

  predicate CanAbsorb(queue: Queue, id: MsgId, absorbed: set<MsgId>) {
    && id in queue && id !in absorbed && absorbed <= queue.Keys
    && (absorbed != {} ==> queue[id].item.UpdateSync?)
    && forall a <- absorbed :: queue[a].item.UpdateSync?
  }

  function MergedItem(queue: Queue, id: MsgId, absorbed: set<MsgId>): Item
    requires CanAbsorb(queue, id, absorbed)
  {
    if absorbed == {} then queue[id].item
    else UpdateSync(queue[id].item.update + (set a, op | a in absorbed && op in queue[a].item.update :: op))
  }

  function MergeInto(queue: Queue, id: MsgId, absorbed: set<MsgId>, sent: bool): Queue
    requires CanAbsorb(queue, id, absorbed)
  {
    (queue - absorbed)[id := Queued(MergedItem(queue, id, absorbed), sent)]
  }

  function SendQueued(queue: Queue, id: MsgId, absorbed: set<MsgId>): Queue
    requires CanAbsorb(queue, id, absorbed)
  {
    MergeInto(queue, id, absorbed, true)
  }

  /** Merge some queued updates into a message and hand it to the socket; it stays queued. */
  function Send(cl: Client, id: MsgId, absorbed: set<MsgId>): Client
    requires CanAbsorb(cl.queue, id, absorbed)
  {
    cl.(queue := SendQueued(cl.queue, id, absorbed),
        toServer := cl.toServer + [Upstream(id, Payload(MergedItem(cl.queue, id, absorbed)))])
  }

  /** A send that fails after merging: the message counts as sent only if it was, and holds no more. */
  function Merge(cl: Client, id: MsgId, absorbed: set<MsgId>): Client
    requires CanAbsorb(cl.queue, id, absorbed)
  {
    var same := MergedItem(cl.queue, id, absorbed) == cl.queue[id].item;
    cl.(queue := MergeInto(cl.queue, id, absorbed, cl.queue[id].sent && same))
  }

  /** The queue forgets a message that was handed to the socket. */
  function Forget(cl: Client, id: MsgId): Client {
    cl.(queue := cl.queue - {id})
  }

  /** The queue loses a message, sent or not. A handshake that is still to be answered makes up for it. */
  function Lose(cl: Client, id: MsgId): Client {
    cl.(queue := cl.queue - {id}, phase := AfterLoss(cl.phase))
  }

  function AfterLoss(phase: Phase): Phase {
    if phase.Synced? then Lossy else phase
  }

  /** process_message: a broadcast is always applied; an ack's reply is taken up only if the queue
      accepted the ack. */
  function Receive(cl: Client, accepted: bool): Client
    requires cl.fromServer != []
  {
    var cl' := cl.(fromServer := cl.fromServer[1..]);
    match cl.fromServer[0]
    case Broadcast(u, _) => cl'.(doc := cl.doc + u)
    case Ack(id, reply, sub) =>
      if accepted then cl'.(processing := reply, processingId := id, processingSub := sub) else cl'
  }

  /** process_payload: one message of an accepted reply. Answering the server's SyncStep1 completes
      the handshake it belongs to. */
  function ProcessReply(cl: Client): Client
    requires cl.processing != []
  {
    var cl' := cl.(processing := cl.processing[1..]);
    match cl.processing[0]
    case Step1(sv) =>
      Push(cl', ServerInit(EncodeStateAsUpdate(cl.doc, sv)))
        .(phase := if cl.phase == AwaitingReply(cl.processingId) then Synced(cl.processingSub) else cl.phase)
    case m => cl'.(doc := cl.doc + Effect(m))
  }

  datatype LocalEvent =
    | DoEdit(n: nat)
    | DoQueueEdit(i: nat)
    | DoStartHandshake
    | DoSend(id: MsgId, absorbed: set<MsgId>)
    | DoMerge(id: MsgId, absorbed: set<MsgId>)
    | DoForget(id: MsgId)
    | DoLose(id: MsgId)
    | DoReceive(accepted: bool)
    | DoProcessReply

  predicate Enabled(cl: Client, e: LocalEvent) {
    match e
    case DoEdit(_) => true
    case DoQueueEdit(i) => i < |cl.unqueued|
    case DoStartHandshake => true
    case DoSend(id, absorbed) => cl.phase != Offline && CanAbsorb(cl.queue, id, absorbed)
    case DoMerge(id, absorbed) => CanAbsorb(cl.queue, id, absorbed)
    case DoForget(id) => id in cl.queue && cl.queue[id].sent
    case DoLose(id) => id in cl.queue
    case DoReceive(_) => cl.fromServer != [] && cl.processing == []
    case DoProcessReply => cl.processing != []
  }

  function LocalStep(c: ClientId, cl: Client, e: LocalEvent): Client
    requires Enabled(cl, e)
  {
    match e
    case DoEdit(n) => Edit(c, cl, n)
    case DoQueueEdit(i) => QueueEdit(cl, i)
    case DoStartHandshake => StartHandshake(cl)
    case DoSend(id, absorbed) => Send(cl, id, absorbed)
    case DoMerge(id, absorbed) => Merge(cl, id, absorbed)
    case DoForget(id) => Forget(cl, id)
    case DoLose(id) => Lose(cl, id)
    case DoReceive(accepted) => Receive(cl, accepted)
    case DoProcessReply => ProcessReply(cl)
  }

  // ---------------------------------------------------------------- the server and the system

  /** `live` says whether the document's group exists; `subs` are its subscriptions. */
  datatype System = System(
    server: set<Op>,
    live: bool,
    subs: map<ClientId, SubId>,
    nextSub: SubId,
    clients: map<ClientId, Client>)

  function ServerReply(server: set<Op>, m: Message): seq<Message> {
    match m
    case Step1(sv) => [Step2(EncodeStateAsUpdate(server, sv)), Step1(StateVectorOf(server))]
    case _ => []
  }

  /** What the document observer reports after a message was applied. */
  function News(server: set<Op>, m: Message): Update {
    Integrated(server + Effect(m)) - Integrated(server)
  }

  function Deliver(cl: Client, news: Update, k: SubId): Client {
    if news == {} then cl else cl.(fromServer := cl.fromServer + [Broadcast(news, k)])
  }

  predicate HasHead(s: System, c: ClientId) {
    c in s.clients && s.clients[c].toServer != [] && s.clients[c].toServer[0].payload != []
  }

  function HeadMessage(cl: Client): Message
    requires cl.toServer != [] && cl.toServer[0].payload != []
  {
    cl.toServer[0].payload[0]
  }

  /** The origin's next upstream message was consumed and acknowledged. */
  function Acknowledge(cl: Client, server: set<Op>, k: SubId): Client
    requires cl.toServer != [] && cl.toServer[0].payload != []
  {
    var Upstream(id, payload) := cl.toServer[0];
    cl.(toServer := (if |payload| == 1 then [] else [Upstream(id, payload[1..])]) + cl.toServer[1..],
        fromServer := cl.fromServer + [Ack(id, ServerReply(server, payload[0]), k)])
  }

  /** Without a group only an init is taken up; anything else is discarded. */
  predicate CanServe(s: System, c: ClientId) {
    HasHead(s, c) && (s.live || HeadMessage(s.clients[c]).Step1?)
  }

  /** An init makes the group if there is none and always subscribes anew; any other message keeps the
      subscription, or makes one, without a handshake. */
  function Subscribed(s: System, c: ClientId): System
    requires HasHead(s, c)
  {
    if c in s.subs && !HeadMessage(s.clients[c]).Step1? then s
    else s.(live := true, subs := s.subs[c := s.nextSub], nextSub := s.nextSub + 1)
  }

  /** The group takes up a subscriber's message: apply it, broadcast the news to the others, ack. */
  function Handle(s: System, c: ClientId): System
    requires HasHead(s, c) && c in s.subs
  {
    var m := HeadMessage(s.clients[c]);
    s.(server := s.server + Effect(m),
       clients := map d | d in s.clients ::
         if d == c then Acknowledge(s.clients[c], s.server, s.subs[c])
         else if d in s.subs then Deliver(s.clients[d], News(s.server, m), s.subs[d])
         else s.clients[d])
  }

  /** One message of client `c` reaches the server. */
  function Serve(s: System, c: ClientId): System
    requires CanServe(s, c)
  {
    Handle(Subscribed(s, c), c)
  }

  /** The connection of `c` is lost, with everything in flight. */
  function Drop(s: System, c: ClientId): System
    requires c in s.clients
  {
    s.(subs := s.subs - {c},
       clients := s.clients[c := s.clients[c].(phase := Offline, toServer := [], fromServer := [])])
  }

  /** The group is evicted: its document is stored, its subscriptions stop, no client hears of it. */
  function Evict(s: System): System {
    s.(live := false, subs := map[])
  }

  /** The client's handshake was answered by the very subscription the server still has for it. */
  predicate Attached(s: System, c: ClientId) {
    c in s.clients && c in s.subs && s.clients[c].phase == Synced(s.subs[c])
  }

  /** A message of a client that is not attached may be lost: there is no group, or it was on its way
      to a subscription that has stopped. */
  predicate CanLoseUp(s: System, c: ClientId) {
    c in s.clients && s.clients[c].toServer != [] && !Attached(s, c)
  }

  function LoseUp(s: System, c: ClientId): System
    requires CanLoseUp(s, c)
  {
    s.(clients := s.clients[c := s.clients[c].(toServer := s.clients[c].toServer[1..])])
  }

  /** What a stopped subscription still had to send may be lost. */
  predicate CanLoseDown(s: System, c: ClientId, i: nat) {
    && c in s.clients && i < |s.clients[c].fromServer|
    && (c in s.subs ==> s.subs[c] != s.clients[c].fromServer[i].sub)
  }

  function Without<T>(list: seq<T>, i: nat): seq<T>
    requires i < |list|
  {
    list[..i] + list[i + 1..]
  }

  function LoseDown(s: System, c: ClientId, i: nat): System
    requires CanLoseDown(s, c, i)
  {
    s.(clients := s.clients[c := s.clients[c].(fromServer := Without(s.clients[c].fromServer, i))])
  }

  /** What happens outside the clients: the server takes up a message, a connection is lost, the group
      is evicted, a message that nobody waits for is lost. */
  ghost predicate ServerStep(s: System, s': System) {
    || (exists c | CanServe(s, c) :: s' == Serve(s, c))
    || (exists c | c in s.clients :: s' == Drop(s, c))
    || s' == Evict(s)
    || (exists c | CanLoseUp(s, c) :: s' == LoseUp(s, c))
    || (exists c, i: nat | CanLoseDown(s, c, i) :: s' == LoseDown(s, c, i))
  }

  ghost predicate Step(s: System, s': System) {
    || (exists c, e | c in s.clients && Enabled(s.clients[c], e) ::
          s' == s.(clients := s.clients[c := LocalStep(c, s.clients[c], e)]))
    || ServerStep(s, s')
  }

  const NewClient := Client({}, 0, [], map[], 0, Offline, 0, 0, [], [], [])

  predicate Start(s: System) {
    s.server == {} && s.subs == map[] && forall c <- s.clients :: s.clients[c] == NewClient
  }

  /** A run of the system: any number of clients, any interleaving. */
  ghost predicate IsRun(run: seq<System>) {
    run != [] && Start(run[0]) && forall i | 0 < i < |run| :: Step(run[i - 1], run[i])
  }

  /** Every operation any client ever authored. */
  function AllEdits(s: System): set<Op> {
    set c, k | c in s.clients && 0 <= k < s.clients[c].clock :: Op(c, k)
  }

  predicate ClientQuiet(cl: Client) {
    cl.phase.Synced? && cl.unqueued == [] && cl.queue == map[] && cl.processing == []
    && cl.toServer == [] && cl.fromServer == []
  }

  /** Every client's latest handshake is complete and nothing is queued or in flight. */
  predicate Quiescent(s: System) {
    forall c <- s.clients :: ClientQuiet(s.clients[c])
  }

  predicate AllAttached(s: System) {
    forall c <- s.clients :: Attached(s, c)
  }

  // ---------------------------------------------------------------- the invariant

  /** A message from a client never claims more than the client has. */
  ghost predicate Honest(ms: seq<Message>, doc: set<Op>) {
    && Carried(ms) <= doc
    && forall m <- ms :: m.Step1? ==> Below(m.sv, doc)
  }

  /** A reply in flight to a client: if the client is waiting for it and it comes through the client's
      present subscription, then applying it and that subscription's broadcasts brings the client
      everything the server has integrated. */
  ghost predicate ReplyOk(server: set<Op>, sub: Option<SubId>, cl: Client, id: MsgId, reply: seq<Message>, k: SubId) {
    && Honest(reply, server)
    && id < cl.nextId
    && (forall i | 0 <= i < |reply| :: reply[i].Step1? ==> i == |reply| - 1)
    && ((exists m <- reply :: m.Step1?) && cl.phase == AwaitingReply(id) && sub == Some(k) ==>
          Integrated(server) <= cl.doc + Carried(reply) + BroadcastOps(cl.fromServer, k))
  }

  /** Documents: a client's own operations are 0..clock, everyone else's came from the server. */
  ghost predicate DocInv(server: set<Op>, c: ClientId, cl: Client) {
    && (forall op <- cl.doc :: op.author == c || op in server)
    && (forall k: nat :: Op(c, k) in cl.doc <==> k < cl.clock)
    && (forall op <- server :: op.author == c ==> op in cl.doc)
  }

  /** The outgoing side: what is queued or sent is the client's. */
  ghost predicate OutInv(cl: Client) {
    && UnqueuedOps(cl.unqueued) <= cl.doc
    && (forall id <- cl.queue :: id < cl.nextId && Honest(Payload(cl.queue[id].item), cl.doc))
    && (forall up <- cl.toServer :: up.id < cl.nextId && up.payload != [] && Honest(up.payload, cl.doc))
  }

  /** The incoming side. */
  ghost predicate InInv(server: set<Op>, sub: Option<SubId>, cl: Client) {
    && (cl.phase.AwaitingReply? ==> cl.phase.id < cl.nextId)
    && (forall down <- cl.fromServer ::
          if down.Broadcast? then down.update <= server
          else ReplyOk(server, sub, cl, down.id, down.reply, down.sub))
    && (cl.processing != [] ==> ReplyOk(server, sub, cl, cl.processingId, cl.processing, cl.processingSub))
  }

  /** Subscription numbers are given out in order. */
  ghost predicate Numbered(sub: Option<SubId>, next: SubId, cl: Client) {
    && (sub.Some? ==> sub.value < next)
    && (forall down <- cl.fromServer :: down.sub < next)
    && (cl.processing != [] ==> cl.processingSub < next)
    && (cl.phase.Synced? ==> cl.phase.sub < next)
  }

  /** The answers to the server's inits that have not been sent yet. */
  function UnsentAnswers(queue: Queue): set<Op> {
    set id, op | id in queue && !queue[id].sent && queue[id].item.ServerInit? && op in queue[id].item.diff :: op
  }

  /** While the subscription that answered the handshake lasts, nothing is missing on either side that
      is not on its way, and no queued message was sent in vain. */
  ghost predicate SyncedInv(server: set<Op>, sub: Option<SubId>, cl: Client) {
    cl.phase.Synced? && sub == Some(cl.phase.sub) ==>
      && Integrated(server) <= cl.doc + BroadcastOps(cl.fromServer, cl.phase.sub)
      && cl.doc <= server + UpstreamOps(cl.toServer) + QueueOps(cl.queue) + UnqueuedOps(cl.unqueued)
      && SentArrives(server, cl)
  }

  /** What was sent is at the server, on its way, or covered by an answer that is still to be sent. */
  ghost predicate SentArrives(server: set<Op>, cl: Client) {
    forall id <- cl.queue :: cl.queue[id].sent ==>
      ItemOps(cl.queue[id].item) <= server + UpstreamOps(cl.toServer) + UnsentAnswers(cl.queue)
  }

  ghost predicate ClientInv(server: set<Op>, sub: Option<SubId>, next: SubId, c: ClientId, cl: Client) {
    && DocInv(server, c, cl)
    && OutInv(cl)
    && InInv(server, sub, cl)
    && Numbered(sub, next, cl)
    && SyncedInv(server, sub, cl)
  }

  function SubOf(s: System, c: ClientId): Option<SubId> {
    if c in s.subs then Some(s.subs[c]) else None
  }

  ghost predicate Inv(s: System) {
    && (s.live || s.subs == map[])
    && (forall op <- s.server :: op.author in s.clients)
    && (forall c <- s.clients :: ClientInv(s.server, SubOf(s, c), s.nextSub, c, s.clients[c]))
  }

  // ---------------------------------------------------------------- channel facts

  lemma {:induction false} UpstreamAppend(channel: seq<Upstream>, up: Upstream)
    ensures UpstreamOps(channel + [up]) == UpstreamOps(channel) + Carried(up.payload)
  {
    if channel == [] {
      assert (channel + [up])[1..] == [];
    } else {
      UpstreamAppend(channel[1..], up);
      assert (channel + [up])[1..] == channel[1..] + [up];
    }
  }

  lemma {:induction false} BroadcastAppend(channel: seq<Downstream>, down: Downstream, k: SubId)
    ensures BroadcastOps(channel + [down], k) == BroadcastOps(channel, k) + NewsIn(down, k)
  {
    if channel == [] {
      assert (channel + [down])[1..] == [];
    } else {
      BroadcastAppend(channel[1..], down, k);
      assert (channel + [down])[1..] == channel[1..] + [down];
    }
  }

  /** Losing what another subscription sent costs this one nothing. */
  lemma {:induction false} BroadcastWithout(channel: seq<Downstream>, i: nat, k: SubId)
    requires i < |channel| && channel[i].sub != k
    ensures BroadcastOps(Without(channel, i), k) == BroadcastOps(channel, k)
  {
    var rest := Without(channel, i);
    if i == 0 {
      assert rest == channel[1..];
    } else {
      BroadcastWithout(channel[1..], i - 1, k);
      assert rest[0] == channel[0] && rest[1..] == Without(channel[1..], i - 1);
    }
  }

  lemma {:induction false} UnqueuedAppend(edits: seq<Update>, u: Update)
    ensures UnqueuedOps(edits + [u]) == UnqueuedOps(edits) + u
  {
    if edits == [] {
      assert (edits + [u])[1..] == [];
    } else {
      UnqueuedAppend(edits[1..], u);
      assert (edits + [u])[1..] == edits[1..] + [u];
    }
  }

  lemma {:induction false} UnqueuedRemove(edits: seq<Update>, i: nat)
    requires i < |edits|
    ensures UnqueuedOps(edits) == edits[i] + UnqueuedOps(edits[..i] + edits[i + 1..])
  {
    var rest := edits[..i] + edits[i + 1..];
    if i == 0 {
      assert rest == edits[1..];
    } else {
      UnqueuedRemove(edits[1..], i - 1);
      assert rest[1..] == edits[1..][..i - 1] + edits[1..][i..];
    }
  }

  lemma PayloadCarries(item: Item)
    ensures Carried(Payload(item)) == ItemOps(item)
  {
    if item.InitSync? {
      assert Payload(item)[1..] == [Presence];
      assert Carried([Presence]) == {};
    }
  }

  lemma QueueOpsPush(queue: Queue, id: MsgId, q: Queued)
    requires id !in queue
    ensures QueueOps(queue[id := q]) == QueueOps(queue) + ItemOps(q.item)
  {
    var queue' := queue[id := q];
    forall op | op in QueueOps(queue) ensures op in QueueOps(queue') {
      var i :| i in queue && op in ItemOps(queue[i].item);
      assert i in queue' && queue'[i] == queue[i];
    }
    forall op | op in ItemOps(q.item) ensures op in QueueOps(queue') {
      assert id in queue' && queue'[id] == q;
    }
  }

  /** Merging keeps every queued operation. */
  lemma MergeKeepsQueueOps(queue: Queue, id: MsgId, absorbed: set<MsgId>, sent: bool)
    requires CanAbsorb(queue, id, absorbed)
    ensures QueueOps(MergeInto(queue, id, absorbed, sent)) == QueueOps(queue)
  {
    var queue' := MergeInto(queue, id, absorbed, sent);
    var merged := MergedItem(queue, id, absorbed);
    assert queue'[id].item == merged;
    forall op | op in QueueOps(queue) ensures op in QueueOps(queue') {
      var i :| i in queue && op in ItemOps(queue[i].item);
      if i in absorbed || i == id {
        assert op in ItemOps(merged);
        assert op in ItemOps(queue'[id].item);
      } else {
        assert i in queue' && queue'[i] == queue[i];
      }
    }
    forall op | op in QueueOps(queue') ensures op in QueueOps(queue) {
      var i :| i in queue' && op in ItemOps(queue'[i].item);
      if i == id {
        if op !in ItemOps(queue[id].item) {
          var a :| a in absorbed && op in queue[a].item.update;
          assert a in queue && op in ItemOps(queue[a].item);
        }
      }
    }
  }

  // ---------------------------------------------------------------- every local step keeps the invariant

  lemma EditKeeps(server: set<Op>, sub: Option<SubId>, next: SubId, c: ClientId, cl: Client, n: nat)
    requires ClientInv(server, sub, next, c, cl)
    ensures ClientInv(server, sub, next, c, Edit(c, cl, n))
  {
    var u := NewOps(c, cl.clock, n);
    UnqueuedAppend(cl.unqueued, u);
  }

  lemma UnsentPush(queue: Queue, id: MsgId, item: Item)
    requires id !in queue
    ensures UnsentAnswers(queue) <= UnsentAnswers(queue[id := Queued(item, false)])
    ensures item.ServerInit? ==> item.diff <= UnsentAnswers(queue[id := Queued(item, false)])
  {
    var queue' := queue[id := Queued(item, false)];
    forall op | op in UnsentAnswers(queue) ensures op in UnsentAnswers(queue') {
      var i :| i in queue && !queue[i].sent && queue[i].item.ServerInit? && op in queue[i].item.diff;
      assert i in queue' && queue'[i] == queue[i];
    }
    assert id in queue' && queue'[id].item == item;
  }

  lemma PushKeeps(server: set<Op>, sub: Option<SubId>, next: SubId, c: ClientId, cl: Client, item: Item)
    requires ClientInv(server, sub, next, c, cl)
    requires Honest(Payload(item), cl.doc)
    ensures ClientInv(server, sub, next, c, Push(cl, item))
    ensures QueueOps(Push(cl, item).queue) == QueueOps(cl.queue) + ItemOps(item)
  {
    hide UnsentAnswers; hide QueueOps; hide UpstreamOps; hide UnqueuedOps; hide BroadcastOps; hide Integrated;
    QueueOpsPush(cl.queue, cl.nextId, Queued(item, false));
    UnsentPush(cl.queue, cl.nextId, item);
  }

  lemma QueueEditKeeps(server: set<Op>, sub: Option<SubId>, next: SubId, c: ClientId, cl: Client, i: nat)
    requires ClientInv(server, sub, next, c, cl) && i < |cl.unqueued|
    ensures ClientInv(server, sub, next, c, QueueEdit(cl, i))
  {
    hide UnsentAnswers; hide QueueOps; hide UpstreamOps; hide BroadcastOps; hide Integrated;
    var u := cl.unqueued[i];
    UnqueuedRemove(cl.unqueued, i);
    PayloadCarries(UpdateSync(u));
    PushKeeps(server, sub, next, c, cl, UpdateSync(u));
  }

  lemma StartHandshakeKeeps(server: set<Op>, sub: Option<SubId>, next: SubId, c: ClientId, cl: Client)
    requires ClientInv(server, sub, next, c, cl)
    ensures ClientInv(server, sub, next, c, StartHandshake(cl))
  {
    StateVectorBelow(cl.doc);
    PayloadCarries(InitSync(StateVectorOf(cl.doc)));
  }

  /** Sending an answer moves it from the queue's unsent part to the channel. */
  lemma UnsentSend(queue: Queue, id: MsgId, absorbed: set<MsgId>)
    requires CanAbsorb(queue, id, absorbed)
    ensures UnsentAnswers(queue) <= UnsentAnswers(SendQueued(queue, id, absorbed))
        + ItemOps(MergedItem(queue, id, absorbed))
  {
    var queue' := SendQueued(queue, id, absorbed);
    forall op | op in UnsentAnswers(queue)
      ensures op in UnsentAnswers(queue') + ItemOps(MergedItem(queue, id, absorbed))
    {
      var i :| i in queue && !queue[i].sent && queue[i].item.ServerInit? && op in queue[i].item.diff;
      assert i != id ==> i in queue' && queue'[i] == queue[i];
    }
  }

  /** A queued message is only merged from queued ones. */
  lemma MergedOps(queue: Queue, id: MsgId, absorbed: set<MsgId>)
    requires CanAbsorb(queue, id, absorbed)
    ensures ItemOps(MergedItem(queue, id, absorbed)) <= QueueOps(queue)
  {
    MergeKeepsQueueOps(queue, id, absorbed, true);
    assert id in SendQueued(queue, id, absorbed);
  }

  lemma SendOut(cl: Client, id: MsgId, absorbed: set<MsgId>)
    requires OutInv(cl) && CanAbsorb(cl.queue, id, absorbed)
    ensures OutInv(Send(cl, id, absorbed))
  {
    hide QueueOps; hide UnqueuedOps;
    PayloadCarries(MergedItem(cl.queue, id, absorbed));
    MergedOps(cl.queue, id, absorbed);
    QueueIsOwn(cl);
  }

  lemma SendSynced(server: set<Op>, sub: Option<SubId>, cl: Client, id: MsgId, absorbed: set<MsgId>)
    requires SyncedInv(server, sub, cl) && CanAbsorb(cl.queue, id, absorbed)
    ensures SyncedInv(server, sub, Send(cl, id, absorbed))
  {
    hide UnsentAnswers; hide BroadcastOps; hide Integrated; hide UnqueuedOps; hide UpstreamOps; hide QueueOps;
    hide Payload; hide MergedItem;
    var merged := MergedItem(cl.queue, id, absorbed);
    PayloadCarries(merged);
    UpstreamAppend(cl.toServer, Upstream(id, Payload(merged)));
    MergeKeepsQueueOps(cl.queue, id, absorbed, true);
    UnsentSend(cl.queue, id, absorbed);
  }

  lemma SendKeeps(server: set<Op>, sub: Option<SubId>, next: SubId, c: ClientId, cl: Client, id: MsgId,
                  absorbed: set<MsgId>)
    requires ClientInv(server, sub, next, c, cl) && CanAbsorb(cl.queue, id, absorbed)
    ensures ClientInv(server, sub, next, c, Send(cl, id, absorbed))
  {
    hide OutInv; hide SyncedInv; hide Integrated; hide BroadcastOps; hide SendQueued; hide MergedItem;
    SendOut(cl, id, absorbed);
    SendSynced(server, sub, cl, id, absorbed);
  }

  lemma MergeSynced(server: set<Op>, sub: Option<SubId>, cl: Client, id: MsgId, absorbed: set<MsgId>)
    requires SyncedInv(server, sub, cl) && CanAbsorb(cl.queue, id, absorbed)
    ensures SyncedInv(server, sub, Merge(cl, id, absorbed))
  {
    hide BroadcastOps; hide Integrated; hide UnqueuedOps; hide UpstreamOps; hide QueueOps;
    var queue' := Merge(cl, id, absorbed).queue;
    MergeKeepsQueueOps(cl.queue, id, absorbed, queue'[id].sent);
    forall op | op in UnsentAnswers(cl.queue) ensures op in UnsentAnswers(queue') {
      var i :| i in cl.queue && !cl.queue[i].sent && cl.queue[i].item.ServerInit? && op in cl.queue[i].item.diff;
      assert i in queue' && queue'[i] == cl.queue[i];
    }
  }

  lemma MergeKeeps(server: set<Op>, sub: Option<SubId>, next: SubId, c: ClientId, cl: Client,
                   id: MsgId, absorbed: set<MsgId>)
    requires ClientInv(server, sub, next, c, cl) && CanAbsorb(cl.queue, id, absorbed)
    ensures ClientInv(server, sub, next, c, Merge(cl, id, absorbed))
  {
    hide SyncedInv; hide Integrated; hide BroadcastOps; hide MergedItem; hide QueueOps;
    SendOut(cl, id, absorbed);
    MergeSynced(server, sub, cl, id, absorbed);
  }

  /** What is queued is in the client's document. */
  lemma QueueIsOwn(cl: Client)
    requires OutInv(cl)
    ensures QueueOps(cl.queue) <= cl.doc
    ensures forall id <- cl.queue :: cl.queue[id].item.InitSync? ==> Below(cl.queue[id].item.sv, cl.doc)
  {
    forall i | i in cl.queue
      ensures ItemOps(cl.queue[i].item) <= cl.doc
      ensures cl.queue[i].item.InitSync? ==> Below(cl.queue[i].item.sv, cl.doc)
    {
      PayloadCarries(cl.queue[i].item);
      assert cl.queue[i].item.InitSync? ==> Payload(cl.queue[i].item)[0] in Payload(cl.queue[i].item);
    }
  }

  /** A sent message can be forgotten: it arrives, or an unsent answer has it. */
  lemma ForgetKeeps(server: set<Op>, sub: Option<SubId>, next: SubId, c: ClientId, cl: Client, id: MsgId)
    requires ClientInv(server, sub, next, c, cl) && id in cl.queue && cl.queue[id].sent
    ensures ClientInv(server, sub, next, c, Forget(cl, id))
  {
    hide BroadcastOps; hide Integrated; hide UnqueuedOps; hide UpstreamOps;
    var cl' := Forget(cl, id);
    forall op | op in QueueOps(cl.queue) ensures op in QueueOps(cl'.queue) || op in ItemOps(cl.queue[id].item) {
      var i :| i in cl.queue && op in ItemOps(cl.queue[i].item);
      assert i != id ==> i in cl'.queue;
    }
    forall op | op in UnsentAnswers(cl.queue) ensures op in UnsentAnswers(cl'.queue) && op in QueueOps(cl'.queue) {
      var i :| i in cl.queue && !cl.queue[i].sent && cl.queue[i].item.ServerInit? && op in cl.queue[i].item.diff;
      assert i in cl'.queue && cl'.queue[i] == cl.queue[i] && op in ItemOps(cl'.queue[i].item);
    }
  }

  /** After a loss nothing is promised until a handshake is answered. */
  lemma LoseKeeps(server: set<Op>, sub: Option<SubId>, next: SubId, c: ClientId, cl: Client, id: MsgId)
    requires ClientInv(server, sub, next, c, cl) && id in cl.queue
    ensures ClientInv(server, sub, next, c, Lose(cl, id))
  {
    hide BroadcastOps; hide Integrated; hide UnqueuedOps; hide UpstreamOps; hide UnsentAnswers; hide QueueOps;
  }

  lemma ReceiveKeeps(server: set<Op>, sub: Option<SubId>, next: SubId, c: ClientId, cl: Client, accepted: bool)
    requires ClientInv(server, sub, next, c, cl) && cl.fromServer != [] && cl.processing == []
    ensures ClientInv(server, sub, next, c, Receive(cl, accepted))
  {
    hide UnsentAnswers; hide QueueOps; hide Integrated; hide UnqueuedOps; hide UpstreamOps;
  }

  lemma ProcessReplyKeeps(server: set<Op>, sub: Option<SubId>, next: SubId, c: ClientId, cl: Client)
    requires ClientInv(server, sub, next, c, cl) && cl.processing != []
    ensures ClientInv(server, sub, next, c, ProcessReply(cl))
  {
    if cl.processing[0].Step1? {
      AnswerKeeps(server, sub, next, c, cl);
    } else {
      ApplyKeeps(server, sub, next, c, cl);
    }
  }

  lemma ApplyKeeps(server: set<Op>, sub: Option<SubId>, next: SubId, c: ClientId, cl: Client)
    requires ClientInv(server, sub, next, c, cl) && cl.processing != [] && !cl.processing[0].Step1?
    ensures ClientInv(server, sub, next, c, ProcessReply(cl))
  {
    hide UnsentAnswers; hide QueueOps; hide Integrated; hide UnqueuedOps; hide UpstreamOps; hide BroadcastOps;
    assert Carried(cl.processing) == Effect(cl.processing[0]) + Carried(cl.processing[1..]);
  }

  /** Answering the server's SyncStep1: the queued answer covers whatever the server still lacks, even
      what was sent and lost before. */
  lemma AnswerKeeps(server: set<Op>, sub: Option<SubId>, next: SubId, c: ClientId, cl: Client)
    requires ClientInv(server, sub, next, c, cl) && cl.processing != [] && cl.processing[0].Step1?
    ensures ClientInv(server, sub, next, c, ProcessReply(cl))
  {
    hide UnsentAnswers; hide QueueOps; hide Integrated; hide UnqueuedOps; hide UpstreamOps; hide BroadcastOps;
    hide EncodeStateAsUpdate; hide StateVectorOf;
    var m := cl.processing[0];
    var cl1 := cl.(processing := cl.processing[1..]);
    assert Carried(cl.processing) == Effect(m) + Carried(cl1.processing) && cl1.processing == [];
    var item := ServerInit(EncodeStateAsUpdate(cl.doc, m.sv));
    EncodeCovers(cl.doc, m.sv, server);
    PayloadCarries(item);
    PushKeeps(server, sub, next, c, cl1, item);
    UnsentPush(cl.queue, cl.nextId, item);
    QueueIsOwn(cl);
    assert Push(cl1, item).queue == cl.queue[cl.nextId := Queued(item, false)];
    forall id <- cl.queue ensures ItemOps(cl.queue[id].item) <= cl.doc {
      PayloadCarries(cl.queue[id].item);
    }
  }

  lemma LocalStepKeeps(server: set<Op>, sub: Option<SubId>, next: SubId, c: ClientId, cl: Client, e: LocalEvent)
    requires ClientInv(server, sub, next, c, cl) && Enabled(cl, e)
    ensures ClientInv(server, sub, next, c, LocalStep(c, cl, e))
  {
    hide ClientInv;
    match e
    case DoEdit(n) => EditKeeps(server, sub, next, c, cl, n);
    case DoQueueEdit(i) => QueueEditKeeps(server, sub, next, c, cl, i);
    case DoStartHandshake => StartHandshakeKeeps(server, sub, next, c, cl);
    case DoSend(id, absorbed) => SendKeeps(server, sub, next, c, cl, id, absorbed);
    case DoMerge(id, absorbed) => MergeKeeps(server, sub, next, c, cl, id, absorbed);
    case DoForget(id) => ForgetKeeps(server, sub, next, c, cl, id);
    case DoLose(id) => LoseKeeps(server, sub, next, c, cl, id);
    case DoReceive(accepted) => ReceiveKeeps(server, sub, next, c, cl, accepted);
    case DoProcessReply => ProcessReplyKeeps(server, sub, next, c, cl);
  }

  // ---------------------------------------------------------------- subscriptions come and go

  /** A client without a subscription, or with a brand-new one, has nothing that depends on it. */
  lemma SubscriptionChanges(server: set<Op>, sub: Option<SubId>, next: SubId, c: ClientId, cl: Client,
                            sub': Option<SubId>, next': SubId)
    requires ClientInv(server, sub, next, c, cl) && next <= next'
    requires sub' == None || sub' == sub || (sub' == Some(next) && next < next')
    ensures ClientInv(server, sub', next', c, cl)
  {
    hide UnsentAnswers; hide QueueOps; hide Integrated; hide UnqueuedOps; hide UpstreamOps; hide BroadcastOps;
  }

  lemma SubscribedKeeps(s: System, c: ClientId)
    requires Inv(s) && HasHead(s, c)
    ensures Inv(Subscribed(s, c)) && c in Subscribed(s, c).subs
  {
    hide ClientInv;
    var s' := Subscribed(s, c);
    forall d <- s'.clients ensures ClientInv(s'.server, SubOf(s', d), s'.nextSub, d, s'.clients[d]) {
      SubscriptionChanges(s.server, SubOf(s, d), s.nextSub, d, s.clients[d], SubOf(s', d), s'.nextSub);
    }
  }

  lemma EvictKeeps(s: System)
    requires Inv(s)
    ensures Inv(Evict(s))
  {
    hide ClientInv;
    forall d <- s.clients ensures ClientInv(s.server, None, s.nextSub, d, s.clients[d]) {
      SubscriptionChanges(s.server, SubOf(s, d), s.nextSub, d, s.clients[d], None, s.nextSub);
    }
  }

  lemma DropKeeps(s: System, c: ClientId)
    requires Inv(s) && c in s.clients
    ensures Inv(Drop(s, c))
  {
    var s' := Drop(s, c);
    assert ClientInv(s.server, SubOf(s, c), s.nextSub, c, s.clients[c]);
    assert ClientInv(s'.server, SubOf(s', c), s'.nextSub, c, s'.clients[c]);
    hide ClientInv;
    assert forall d <- s.clients :: d != c ==> SubOf(s', d) == SubOf(s, d);
  }

  /** A message that is lost was promised to nobody. */
  lemma LoseUpKeeps(s: System, c: ClientId)
    requires Inv(s) && CanLoseUp(s, c)
    ensures Inv(LoseUp(s, c))
  {
    var s' := LoseUp(s, c);
    assert ClientInv(s.server, SubOf(s, c), s.nextSub, c, s.clients[c]);
    assert ClientInv(s'.server, SubOf(s', c), s'.nextSub, c, s'.clients[c]);
    hide ClientInv;
    assert forall d <- s.clients :: d != c ==> SubOf(s', d) == SubOf(s, d);
  }

  lemma LoseDownKeepsClient(server: set<Op>, sub: Option<SubId>, next: SubId, c: ClientId, cl: Client, i: nat)
    requires ClientInv(server, sub, next, c, cl) && i < |cl.fromServer| && sub != Some(cl.fromServer[i].sub)
    ensures ClientInv(server, sub, next, c, cl.(fromServer := Without(cl.fromServer, i)))
  {
    hide UnsentAnswers; hide QueueOps; hide Integrated; hide UnqueuedOps; hide UpstreamOps; hide BroadcastOps;
    if sub.Some? { BroadcastWithout(cl.fromServer, i, sub.value); }
  }

  lemma LoseDownKeeps(s: System, c: ClientId, i: nat)
    requires Inv(s) && CanLoseDown(s, c, i)
    ensures Inv(LoseDown(s, c, i))
  {
    hide ClientInv;
    var s' := LoseDown(s, c, i);
    LoseDownKeepsClient(s.server, SubOf(s, c), s.nextSub, c, s.clients[c], i);
    assert forall d <- s.clients :: SubOf(s', d) == SubOf(s, d);
  }

  // ---------------------------------------------------------------- server steps keep the invariant

  /** A reply in flight stays good while the server grows by what is delivered to its subscribers. */
  lemma ReplyStaysOk(server: set<Op>, sub: Option<SubId>, cl: Client, m: Message, id: MsgId, reply: seq<Message>,
                     k: SubId)
    requires ReplyOk(server, sub, cl, id, reply, k)
    ensures ReplyOk(server + Effect(m), sub, Delivered(cl, server, m, sub), id, reply, k)
  {
    hide Integrated; hide Carried; hide Effect; hide BroadcastOps;
    BroadcastAppend(cl.fromServer, Broadcast(News(server, m), k), k);
  }

  /** What a client that is not the origin gets. */
  function Delivered(cl: Client, server: set<Op>, m: Message, sub: Option<SubId>): Client {
    if sub.Some? then Deliver(cl, News(server, m), sub.value) else cl
  }

  lemma OtherIn(server: set<Op>, sub: Option<SubId>, cl: Client, m: Message)
    requires InInv(server, sub, cl)
    ensures InInv(server + Effect(m), sub, Delivered(cl, server, m, sub))
  {
    hide ReplyOk; hide Effect; hide BroadcastOps;
    assert News(server, m) <= server + Effect(m);
    hide News;
    forall down <- cl.fromServer | down.Ack? {
      ReplyStaysOk(server, sub, cl, m, down.id, down.reply, down.sub);
    }
    if cl.processing != [] {
      ReplyStaysOk(server, sub, cl, m, cl.processingId, cl.processing, cl.processingSub);
    }
  }

  lemma OtherSynced(server: set<Op>, sub: Option<SubId>, cl: Client, m: Message)
    requires SyncedInv(server, sub, cl)
    ensures SyncedInv(server + Effect(m), sub, Delivered(cl, server, m, sub))
  {
    hide Integrated; hide BroadcastOps; hide UpstreamOps; hide UnqueuedOps; hide QueueOps; hide Effect;
    hide UnsentAnswers;
    if sub.Some? { BroadcastAppend(cl.fromServer, Broadcast(News(server, m), sub.value), sub.value); }
  }

  /** A client that is not the origin gets the news if it is subscribed. */
  lemma OtherKeeps(server: set<Op>, sub: Option<SubId>, next: SubId, d: ClientId, cl: Client, m: Message)
    requires ClientInv(server, sub, next, d, cl)
    requires forall op <- Effect(m) :: op.author == d ==> op in server
    ensures ClientInv(server + Effect(m), sub, next, d, Delivered(cl, server, m, sub))
  {
    hide InInv; hide SyncedInv; hide Effect; hide News;
    OtherIn(server, sub, cl, m);
    OtherSynced(server, sub, cl, m);
  }

  /** The origin of a message already has everything its message made the server integrate. */
  lemma NewsIsKnownToOrigin(server: set<Op>, c: ClientId, cl: Client, m: Message)
    requires DocInv(server, c, cl) && Effect(m) <= cl.doc
    ensures News(server, m) <= cl.doc
  {
    var server' := server + Effect(m);
    forall op | op in News(server, m) ensures op in cl.doc {
      if op !in Effect(m) {
        IntegratedMeaning(server, op);
        IntegratedMeaning(server', op);
        var k: nat :| k <= op.clock && Op(op.author, k) !in server;
        assert Op(op.author, k) in Effect(m);
      }
    }
  }

  lemma ReplyCovers(server: set<Op>, doc: set<Op>, m: Message)
    requires Honest([m], doc)
    ensures var reply := ServerReply(server, m);
            && Honest(reply, server)
            && (forall i | 0 <= i < |reply| :: reply[i].Step1? ==> i == |reply| - 1)
            && (reply != [] ==> server <= doc + Carried(reply))
  {
    if m.Step1? {
      assert m in [m];
      EncodeCovers(server, m.sv, doc);
      StateVectorBelow(server);
      assert ServerReply(server, m)[1..] == [Step1(StateVectorOf(server))];
      assert Carried([Step1(StateVectorOf(server))]) == {};
    }
  }

  /** The reply to a handshake is exact: it brings what the server has and the client has not integrated,
      nothing else, and counts what the server has integrated; nothing else is replied to. */
  lemma ReplyIsExact(server: set<Op>, doc: set<Op>, m: Message)
    ensures !m.Step1? ==> ServerReply(server, m) == []
    ensures m.Step1? && Counts(m.sv, doc) ==>
              var reply := ServerReply(server, m);
              && |reply| == 2 && reply[0] == Step2(server - Integrated(doc))
              && reply[1].Step1? && Counts(reply[1].sv, server)
  {
    hide Counts; hide EncodeStateAsUpdate; hide StateVectorOf; hide Integrated;
    StateVectorCounts(server);
    if m.Step1? && Counts(m.sv, doc) { DifferenceIsRest(server, m.sv, doc); }
  }

  /** An init replaces the queue and counts what the client has integrated. */
  lemma InitIsExact(cl: Client)
    ensures var cl' := StartHandshake(cl);
            && cl'.queue.Keys == {cl.nextId} && cl'.queue[cl.nextId].item.InitSync? && !cl'.queue[cl.nextId].sent
            && Counts(cl'.queue[cl.nextId].item.sv, cl.doc)
            && cl' == cl.(queue := cl'.queue, nextId := cl.nextId + 1, phase := AwaitingReply(cl.nextId))
  {
    hide Counts; hide StateVectorOf;
    StateVectorCounts(cl.doc);
  }

  /** The answer to the server's state vector is exact too, and it completes the handshake that the reply
      belongs to; every other message of a reply is applied and queues nothing. */
  lemma AnswerIsExact(cl: Client, server: set<Op>)
    requires cl.processing != []
    ensures var m, cl' := cl.processing[0], ProcessReply(cl);
            && cl'.processing == cl.processing[1..]
            && (m.Step1? && Counts(m.sv, server) ==>
                  cl' == cl.(queue := cl.queue[cl.nextId := Queued(ServerInit(cl.doc - Integrated(server)), false)],
                             nextId := cl.nextId + 1, processing := cl'.processing, phase := cl'.phase))
            && (m.Step1? ==>
                  cl'.phase == if cl.phase == AwaitingReply(cl.processingId) then Synced(cl.processingSub)
                               else cl.phase)
            && (!m.Step1? ==>
                  cl' == cl.(processing := cl'.processing,
                             doc := cl.doc + if m.Step2? then m.diff else if m.Changes? then m.update else {}))
  {
    hide Counts; hide EncodeStateAsUpdate; hide Integrated;
    var m := cl.processing[0];
    if m.Step1? && Counts(m.sv, server) { DifferenceIsRest(cl.doc, m.sv, server); }
  }

  /** Who hears what when a subscriber's message is taken up: the origin its ack and nothing else, every
      other subscriber what the message made the server integrate, if anything, and nobody else. */
  lemma OnlyOthersHear(s: System, c: ClientId)
    requires HasHead(s, c) && c in s.subs
    ensures var m, s' := HeadMessage(s.clients[c]), Handle(s, c);
            var heard := Integrated(s'.server) - Integrated(s.server);
            && s' == s.(server := s.server + Effect(m), clients := s'.clients) && s'.clients.Keys == s.clients.Keys
            && s'.clients[c] ==
                 s.clients[c].(toServer := s'.clients[c].toServer,
                               fromServer := s.clients[c].fromServer
                                 + [Ack(s.clients[c].toServer[0].id, ServerReply(s.server, m), s.subs[c])])
            && forall d <- s.clients | d != c ::
                 s'.clients[d] ==
                   if d in s.subs && heard != {} then
                     s.clients[d].(fromServer := s.clients[d].fromServer + [Broadcast(heard, s.subs[d])])
                   else s.clients[d]
  {
    hide Integrated; hide ServerReply;
  }

  /** A broadcast is applied, an accepted ack starts its reply, and any other ack leaves no trace. */
  lemma ReceiveMeaning(cl: Client, accepted: bool)
    requires cl.fromServer != []
    ensures var down, cl' := cl.fromServer[0], Receive(cl, accepted);
            && (down.Broadcast? ==> cl' == cl.(doc := cl.doc + down.update, fromServer := cl.fromServer[1..]))
            && (down.Ack? && !accepted ==> cl' == cl.(fromServer := cl.fromServer[1..]))
            && (down.Ack? && accepted ==>
                  cl' == cl.(fromServer := cl.fromServer[1..], processing := down.reply, processingId := down.id,
                             processingSub := down.sub))
  {
  }

  /** A lost connection ends the subscription and empties the channels; what the client has stays. */
  lemma DropMeaning(s: System, c: ClientId)
    requires c in s.clients
    ensures var s' := Drop(s, c);
            && s' == s.(subs := s'.subs, clients := s'.clients)
            && s'.subs == s.subs - {c} && s'.clients.Keys == s.clients.Keys
            && s'.clients[c] == s.clients[c].(phase := Offline, toServer := [], fromServer := [])
            && forall d <- s.clients | d != c :: s'.clients[d] == s.clients[d]
  {
  }

  /** An edit extends the document by the client's next operations and waits, as one update, to be queued. */
  lemma EditMeaning(c: ClientId, cl: Client, n: nat)
    ensures var cl' := LocalStep(c, cl, DoEdit(n));
            && |cl'.unqueued| == |cl.unqueued| + 1
            && var u := cl'.unqueued[|cl.unqueued|];
               && cl' == cl.(doc := cl.doc + u, clock := cl.clock + n, unqueued := cl.unqueued + [u])
               && forall op :: op in u <==> op.author == c && cl.clock <= op.clock < cl.clock + n
  {
    assert forall k :: k in NewOps(c, cl.clock, n) <==> k.author == c && cl.clock <= k.clock < cl.clock + n;
  }

  /** Queueing an edit moves it from the edits that wait into the queue, unsent and under the next id. */
  lemma QueueEditMeaning(c: ClientId, cl: Client, i: nat)
    requires i < |cl.unqueued|
    ensures var cl' := LocalStep(c, cl, DoQueueEdit(i));
            && multiset(cl'.unqueued) + multiset{cl.unqueued[i]} == multiset(cl.unqueued)
            && cl' == cl.(queue := cl.queue[cl.nextId := Queued(UpdateSync(cl.unqueued[i]), false)],
                          nextId := cl.nextId + 1, unqueued := cl'.unqueued)
  {
    assert cl.unqueued == cl.unqueued[..i] + [cl.unqueued[i]] + cl.unqueued[i + 1..];
  }

  /** A merge, be it followed by a send or not, takes the absorbed messages out of the queue and into the one
      that is sent, and touches no other; a send gives the socket just that message. */
  lemma SendMeaning(c: ClientId, cl: Client, id: MsgId, absorbed: set<MsgId>)
    requires CanAbsorb(cl.queue, id, absorbed)
    ensures cl.phase != Offline ==>
              var cl' := LocalStep(c, cl, DoSend(id, absorbed));
              && Merged(cl.queue, cl'.queue, id, absorbed) && cl'.queue[id].sent
              && cl' == cl.(queue := cl'.queue,
                            toServer := cl.toServer + [Upstream(id, Payload(cl'.queue[id].item))])
    ensures var cl' := LocalStep(c, cl, DoMerge(id, absorbed));
            && Merged(cl.queue, cl'.queue, id, absorbed) && cl' == cl.(queue := cl'.queue)
            && (cl'.queue[id].sent <==> cl.queue[id].sent && cl'.queue[id].item == cl.queue[id].item)
  {
    var q := MergeInto(cl.queue, id, absorbed, true)[id].item;
    assert absorbed == {} ==> q == cl.queue[id].item;
    assert forall op :: op in ItemOps(q) <==>
                          op in ItemOps(cl.queue[id].item) || exists a <- absorbed :: op in ItemOps(cl.queue[a].item);
  }

  /** The absorbed messages are gone and everything they held is in the message `id`; the others are as they
      were. */
  ghost predicate Merged(queue: Queue, queue': Queue, id: MsgId, absorbed: set<MsgId>) {
    && id in queue && id in queue' && absorbed <= queue.Keys && queue'.Keys == queue.Keys - absorbed
    && (forall m <- queue' | m != id :: queue'[m] == queue[m])
    && (absorbed == {} ==> queue'[id].item == queue[id].item)
    && (absorbed != {} ==> queue'[id].item.UpdateSync?)
    && (forall op :: op in ItemOps(queue'[id].item) <==>
          op in ItemOps(queue[id].item) || exists a <- absorbed :: op in ItemOps(queue[a].item))
  }

  /** Forgetting and losing a message take that one out of the queue; only a loss undoes a complete handshake.
      The other steps of a client are those described above. */
  lemma OtherStepsMeaning(c: ClientId, cl: Client, e: LocalEvent)
    requires Enabled(cl, e)
    ensures e.DoForget? ==> cl.queue[e.id].sent && LocalStep(c, cl, e) == cl.(queue := cl.queue - {e.id})
    ensures e.DoLose? ==>
              LocalStep(c, cl, e) ==
              cl.(queue := cl.queue - {e.id}, phase := if cl.phase.Synced? then Lossy else cl.phase)
    ensures e.DoStartHandshake? ==> LocalStep(c, cl, e) == StartHandshake(cl)
    ensures e.DoReceive? ==> LocalStep(c, cl, e) == Receive(cl, e.accepted)
    ensures e.DoProcessReply? ==> LocalStep(c, cl, e) == ProcessReply(cl)
    ensures e.DoSend? ==> cl.phase != Offline
  {
  }

  /** An eviction ends the group and every subscription and reaches no client; a message lost on the way up is
      the oldest of a client that is not attached, and one lost on the way down any that came through a
      subscription the server no longer has for the client. */
  lemma LossMeaning(s: System, c: ClientId, i: nat)
    ensures Evict(s) == s.(live := false, subs := map[])
    ensures CanLoseUp(s, c) ==>
              && (c !in s.subs || s.clients[c].phase != Synced(s.subs[c]))
              && var s', first := LoseUp(s, c), s.clients[c].toServer[0];
                 && s'.clients.Keys == s.clients.Keys && [first] + s'.clients[c].toServer == s.clients[c].toServer
                 && s' == s.(clients := s.clients[c := s.clients[c].(toServer := s'.clients[c].toServer)])
    ensures CanLoseDown(s, c, i) ==>
              var s', down := LoseDown(s, c, i), s.clients[c].fromServer[i];
              && (c !in s.subs || down.sub != s.subs[c]) && s'.clients.Keys == s.clients.Keys
              && s'.clients[c].fromServer == s.clients[c].fromServer[..i] + s.clients[c].fromServer[i + 1..]
              && s' == s.(clients := s.clients[c := s.clients[c].(fromServer := s'.clients[c].fromServer)])
  {
  }

  lemma HeadConsumed(cl: Client, server: set<Op>, k: SubId)
    requires cl.toServer != [] && cl.toServer[0].payload != []
    ensures var rest := Acknowledge(cl, server, k).toServer;
            && UpstreamOps(cl.toServer) == Effect(HeadMessage(cl)) + UpstreamOps(rest)
            && (forall up <- rest :: up in cl.toServer
                 || (up.id == cl.toServer[0].id && up.payload == cl.toServer[0].payload[1..]))
  {
    var Upstream(id, payload) := cl.toServer[0];
    var rest := Acknowledge(cl, server, k).toServer;
    if |payload| == 1 {
      assert rest == cl.toServer[1..] && Carried(payload[1..]) == {};
    } else {
      assert rest[1..] == cl.toServer[1..];
    }
  }

  lemma OriginOut(server: set<Op>, cl: Client, k: SubId)
    requires OutInv(cl) && cl.toServer != [] && cl.toServer[0].payload != []
    ensures OutInv(Acknowledge(cl, server, k))
    ensures cl.toServer[0].id < cl.nextId && Honest([HeadMessage(cl)], cl.doc) && Effect(HeadMessage(cl)) <= cl.doc
  {
    var payload := cl.toServer[0].payload;
    HeadConsumed(cl, server, k);
    assert cl.toServer[0] in cl.toServer && payload[0] in payload;
    assert Carried(payload) == Effect(payload[0]) + Carried(payload[1..]);
    assert forall m <- payload[1..] :: m in payload;
    assert Carried([payload[0]]) == Effect(payload[0]) + Carried([]);
  }

  lemma OriginIn(server: set<Op>, c: ClientId, cl: Client, k: SubId)
    requires DocInv(server, c, cl) && InInv(server, Some(k), cl) && OutInv(cl)
    requires cl.toServer != [] && cl.toServer[0].payload != []
    requires Integrated(server + Effect(HeadMessage(cl))) <= Integrated(server) + cl.doc
    ensures InInv(server + Effect(HeadMessage(cl)), Some(k), Acknowledge(cl, server, k))
  {
    hide OutInv; hide BroadcastOps; hide EncodeStateAsUpdate; hide StateVectorOf;
    var m, cl' := HeadMessage(cl), Acknowledge(cl, server, k);
    var ack := Ack(cl.toServer[0].id, ServerReply(server, m), k);
    OriginOut(server, cl, k);
    BroadcastAppend(cl.fromServer, ack, k);
    ReplyCovers(server, cl.doc, m);
    assert ReplyOk(server + Effect(m), Some(k), cl', ack.id, ack.reply, k) by {
      assert Integrated(server + Effect(m)) <= server + cl.doc;
    }
    hide Integrated; hide ServerReply;
    assert forall down <- cl'.fromServer :: down in cl.fromServer || down == ack;
  }

  lemma OriginSynced(server: set<Op>, cl: Client, k: SubId)
    requires SyncedInv(server, Some(k), cl) && cl.toServer != [] && cl.toServer[0].payload != []
    requires Integrated(server + Effect(HeadMessage(cl))) <= Integrated(server) + cl.doc
    ensures SyncedInv(server + Effect(HeadMessage(cl)), Some(k), Acknowledge(cl, server, k))
  {
    hide Integrated; hide BroadcastOps; hide UpstreamOps; hide UnqueuedOps; hide QueueOps; hide Effect;
    hide UnsentAnswers;
    HeadConsumed(cl, server, k);
    BroadcastAppend(cl.fromServer, Ack(cl.toServer[0].id, ServerReply(server, HeadMessage(cl)), k), k);
  }

  lemma OriginKeeps(server: set<Op>, next: SubId, c: ClientId, cl: Client, k: SubId)
    requires ClientInv(server, Some(k), next, c, cl)
    requires cl.toServer != [] && cl.toServer[0].payload != []
    ensures ClientInv(server + Effect(HeadMessage(cl)), Some(k), next, c, Acknowledge(cl, server, k))
  {
    hide InInv; hide SyncedInv; hide OutInv; hide ServerReply;
    var m := HeadMessage(cl);
    OriginOut(server, cl, k);
    NewsIsKnownToOrigin(server, c, cl, m);
    assert Integrated(server + Effect(m)) <= Integrated(server) + cl.doc;
    OriginIn(server, c, cl, k);
    OriginSynced(server, cl, k);
  }

  // ---------------------------------------------------------------- whole runs

  /** What a client sends holds only its own operations or what the server has. */
  lemma SentIsHonest(server: set<Op>, sub: Option<SubId>, next: SubId, c: ClientId, cl: Client)
    requires ClientInv(server, sub, next, c, cl) && cl.toServer != [] && cl.toServer[0].payload != []
    ensures forall op <- Effect(HeadMessage(cl)) :: op.author == c || op in server
  {
    OriginOut(server, cl, 0);
  }

  lemma HandleKeeps(s: System, c: ClientId)
    requires Inv(s) && HasHead(s, c) && c in s.subs
    ensures Inv(Handle(s, c))
  {
    hide ClientInv; hide Acknowledge; hide Deliver; hide News;
    var s' := Handle(s, c);
    var cl := s.clients[c];
    SentIsHonest(s.server, SubOf(s, c), s.nextSub, c, cl);
    forall d | d in s'.clients
      ensures ClientInv(s'.server, SubOf(s', d), s'.nextSub, d, s'.clients[d])
    {
      if d == c {
        OriginKeeps(s.server, s.nextSub, c, cl, s.subs[c]);
      } else {
        OtherKeeps(s.server, SubOf(s, d), s.nextSub, d, s.clients[d], HeadMessage(cl));
      }
    }
  }

  lemma ServeKeeps(s: System, c: ClientId)
    requires Inv(s) && CanServe(s, c)
    ensures Inv(Serve(s, c))
  {
    SubscribedKeeps(s, c);
    hide Inv; hide Handle;
    HandleKeeps(Subscribed(s, c), c);
  }

  lemma LocalKeeps(s: System, c: ClientId, e: LocalEvent)
    requires Inv(s) && c in s.clients && Enabled(s.clients[c], e)
    ensures Inv(s.(clients := s.clients[c := LocalStep(c, s.clients[c], e)]))
  {
    hide LocalStep; hide ClientInv;
    LocalStepKeeps(s.server, SubOf(s, c), s.nextSub, c, s.clients[c], e);
    var s' := s.(clients := s.clients[c := LocalStep(c, s.clients[c], e)]);
    assert forall d <- s.clients :: SubOf(s', d) == SubOf(s, d);
  }

  lemma StepKeeps(s: System, s': System)
    requires Inv(s) && Step(s, s')
    ensures Inv(s')
  {
    hide LocalStep; hide Inv; hide Serve; hide Drop; hide Evict; hide LoseUp; hide LoseDown;
    if c, e :| c in s.clients && Enabled(s.clients[c], e)
               && s' == s.(clients := s.clients[c := LocalStep(c, s.clients[c], e)]) {
      LocalKeeps(s, c, e);
    } else if c :| CanServe(s, c) && s' == Serve(s, c) {
      ServeKeeps(s, c);
    } else if c :| c in s.clients && s' == Drop(s, c) {
      DropKeeps(s, c);
    } else if s' == Evict(s) {
      EvictKeeps(s);
    } else if c :| CanLoseUp(s, c) && s' == LoseUp(s, c) {
      LoseUpKeeps(s, c);
    } else {
      var c, i: nat :| CanLoseDown(s, c, i) && s' == LoseDown(s, c, i);
      LoseDownKeeps(s, c, i);
    }
  }

  lemma {:induction false} RunKeeps(run: seq<System>)
    requires IsRun(run)
    ensures Inv(run[|run| - 1])
  {
    if |run| == 1 {
      assert Inv(run[0]);
    } else {
      var prefix := run[..|run| - 1];
      RunKeeps(prefix);
      StepKeeps(run[|run| - 2], run[|run| - 1]);
    }
  }

  /** Nothing is invented: at every moment of every run, the server and every client hold only
      operations some client authored, and every client holds all of its own. */
  lemma NothingInvented(run: seq<System>)
    requires IsRun(run)
    ensures var s := run[|run| - 1];
            && s.server <= AllEdits(s)
            && forall c <- s.clients ::
                 NewOps(c, 0, s.clients[c].clock) <= s.clients[c].doc <= AllEdits(s)
  {
    var s := run[|run| - 1];
    hide InInv; hide OutInv; hide SyncedInv; hide Numbered; hide IsRun;
    RunKeeps(run);
    forall op | op in s.server ensures op in AllEdits(s) {
      assert Op(op.author, op.clock) == op;
      assert op in s.clients[op.author].doc;
    }
    forall c, op | c in s.clients && op in s.clients[c].doc ensures op in AllEdits(s) {
      assert Op(op.author, op.clock) == op;
    }
  }

  lemma QuietHolds(server: set<Op>, k: SubId, next: SubId, c: ClientId, cl: Client)
    requires ClientInv(server, Some(k), next, c, cl) && ClientQuiet(cl) && cl.phase == Synced(k)
    ensures Integrated(server) <= cl.doc <= server
  {
    assert QueueOps(cl.queue) == {} && BroadcastOps(cl.fromServer, k) == {};
  }

  /** Convergence: in every run, whenever nothing is queued or in flight and every client's handshake
      was answered by the subscription the server still has for it, every client and the server hold
      exactly the union of all edits, with no gap. */
  lemma Convergence(run: seq<System>)
    requires IsRun(run) && Quiescent(run[|run| - 1]) && AllAttached(run[|run| - 1])
    ensures Converged(run[|run| - 1]) && Contiguous(run[|run| - 1].server)
  {
    var s := run[|run| - 1];
    hide ClientInv; hide Integrated; hide IsRun;
    RunKeeps(run);
    NothingInvented(run);
    forall c <- s.clients ensures Integrated(s.server) <= s.clients[c].doc <= s.server {
      assert ClientQuiet(s.clients[c]) && Attached(s, c);
      QuietHolds(s.server, s.subs[c], s.nextSub, c, s.clients[c]);
    }
    forall op | op in AllEdits(s) ensures op in s.server {
      var c :| c in s.clients && op.author == c && op.clock < s.clients[c].clock;
      assert Op(c, op.clock) == op;
      assert op in s.clients[c].doc;
    }
    forall op | op in s.server ensures op in Integrated(s.server) {
      forall k: nat | k <= op.clock ensures Op(op.author, k) in s.server {
        assert Op(op.author, k) in AllEdits(s);
      }
      IntegratedMeaning(s.server, op);
    }
    forall op | op in Integrated(s.server) ensures op in s.server {
      IntegratedMeaning(s.server, op);
      assert Op(op.author, op.clock) == op;
    }
  }

  /** Every client and the server hold exactly the union of all edits. */
  predicate Converged(s: System) {
    s.server == AllEdits(s) && forall c <- s.clients :: s.clients[c].doc == AllEdits(s)
  }
}
