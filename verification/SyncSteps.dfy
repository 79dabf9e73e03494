/** Runs of clients with real queues and the server, one step at a time: how a run goes on, and what a
    step of one client leaves alone at the others. */
module SyncSteps {
  import opened SendQueue
  import opened SendQueueRuns
  import opened SendQueueRefinement
  import opened SyncWithQueues
  import M = SyncMachine

  /** The configuration, how messages read, and operations whose updates the library can write. */
  datatype World = World(cfg: Config, item: CollabMessage -> M.Item, ops: set<Op>)

  ghost predicate Writable(w: World, id: MsgId, i: M.Item) {
    exists m :: ClientMessage(w.cfg.yrs, m, id) && w.item(m) == i
  }

  /** Every update, answer and init over these operations fits a message. */
  ghost predicate Expressive(w: World) {
    && (forall id, u | u <= w.ops :: Writable(w, id, M.UpdateSync(u)))
    && (forall id, u | u <= w.ops :: Writable(w, id, M.ServerInit(u)))
    && (forall id, d | d <= w.ops :: Writable(w, id, M.InitSync(M.CrdtDocument.StateVectorOf(d))))
  }

  ghost predicate Sound(w: World) {
    ValidConfig(w.cfg) && Reads(w.cfg.yrs, w.item) && Expressive(w)
  }

  datatype History = History(run: seq<Network>, acts: seq<Act>)

  ghost predicate Valid(w: World, h: History) {
    IsNetworkRun(w.cfg, w.item, h.run, h.acts)
  }

  function End(h: History): (n: Network)
    requires |h.run| == |h.acts| + 1
  {
    h.run[|h.acts|]
  }

  /** Only the clients' own work and the server's: no edit, no disconnect, no eviction, and nothing lost
      but what finds no group; `shakes` says whether a client may start a new handshake. */
  ghost predicate Benign(n: Network, a: Act, shakes: bool) {
    match a
    case Local(_, e, _) => !e.Edits? && (e.StartsHandshake? ==> shakes) && SendsWork(e)
    case Serves(_) => true
    case LosesUp(_) => !n.core.live
    case _ => false
  }

  /** `h` goes on as `h'` by such steps. */
  ghost predicate GoesOn(w: World, h: History, h': History, shakes: bool) {
    && Valid(w, h) && Valid(w, h') && h.run <= h'.run && h.acts <= h'.acts
    && (forall i | |h.acts| <= i < |h'.acts| :: Benign(h'.run[i], h'.acts[i], shakes))
    && M.AllEdits(End(h').core) == M.AllEdits(End(h).core)
    && End(h').core.clients.Keys == End(h).core.clients.Keys
  }

  lemma GoesOnAgain(w: World, a: History, b: History, c: History, shakes: bool)
    requires GoesOn(w, a, b, shakes) && GoesOn(w, b, c, shakes)
    ensures GoesOn(w, a, c, shakes)
  {
    hide Valid; hide Benign; hide M.AllEdits;
    assert Valid(w, a) && Valid(w, b) && Valid(w, c);
    Lengths(w, a); Lengths(w, b); Lengths(w, c);
    forall i | |a.acts| <= i < |c.acts| ensures Benign(c.run[i], c.acts[i], shakes) {
      if i < |b.acts| {
        assert c.run[i] == b.run[i] && c.acts[i] == b.acts[i];
      }
    }
  }

  lemma Lengths(w: World, h: History)
    requires Valid(w, h)
    ensures |h.run| == |h.acts| + 1 && Paired(End(h))
  {
  }

  /** What holds of going on without handshakes holds with them allowed. */
  lemma AllowHandshakes(w: World, a: History, b: History)
    requires GoesOn(w, a, b, false)
    ensures GoesOn(w, a, b, true)
  {
    hide Valid; hide M.AllEdits;
    Lengths(w, a); Lengths(w, b);
  }

  /** What happens elsewhere leaves a client as it is, but for broadcasts to a subscriber. */
  ghost predicate Undisturbed(n: Network, n': Network, d: M.ClientId) {
    && Paired(n) && Paired(n') && d in n.sinks && d in n'.sinks && n'.sinks[d] == n.sinks[d]
    && M.SubOf(n'.core, d) == M.SubOf(n.core, d)
    && n'.core.clients[d] == n.core.clients[d].(fromServer := n'.core.clients[d].fromServer)
    && (d !in n.core.subs ==> n'.core.clients[d] == n.core.clients[d])
    && forall down <- n'.core.clients[d].fromServer :: down in n.core.clients[d].fromServer || down.Broadcast?
  }

  ghost predicate OthersUndisturbed(n: Network, n': Network, c: M.ClientId) {
    forall d <- n.sinks :: d != c ==> Undisturbed(n, n', d)
  }

  lemma UndisturbedAgain(n: Network, n1: Network, n2: Network, c: M.ClientId)
    requires OthersUndisturbed(n, n1, c) && OthersUndisturbed(n1, n2, c)
    ensures OthersUndisturbed(n, n2, c)
  {
    forall d <- n.sinks | d != c ensures Undisturbed(n, n2, d) {
      assert Undisturbed(n, n1, d) && Undisturbed(n1, n2, d);
      assert d in n.core.subs <==> d in n1.core.subs;
    }
  }

  /** The run goes on by steps of one client, or of the server for it. */
  ghost predicate Goes(w: World, h: History, h': History, c: M.ClientId, shakes: bool) {
    GoesOn(w, h, h', shakes) && OthersUndisturbed(End(h), End(h'), c) && c in End(h).sinks && c in End(h').sinks
  }

  lemma GoesAgain(w: World, a: History, b: History, d: History, c: M.ClientId, shakes: bool)
    requires Goes(w, a, b, c, shakes) && Goes(w, b, d, c, shakes)
    ensures Goes(w, a, d, c, shakes)
  {
    hide Valid; hide Undisturbed; hide Benign; hide M.AllEdits;
    Lengths(w, a); Lengths(w, b); Lengths(w, d);
    GoesOnAgain(w, a, b, d, shakes);
    UndisturbedAgain(End(a), End(b), End(d), c);
  }

  lemma Stays(w: World, h: History, c: M.ClientId, shakes: bool)
    requires Valid(w, h) && c in End(h).sinks
    ensures Goes(w, h, h, c, shakes)
  {
  }

  // ---------------------------------------------------------------- one step

  function Plus(h: History, a: Act, n: Network): History {
    History(h.run + [n], h.acts + [a])
  }

  lemma Extends(w: World, h: History, a: Act, n: Network)
    requires Valid(w, h) && Paired(n) && Moves(w.cfg, w.item, End(h), a, n)
    ensures Valid(w, Plus(h, a, n)) && End(Plus(h, a, n)) == n
    ensures h.run <= Plus(h, a, n).run && h.acts <= Plus(h, a, n).acts
  {
    hide Moves;
    var h' := Plus(h, a, n);
    forall i | 0 <= i < |h'.acts| ensures Moves(w.cfg, w.item, h'.run[i], h'.acts[i], h'.run[i + 1]) {
      if i < |h.acts| {
        assert h'.run[i] == h.run[i] && h'.acts[i] == h.acts[i] && h'.run[i + 1] == h.run[i + 1];
      }
    }
  }

  predicate SameClocks(s: M.System, s': M.System) {
    s'.clients.Keys == s.clients.Keys && forall c <- s.clients :: s'.clients[c].clock == s.clients[c].clock
  }

  lemma SameClocksSameEdits(s: M.System, s': M.System)
    requires SameClocks(s, s')
    ensures M.AllEdits(s') == M.AllEdits(s)
  {
    forall op: Op ensures op in M.AllEdits(s') <==> op in M.AllEdits(s) {
      assert M.CrdtDocument.Op(op.author, op.clock) == op;
    }
  }

  lemma OneStepOn(w: World, h: History, a: Act, n: Network, c: M.ClientId, shakes: bool)
    requires Valid(w, h) && Paired(n) && Moves(w.cfg, w.item, End(h), a, n) && Benign(End(h), a, shakes)
    requires SameClocks(End(h).core, n.core) && OthersUndisturbed(End(h), n, c) && c in End(h).sinks
    ensures Goes(w, h, Plus(h, a, n), c, shakes) && Valid(w, Plus(h, a, n)) && End(Plus(h, a, n)) == n
  {
    hide Moves; hide Benign; hide Undisturbed; hide M.AllEdits; hide SameClocks;
    Extends(w, h, a, n);
    SameClocksSameEdits(End(h).core, n.core);
    KeysStay(End(h).core, n.core);
    Lengths(w, h);
  }

  lemma KeysStay(s: M.System, s': M.System)
    requires SameClocks(s, s')
    ensures s'.clients.Keys == s.clients.Keys
  {
  }

  /** Every other client is as it was. */
  predicate OthersSame(n: Network, n': Network, c: M.ClientId)
    requires Paired(n) && Paired(n')
  {
    forall d <- n.sinks :: d != c ==> d in n'.sinks && PeerOf(n', d) == PeerOf(n, d)
  }

  /** Everything but the clients is as it was. */
  predicate SameServer(n: Network, n': Network) {
    n'.core == n.core.(clients := n'.core.clients)
  }

  lemma NextKeepsClock(w: World, c: M.ClientId, p: Peer, e: PeerEvent)
    requires ValidConfig(w.cfg) && Possible(w.cfg, w.item, p, e) && !e.Edits?
    ensures Next(w.cfg, w.item, c, p, e).rest.clock == p.rest.clock
  {
    hide Apply; hide Upstreamed; hide Loses; hide AckMsg; hide M.CrdtDocument.EncodeStateAsUpdate; hide M.Effect;
  }

  lemma LocalUndisturbed(n: Network, c: M.ClientId, p: Peer)
    requires Paired(n) && c in n.sinks && p.rest.clock == PeerOf(n, c).rest.clock
    ensures var n' := With(n, c, p);
            && Paired(n') && OthersUndisturbed(n, n', c) && SameClocks(n.core, n'.core) && SameServer(n, n')
            && c in n'.sinks && PeerOf(n', c) == p && OthersSame(n, n', c)
  {
  }

  /** A step of client `c`, its heap choosing as the configuration says. */
  lemma DoLocal(w: World, h: History, c: M.ClientId, e: PeerEvent, shakes: bool) returns (h': History)
    requires Valid(w, h) && ValidConfig(w.cfg) && c in End(h).sinks
    requires Possible(w.cfg, w.item, PeerOf(End(h), c), e)
    requires !e.Edits? && (e.StartsHandshake? ==> shakes) && SendsWork(e)
    ensures Goes(w, h, h', c, shakes) && Valid(w, h') && SameServer(End(h), End(h'))
    ensures PeerOf(End(h'), c) == Next(w.cfg, w.item, c, PeerOf(End(h), c), e) && OthersSame(End(h), End(h'), c)
  {
    var n := End(h);
    var p := PeerOf(n, c);
    var p' := Next(w.cfg, w.item, c, p, e);
    var a, n' := Local(c, e, w.cfg.pop), With(n, c, p');
    assert w.cfg.(pop := w.cfg.pop) == w.cfg;
    NextKeepsClock(w, c, p, e);
    hide Next; hide Possible; hide ValidConfig; hide Valid;
    assert Moves(w.cfg, w.item, n, a, n');
    assert Benign(n, a, shakes);
    LocalUndisturbed(n, c, p');
    hide Moves; hide Benign; hide Undisturbed; hide OthersUndisturbed; hide SameClocks; hide With; hide SameServer;
    hide OthersSame;
    OneStepOn(w, h, a, n', c, shakes);
    h' := Plus(h, a, n');
  }

  /** The server takes up the client's next message. */
  lemma DoServe(w: World, h: History, c: M.ClientId, shakes: bool) returns (h': History)
    requires Valid(w, h) && M.CanServe(End(h).core, c)
    ensures Goes(w, h, h', c, shakes) && Valid(w, h')
    ensures var s, s' := End(h).core, End(h').core;
            && c in s'.subs && c in s.clients
            && PeerOf(End(h'), c) == Peer(M.Acknowledge(s.clients[c], s.server, s'.subs[c]), End(h).sinks[c])
            && s'.server == s.server + M.Effect(M.HeadMessage(s.clients[c]))
            && (c in s.subs && !M.HeadMessage(s.clients[c]).Step1? ==> s'.subs[c] == s.subs[c])
  {
    var n := End(h);
    var n' := n.(core := M.Serve(n.core, c));
    ServeUndisturbed(n, c);
    hide Valid; hide M.Serve; hide M.CanServe; hide Undisturbed;
    OneStepOn(w, h, Serves(c), n', c, shakes);
    h' := Plus(h, Serves(c), n');
  }

  lemma ServeUndisturbed(n: Network, c: M.ClientId)
    requires Paired(n) && M.CanServe(n.core, c)
    ensures var s, s' := n.core, M.Serve(n.core, c);
            && Paired(n.(core := s')) && OthersUndisturbed(n, n.(core := s'), c) && SameClocks(s, s') && c in n.sinks
            && c in s'.subs && s'.clients[c] == M.Acknowledge(s.clients[c], s.server, s'.subs[c])
            && s'.server == s.server + M.Effect(M.HeadMessage(s.clients[c]))
            && (c in s.subs && !M.HeadMessage(s.clients[c]).Step1? ==> s'.subs[c] == s.subs[c])
  {
    hide M.News; hide M.Effect; hide M.ServerReply;
  }

  /** Without a group the client's next message is discarded. */
  lemma DoDiscard(w: World, h: History, c: M.ClientId, shakes: bool) returns (h': History)
    requires Valid(w, h) && M.CanLoseUp(End(h).core, c) && !End(h).core.live
    ensures Goes(w, h, h', c, shakes) && Valid(w, h') && SameServer(End(h), End(h'))
    ensures var rest := End(h).core.clients[c];
            PeerOf(End(h'), c) == Peer(rest.(toServer := rest.toServer[1..]), End(h).sinks[c])
  {
    var n := End(h);
    var n' := n.(core := M.LoseUp(n.core, c));
    hide Valid;
    Lengths(w, h);
    assert OthersUndisturbed(n, n', c);
    OneStepOn(w, h, LosesUp(c), n', c, shakes);
    h' := Plus(h, LosesUp(c), n');
  }

  // ---------------------------------------------------------------- what holds in every reachable state

  ghost predicate Reached(yrs: Yrs, n: Network) {
    && SinksInv(yrs, n)
    && (n.core.live || n.core.subs == map[]) && n.core.server <= M.AllEdits(n.core)
    && forall c <- n.core.clients ::
         var cl := n.core.clients[c];
         && cl.doc <= M.AllEdits(n.core)
         && (forall k | 0 <= k < |cl.unqueued| :: cl.unqueued[k] <= cl.doc)
         && (forall up <- cl.toServer :: up.payload != [])
  }

  lemma {:induction false} EachUnqueued(edits: seq<M.CrdtDocument.Update>, k: nat)
    requires k < |edits|
    ensures edits[k] <= M.UnqueuedOps(edits)
  {
    if k > 0 { EachUnqueued(edits[1..], k - 1); }
  }

  lemma IsReached(w: World, h: History)
    requires Valid(w, h) && Reads(w.cfg.yrs, w.item)
    ensures Reached(w.cfg.yrs, End(h))
  {
    var n := End(h);
    var shown := RunsRefine(w.cfg, w.item, h.run, h.acts);
    hide Valid; hide IsNetworkRun; hide SinksInv; hide M.IsRun; hide Reads;
    M.RunKeeps(shown);
    M.NothingInvented(shown);
    var v := ViewOf(w.item, n);
    assert v.clients.Keys == n.core.clients.Keys && SameClocks(n.core, v);
    SameClocksSameEdits(n.core, v);
    hide M.AllEdits; hide M.InInv; hide M.SyncedInv; hide M.DocInv; hide M.Numbered; hide M.Honest; hide Abs;
    forall c <- n.core.clients
      ensures var cl := n.core.clients[c];
              && cl.doc <= M.AllEdits(n.core)
              && (forall k | 0 <= k < |cl.unqueued| :: cl.unqueued[k] <= cl.doc)
              && (forall up <- cl.toServer :: up.payload != [])
    {
      var cl := n.core.clients[c];
      assert v.clients[c] == cl.(queue := v.clients[c].queue, nextId := v.clients[c].nextId);
      assert M.OutInv(v.clients[c]);
      forall k | 0 <= k < |cl.unqueued| ensures cl.unqueued[k] <= cl.doc { EachUnqueued(cl.unqueued, k); }
    }
  }
}
