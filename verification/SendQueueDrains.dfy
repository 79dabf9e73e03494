/** The send queue can always be drained: from every state of its update-only runs, acks and sends
    lead to an empty queue; and the guard under which that loses nothing. */
module SendQueueDrains {
  import opened Common
  import opened SendQueue
  import opened SendQueueRuns

  /** `events` goes on as `more` with nothing more queued and every further send accepted. */
  ghost predicate GoesOn(cfg: Config, events: seq<Event>, more: seq<Event>)
    requires ValidConfig(cfg)
  {
    && events <= more && Feasible(cfg, more)
    && forall e <- more[|events|..] :: !e.QueueUpdate? && (e.Process? ==> e.sendOk)
  }

  lemma OneMore(cfg: Config, events: seq<Event>, e: Event)
    requires ValidConfig(cfg) && Feasible(cfg, events)
    requires Enabled(After(cfg, events), e) && !e.QueueUpdate? && (e.Process? ==> e.sendOk)
    ensures GoesOn(cfg, events, events + [e]) && After(cfg, events + [e]) == Apply(cfg, After(cfg, events), e)
  {
    hide Apply; hide Enabled;
    assert Init(events + [e]) == events && Last(events + [e]) == e;
    assert (events + [e])[|events|..] == [e];
  }

  lemma GoesOnAgain(cfg: Config, a: seq<Event>, b: seq<Event>, c: seq<Event>)
    requires ValidConfig(cfg) && GoesOn(cfg, a, b) && GoesOn(cfg, b, c)
    ensures GoesOn(cfg, a, c)
  {
    hide Feasible;
    assert c[|a|..] == b[|a|..] + c[|b|..];
  }

  lemma Resume(cfg: Config, events: seq<Event>) returns (more: seq<Event>)
    requires ValidConfig(cfg) && Feasible(cfg, events)
    ensures GoesOn(cfg, events, more) && Feasible(cfg, more)
    ensures After(cfg, more) == After(cfg, events).(paused := false)
  {
    hide Feasible; hide After; hide GoesOn; hide ValidConfig;
    more := events + [SetPaused(false)];
    OneMore(cfg, events, SetPaused(false));
    GoesOnFeasible(cfg, events, more);
  }

  lemma FreeRunner(cfg: Config, events: seq<Event>) returns (more: seq<Event>)
    requires ValidConfig(cfg) && Feasible(cfg, events)
    requires QueueInv(cfg, After(cfg, events)) && After(cfg, events).runner != Idle
    ensures GoesOn(cfg, events, more)
    ensures var s, s' := After(cfg, events), After(cfg, more);
            s'.runner == Idle && s'.paused == s.paused && |s'.queue| <= |s.queue|
  {
    hide Feasible; hide After; hide GoesOn; hide ValidConfig; hide QueueInv; hide Apply;
    var e := if After(cfg, events).runner.Waiting? then RunnerTimeout else RunnerAcked;
    more := events + [e];
    OneMore(cfg, events, e);
    HeadStep(cfg, After(cfg, events), e);
  }

  /** Bring the runner back to idle without growing the queue. */
  lemma ToIdle(cfg: Config, events: seq<Event>) returns (more: seq<Event>)
    requires ValidConfig(cfg) && Feasible(cfg, events)
    ensures GoesOn(cfg, events, more)
    ensures var s, s' := After(cfg, events), After(cfg, more);
            s'.runner == Idle && !s'.paused && |s'.queue| <= |s.queue|
  {
    hide *;
    var a := Resume(cfg, events);
    RunKeeps(cfg, a);
    if After(cfg, a).runner == Idle {
      more := a;
    } else {
      more := FreeRunner(cfg, a);
      GoesOnAgain(cfg, events, a, more);
    }
  }

  lemma GoesOnFeasible(cfg: Config, a: seq<Event>, b: seq<Event>)
    requires ValidConfig(cfg) && GoesOn(cfg, a, b)
    ensures Feasible(cfg, b)
  {
  }

  lemma SameSize(queue: Queue, id: MsgId, p: PendingMessage)
    requires id in queue
    ensures |queue[id := p]| == |queue| && |queue - {id}| == |queue| - 1
  {
    assert queue[id := p].Keys == queue.Keys;
    assert (queue - {id}).Keys == queue.Keys - {id};
  }

  /** A timeout or the pop after an ack frees the runner. */
  lemma HeadStep(cfg: Config, s: Sink, e: Event)
    requires ValidConfig(cfg) && QueueInv(cfg, s) && Enabled(s, e) && (e.RunnerTimeout? || e.RunnerAcked?)
    ensures var s' := Apply(cfg, s, e);
            s'.runner == Idle && s'.paused == s.paused && |s'.queue| <= |s.queue|
  {
    hide Ops; hide AsUpdate;
    SentHeadIsTop(cfg, s);
    TopIsOldest(cfg, s.queue);
    var id := cfg.pop(s.queue);
    SameSize(s.queue, id, s.queue[id].(state := Timeout));
  }

  /** A message that was sent is the head. */
  lemma SentIsHead(cfg: Config, s: Sink, id: MsgId)
    requires ValidConfig(cfg) && QueueInv(cfg, s) && id in s.queue && s.queue[id].state != Pending
    ensures cfg.pop(s.queue) == id
  {
    hide Ops; hide AsUpdate;
    TopIsOldest(cfg, s.queue);
  }

  lemma FewerKeys(a: Queue, b: Queue)
    requires a.Keys <= b.Keys
    ensures |a| <= |b|
  {
    if a.Keys != b.Keys {
      assert |b.Keys| == |a.Keys| + |b.Keys - a.Keys| by { assert b.Keys == a.Keys + (b.Keys - a.Keys); }
    }
  }

  /** Sending the head does not grow the queue, and the head waits for its ack. */
  lemma HeadIsSent(cfg: Config, s: Sink)
    requires ValidConfig(cfg) && QueueInv(cfg, s) && s.runner == Idle && !s.paused && s.queue != map[]
    requires var p := s.queue[cfg.pop(s.queue)]; p.state == Pending || p.state == Timeout
    ensures var id, s1 := cfg.pop(s.queue), ProcessNext(cfg, s, false, true);
            && QueueInv(cfg, s1) && |s1.queue| <= |s.queue| && !s1.paused
            && id in s1.queue && s1.queue[id].state == Processing
            && s1.queue[id].tx.Some? && s1.runner == Waiting(s1.queue[id].tx.value)
            && exists m <- s1.socket :: IdOf(m) == Some(id)
  {
    hide Ops; hide AsUpdate; hide HeapOps; hide SocketOps; hide MergeLoop;
    var id, s1 := cfg.pop(s.queue), ProcessNext(cfg, s, false, true);
    var out := Absorb(cfg, s.queue, id);
    TopIsOldest(cfg, s.queue);
    SendKeeps(cfg, s, true);
    MergeLoopConserves(cfg, s.queue[id].msg, s.queue - {id});
    FewerKeys(s1.queue, s.queue);
    assert out.head in s1.socket;
  }

  /** Then its ack is accepted, and the pop that follows takes it. */
  lemma AckedIsPopped(cfg: Config, s: Sink, id: MsgId)
    requires ValidConfig(cfg) && QueueInv(cfg, s) && id in s.queue && s.queue[id].state == Processing
    requires s.queue[id].tx.Some? && s.runner == Waiting(s.queue[id].tx.value) && !s.paused
    requires QueueInv(cfg, AckMsg(cfg, s, id).0)
    ensures var s1 := AckMsg(cfg, s, id).0;
            && s1.runner == Acked
            && var s2 := PopAcked(cfg, s1);
               s2.runner == Idle && !s2.paused && |s2.queue| < |s.queue|
  {
    hide Ops; hide AsUpdate;
    SentIsHead(cfg, s, id);
    var s1 := AckMsg(cfg, s, id).0;
    SentIsHead(cfg, s1, id);
    SameSize(s.queue, id, s.queue[id].(state := Done, tx := None));
    SameSize(s1.queue, id, s1.queue[id]);
  }

  /** An unsent head is sent, acked and popped. */
  lemma SendRound(cfg: Config, events: seq<Event>) returns (more: seq<Event>)
    requires ValidConfig(cfg) && Feasible(cfg, events)
    requires var s := After(cfg, events);
             s.runner == Idle && !s.paused && s.queue != map[]
             && cfg.pop(s.queue) in s.queue
             && (var p := s.queue[cfg.pop(s.queue)]; p.state == Pending || p.state == Timeout)
    ensures GoesOn(cfg, events, more) && |After(cfg, more).queue| < |After(cfg, events).queue|
  {
    hide *;
    var s := After(cfg, events);
    var id := cfg.pop(s.queue);
    RunKeeps(cfg, events);
    HeadIsSent(cfg, s);
    ProcessIs(cfg, events, s);
    var a := events + [Process(false, true)];
    var s1 := After(cfg, a);
    AckIs(cfg, a, id);
    var b := a + [AckArrives(id)];
    RunKeeps(cfg, b);
    AckedIsPopped(cfg, s1, id);
    PopIs(cfg, b);
    more := b + [RunnerAcked];
    GoesOnAgain(cfg, events, a, b);
    GoesOnAgain(cfg, events, b, more);
  }

  lemma ProcessIs(cfg: Config, events: seq<Event>, s: Sink)
    requires ValidConfig(cfg) && Feasible(cfg, events) && s == After(cfg, events) && s.runner == Idle
    ensures var more := events + [Process(false, true)];
            && GoesOn(cfg, events, more) && Feasible(cfg, more)
            && After(cfg, more) == ProcessNext(cfg, s, false, true)
  {
    hide Feasible; hide After; hide GoesOn; hide ProcessNext; hide ValidConfig;
    OneMore(cfg, events, Process(false, true));
    GoesOnFeasible(cfg, events, events + [Process(false, true)]);
  }

  lemma AckIs(cfg: Config, events: seq<Event>, id: MsgId)
    requires ValidConfig(cfg) && Feasible(cfg, events)
    requires exists m <- After(cfg, events).socket :: IdOf(m) == Some(id)
    ensures var more := events + [AckArrives(id)];
            && GoesOn(cfg, events, more) && Feasible(cfg, more)
            && After(cfg, more) == AckMsg(cfg, After(cfg, events), id).0
  {
    hide Feasible; hide After; hide GoesOn; hide AckMsg; hide ValidConfig;
    OneMore(cfg, events, AckArrives(id));
    GoesOnFeasible(cfg, events, events + [AckArrives(id)]);
  }

  lemma PopIs(cfg: Config, events: seq<Event>)
    requires ValidConfig(cfg) && Feasible(cfg, events) && After(cfg, events).runner == Acked
    ensures var more := events + [RunnerAcked];
            && GoesOn(cfg, events, more) && After(cfg, more) == PopAcked(cfg, After(cfg, events))
  {
    hide Feasible; hide After; hide GoesOn; hide PopAcked; hide ValidConfig;
    OneMore(cfg, events, RunnerAcked);
  }

  /** One round with an idle runner makes the queue shorter. */
  lemma Round(cfg: Config, events: seq<Event>) returns (more: seq<Event>)
    requires ValidConfig(cfg) && Feasible(cfg, events)
    requires var s := After(cfg, events); s.runner == Idle && !s.paused && s.queue != map[]
    ensures GoesOn(cfg, events, more) && |After(cfg, more).queue| < |After(cfg, events).queue|
  {
    hide *;
    RunKeeps(cfg, events);
    var s := After(cfg, events);
    HeadOf(cfg, s);
    var state := s.queue[cfg.pop(s.queue)].state;
    if state == Done || state == Processing {
      ProcessIs(cfg, events, s);
      StaleIsPopped(cfg, s);
      more := events + [Process(false, true)];
    } else {
      more := SendRound(cfg, events);
    }
  }

  lemma HeadOf(cfg: Config, s: Sink)
    requires ValidConfig(cfg) && QueueInv(cfg, s) && s.queue != map[]
    ensures cfg.pop(s.queue) in s.queue
  {
    TopIsOldest(cfg, s.queue);
  }

  lemma StaleIsPopped(cfg: Config, s: Sink)
    requires ValidConfig(cfg) && !s.paused && s.queue != map[] && cfg.pop(s.queue) in s.queue
    requires s.queue[cfg.pop(s.queue)].state == Done || s.queue[cfg.pop(s.queue)].state == Processing
    ensures |ProcessNext(cfg, s, false, true).queue| < |s.queue|
  {
    SameSize(s.queue, cfg.pop(s.queue), s.queue[cfg.pop(s.queue)]);
  }

  lemma {:induction false} Drain(cfg: Config, events: seq<Event>) returns (more: seq<Event>)
    requires ValidConfig(cfg) && Feasible(cfg, events)
    ensures GoesOn(cfg, events, more) && After(cfg, more).queue == map[]
    decreases |After(cfg, events).queue|
  {
    hide Feasible; hide After; hide GoesOn; hide ValidConfig;
    var a := ToIdle(cfg, events);
    GoesOnFeasible(cfg, events, a);
    if After(cfg, a).queue == map[] {
      more := a;
    } else {
      var b := Round(cfg, a);
      GoesOnFeasible(cfg, a, b);
      more := Drain(cfg, b);
      GoesOnAgain(cfg, events, a, b);
      GoesOnAgain(cfg, events, b, more);
    }
  }

  lemma {:induction false} NothingNewQueued(yrs: Yrs, events: seq<Event>, more: seq<Event>)
    requires events <= more && forall e <- more[|events|..] :: !e.QueueUpdate?
    ensures Ever(yrs, more) == Ever(yrs, events)
    decreases |more|
  {
    if more == events {
    } else {
      assert Init(more)[|events|..] == more[|events|..][..|more| - |events| - 1];
      assert Last(more) in more[|events|..];
      NothingNewQueued(yrs, events, Init(more));
    }
  }

  /** Whatever has happened, failed sends included, a run of updates can go on until the queue is empty. */
  lemma CanAlwaysDrain(cfg: Config, events: seq<Event>)
    requires ValidConfig(cfg) && Feasible(cfg, events)
    ensures exists more :: GoesOn(cfg, events, more) && After(cfg, more).queue == map[]
  {
    hide Feasible; hide After;
    var more := Drain(cfg, events);
  }

  // ---------------------------------------------------------------- when a drain loses nothing

  lemma {:induction false} MergeLoopShrinks(cfg: Config, head: CollabMessage, queue: Queue)
    requires ValidConfig(cfg)
    ensures MergeLoop(cfg, head, queue).queue.Keys <= queue.Keys
    ensures |MergeLoop(cfg, head, queue).queue| <= |queue|
    decreases |queue|
  {
    hide Merge;
    if queue != map[] {
      var id := cfg.pop(queue);
      var rest := queue - {id};
      assert rest.Keys == queue.Keys - {id} && |rest.Keys| < |queue.Keys|;
      var r := Merge(cfg.yrs, cfg.maximumPayloadSize, head, queue[id].msg);
      if r.Continue? { MergeLoopShrinks(cfg, r.merged, rest); }
      FewerKeys(MergeLoop(cfg, head, queue).queue, queue);
    }
  }

  /** Sending head after head, each merging what it can, never runs over the limit. */
  ghost predicate Drains(cfg: Config, queue: Queue)
    requires ValidConfig(cfg)
    decreases |queue|
  {
    queue == map[] ||
    var id := cfg.pop(queue);
    var head, rest := queue[id].msg, queue - {id};
    MergeLoopShrinks(cfg, head, rest);
    assert rest.Keys == queue.Keys - {id} && |rest.Keys| < |queue.Keys|;
    !Overflows(cfg, head, rest) && Drains(cfg, MergeLoop(cfg, head, rest).queue)
  }

  lemma DrainsIs(cfg: Config, queue: Queue)
    requires ValidConfig(cfg) && queue != map[]
    ensures cfg.pop(queue) in queue
    ensures var id := cfg.pop(queue);
            Drains(cfg, queue) <==>
              && !Overflows(cfg, queue[id].msg, queue - {id})
              && Drains(cfg, MergeLoop(cfg, queue[id].msg, queue - {id}).queue)
  {
    assert IsTop(queue, cfg.pop(queue));
    hide Overflows; hide MergeLoop;
  }

  /** The guard of a drain that loses nothing: an unsent head must not run over the limit; one that was
      handed over as it stands may be popped after an ack, or be sent again if it times out. */
  ghost predicate CanDrain(cfg: Config, s: Sink)
    requires ValidConfig(cfg)
  {
    s.queue == map[] ||
    var id := cfg.pop(s.queue);
    var head := s.queue[id];
    if head.state == Pending then Drains(cfg, s.queue)
    else
      && head.msg in s.socket
      && (|| Drains(cfg, s.queue - {id})
          || ((head.state == Timeout || s.runner.Waiting?) && Drains(cfg, s.queue)))
  }

  /** The state of the head does not matter to it. */
  lemma DrainsAnyState(cfg: Config, queue: Queue, id: MsgId, state: MessageState, tx: Option<Token>)
    requires ValidConfig(cfg) && UpdatesOnly(cfg.yrs, queue) && id in queue && cfg.pop(queue) == id
    ensures var queue' := queue[id := PendingMessage(queue[id].msg, state, tx)];
            cfg.pop(queue') == id && (Drains(cfg, queue') <==> Drains(cfg, queue))
  {
    var queue' := queue[id := PendingMessage(queue[id].msg, state, tx)];
    TopAnyState(cfg, queue, id, PendingMessage(queue[id].msg, state, tx));
    hide AsUpdate; hide MergeLoop; hide Overflows; hide UpdatesOnly; hide ValidConfig; hide Drains;
    DrainsIs(cfg, queue);
    DrainsIs(cfg, queue');
    assert queue' - {id} == queue - {id};
  }

  lemma TopAnyState(cfg: Config, queue: Queue, id: MsgId, p: PendingMessage)
    requires ValidConfig(cfg) && UpdatesOnly(cfg.yrs, queue) && id in queue && cfg.pop(queue) == id
    requires p.msg == queue[id].msg
    ensures cfg.pop(queue[id := p]) == id
  {
    hide ValidConfig; hide IsUpdate;
    TopIsOldest(cfg, queue);
    TopIsOldest(cfg, queue[id := p]);
    assert cfg.pop(queue[id := p]) in queue && id in queue[id := p];
  }

  /** When the loop stops with messages left and none dropped, the last merge erred. */
  lemma {:induction false} LoopStopsAtError(cfg: Config, head: CollabMessage, queue: Queue)
    requires ValidConfig(cfg) && MergeLoop(cfg, head, queue).dropped == None
    ensures var out := MergeLoop(cfg, head, queue);
            out.queue == map[] ||
            Merge(cfg.yrs, cfg.maximumPayloadSize, out.head, out.queue[cfg.pop(out.queue)].msg).Error?
    decreases |queue|
  {
    hide Merge;
    if queue != map[] {
      var id := cfg.pop(queue);
      var rest := queue - {id};
      var r := Merge(cfg.yrs, cfg.maximumPayloadSize, head, queue[id].msg);
      if r.Continue? {
        assert rest.Keys == queue.Keys - {id} && |rest.Keys| < |queue.Keys|;
        LoopStopsAtError(cfg, r.merged, rest);
      }
    }
  }

  lemma StoppedStays(cfg: Config, head: CollabMessage, queue: Queue)
    requires ValidConfig(cfg) && MergeLoop(cfg, head, queue).dropped == None
    ensures var out := MergeLoop(cfg, head, queue); MergeLoop(cfg, out.head, out.queue).queue == out.queue
  {
    LoopStopsAtError(cfg, head, queue);
    hide Merge; hide ValidConfig;
  }

  lemma UpdatesLeft(yrs: Yrs, queue: Queue, left: Queue, id: MsgId, p: PendingMessage)
    requires UpdatesOnly(yrs, queue) && forall j <- left :: j in queue && left[j] == queue[j]
    requires IsUpdate(yrs, p.msg) && p.msg.msgId == id
    ensures UpdatesOnly(yrs, left[id := p])
  {
    hide AsUpdate;
  }

  /** The oldest update is the head of whatever is left beside it. */
  lemma OldestStays(cfg: Config, queue: Queue, left: Queue, id: MsgId, p: PendingMessage)
    requires ValidConfig(cfg) && UpdatesOnly(cfg.yrs, queue) && queue != map[] && cfg.pop(queue) == id
    requires forall j <- left :: j in queue && j != id && left[j] == queue[j]
    requires IsUpdate(cfg.yrs, p.msg) && p.msg.msgId == id
    ensures id !in left && UpdatesOnly(cfg.yrs, left[id := p]) && cfg.pop(left[id := p]) == id
    ensures left[id := p] - {id} == left
  {
    hide ValidConfig; hide IsUpdate;
    TopIsOldest(cfg, queue);
    UpdatesLeft(cfg.yrs, queue, left, id, p);
    assert id in left[id := p];
    TopIsOldest(cfg, left[id := p]);
    assert cfg.pop(left[id := p]) in left[id := p];
  }

  /** The head that absorbed others is still the head. */
  lemma HeadStays(cfg: Config, queue: Queue, id: MsgId, p: PendingMessage)
    requires ValidConfig(cfg) && UpdatesOnly(cfg.yrs, queue) && queue != map[] && cfg.pop(queue) == id && id in queue
    requires p.msg == MergeLoop(cfg, queue[id].msg, queue - {id}).head
    ensures var out := MergeLoop(cfg, queue[id].msg, queue - {id});
            && id !in out.queue && UpdatesOnly(cfg.yrs, out.queue[id := p]) && cfg.pop(out.queue[id := p]) == id
            && out.queue[id := p] - {id} == out.queue
  {
    var head, rest := queue[id].msg, queue - {id};
    hide ValidConfig; hide IsUpdate; hide MergeLoop; hide Ops; hide HeapOps;
    assert queue[id].msg == head && forall j <- rest :: j in queue && rest[j] == queue[j];
    MergeLoopConserves(cfg, head, rest);
    OldestStays(cfg, queue, MergeLoop(cfg, head, rest).queue, id, p);
  }

  /** Sending the same head again merges nothing more. */
  lemma SentAgain(cfg: Config, queue: Queue, id: MsgId, p: PendingMessage)
    requires ValidConfig(cfg) && UpdatesOnly(cfg.yrs, queue) && queue != map[] && cfg.pop(queue) == id
    requires id in queue && !Overflows(cfg, queue[id].msg, queue - {id})
    requires p.msg == MergeLoop(cfg, queue[id].msg, queue - {id}).head
    ensures var out := MergeLoop(cfg, queue[id].msg, queue - {id});
            && id !in out.queue && UpdatesOnly(cfg.yrs, out.queue[id := p]) && cfg.pop(out.queue[id := p]) == id
            && out.queue[id := p] - {id} == out.queue
            && (Drains(cfg, out.queue[id := p]) ==> Drains(cfg, out.queue))
            && (Drains(cfg, queue) <==> Drains(cfg, out.queue))
  {
    var head, rest := queue[id].msg, queue - {id};
    HeadStays(cfg, queue, id, p);
    DroppedIffOverflows(cfg, head, rest);
    StoppedStays(cfg, head, rest);
    hide *;
    DrainsIs(cfg, queue);
    DrainsIs(cfg, MergeLoop(cfg, head, rest).queue[id := p]);
  }

  lemma SendGainsNothing(cfg: Config, s: Sink, tooEarly: bool)
    requires ValidConfig(cfg) && QueueInv(cfg, s) && Sends(cfg, s, tooEarly)
    requires !Overflowing(cfg, s, Process(tooEarly, true)) && CanDrain(cfg, Apply(cfg, s, Process(tooEarly, true)))
    ensures CanDrain(cfg, s)
  {
    hide Ops; hide AsUpdate; hide Drains; hide MergeLoop; hide Overflows; hide Merge;
    OthersPending(cfg, s);
    SentHeadIsTop(cfg, s);
    TrySendIs(cfg, s, true);
    hide QueueInv; hide ValidConfig;
    var id := cfg.pop(s.queue);
    SentAgain(cfg, s.queue, id, PendingMessage(Absorb(cfg, s.queue, id).head, Processing, Some(s.nextToken)));
  }

  lemma PopGainsNothing(cfg: Config, s: Sink, e: Event)
    requires ValidConfig(cfg) && QueueInv(cfg, s) && Enabled(s, e) && (e.Process? || e.RunnerAcked?)
    requires !(e.Process? && Sends(cfg, s, e.tooEarly)) && !Abandons(cfg, s, e) && s.queue != map[]
    requires CanDrain(cfg, Apply(cfg, s, e))
    ensures CanDrain(cfg, s)
  {
    NothingDrains(cfg);
    hide Ops; hide AsUpdate; hide Drains; hide Overflows; hide Absorb;
    OthersPending(cfg, s);
    SentHeadIsTop(cfg, s);
    var id := cfg.pop(s.queue);
    if s.queue - {id} != map[] { OldestPending(cfg, s.queue, id); }
  }

  /** A step that loses nothing does not make a lossless drain possible. */
  lemma StepGainsNothing(cfg: Config, s: Sink, e: Event)
    requires ValidConfig(cfg) && QueueInv(cfg, s) && Enabled(s, e) && !e.QueueUpdate?
    requires !Overflowing(cfg, s, e) && !Abandons(cfg, s, e) && (e.Process? ==> e.sendOk)
    requires CanDrain(cfg, Apply(cfg, s, e))
    ensures CanDrain(cfg, s)
  {
    NothingDrains(cfg);
    if s.queue != map[] {
      if e.Process? && Sends(cfg, s, e.tooEarly) {
        SendGainsNothing(cfg, s, e.tooEarly);
      } else if e.Process? || e.RunnerAcked? {
        hide *;
        PopGainsNothing(cfg, s, e);
      } else {
        hide *;
        StateGainsNothing(cfg, s, e);
      }
    }
  }

  lemma StateGainsNothing(cfg: Config, s: Sink, e: Event)
    requires ValidConfig(cfg) && QueueInv(cfg, s) && Enabled(s, e) && s.queue != map[]
    requires !e.QueueUpdate? && !e.Process? && !e.RunnerAcked?
    requires CanDrain(cfg, Apply(cfg, s, e))
    ensures CanDrain(cfg, s)
  {
    hide Ops; hide AsUpdate; hide Drains; hide Overflows;
    OthersPending(cfg, s);
    SentHeadIsTop(cfg, s);
    var id := cfg.pop(s.queue);
    var head, rest := s.queue[id], s.queue - {id};
    if e.AckArrives? && e.id == id {
      DrainsAnyState(cfg, s.queue, id, Done, None);
      assert s.queue[id := head.(state := Done, tx := None)] - {id} == rest;
    } else if e.RunnerTimeout? {
      DrainsAnyState(cfg, s.queue, id, Timeout, head.tx);
      assert s.queue[id := head.(state := Timeout)] - {id} == rest;
    }
  }

  lemma OldestPending(cfg: Config, queue: Queue, id: MsgId)
    requires ValidConfig(cfg) && id in queue && queue - {id} != map[]
    requires forall j <- queue :: j != id ==> queue[j].state == Pending
    ensures cfg.pop(queue - {id}) in queue - {id} && (queue - {id})[cfg.pop(queue - {id})].state == Pending
  {
    assert IsTop(queue - {id}, cfg.pop(queue - {id}));
  }

  lemma {:induction false} RunGainsNothing(cfg: Config, events: seq<Event>, more: seq<Event>)
    requires ValidConfig(cfg) && Feasible(cfg, events) && GoesOn(cfg, events, more)
    requires Lossless(cfg, more) && CanDrain(cfg, After(cfg, more))
    ensures Lossless(cfg, events) && CanDrain(cfg, After(cfg, events))
    decreases |more|
  {
    hide CanDrain; hide Apply; hide Enabled; hide Overflowing; hide Abandons; hide QueueInv;
    if more != events {
      var most, e := Init(more), Last(more);
      assert most[|events|..] == more[|events|..][..|more| - |events| - 1] && e in more[|events|..];
      RunKeeps(cfg, most);
      StepGainsNothing(cfg, After(cfg, most), e);
      RunGainsNothing(cfg, events, most);
    }
  }

  /** One more event, which loses nothing. */
  lemma OneLossless(cfg: Config, events: seq<Event>, e: Event) returns (more: seq<Event>)
    requires ValidConfig(cfg) && Feasible(cfg, events) && Lossless(cfg, events)
    requires Enabled(After(cfg, events), e) && !e.QueueUpdate? && (e.Process? ==> e.sendOk)
    requires !Overflowing(cfg, After(cfg, events), e) && !Abandons(cfg, After(cfg, events), e)
    ensures GoesOn(cfg, events, more) && Feasible(cfg, more) && Lossless(cfg, more)
    ensures After(cfg, more) == Apply(cfg, After(cfg, events), e)
  {
    hide Apply; hide Enabled; hide Overflowing; hide Abandons;
    more := events + [e];
    OneMore(cfg, events, e);
    assert Init(more) == events && Last(more) == e;
  }

  /** The head is sent, acked and popped: what is left is what it did not merge. */
  lemma HeadLeaves(cfg: Config, events: seq<Event>) returns (more: seq<Event>)
    requires ValidConfig(cfg) && Feasible(cfg, events) && Lossless(cfg, events)
    requires var s := After(cfg, events);
             && s.runner == Idle && !s.paused && s.queue != map[] && Drains(cfg, s.queue)
             && cfg.pop(s.queue) in s.queue
             && (var p := s.queue[cfg.pop(s.queue)]; p.state == Pending || p.state == Timeout)
    ensures GoesOn(cfg, events, more) && Feasible(cfg, more) && Lossless(cfg, more)
    ensures var s, s' := After(cfg, events), After(cfg, more);
            && s'.runner == Idle && !s'.paused && |s'.queue| < |s.queue|
            && Drains(cfg, s'.queue) && forall id <- s'.queue :: s'.queue[id].state == Pending
  {
    hide *;
    var s := After(cfg, events);
    var id := cfg.pop(s.queue);
    RunKeeps(cfg, events);
    MayProcess(cfg, s);
    HeadIsSent(cfg, s);
    var a := OneLossless(cfg, events, Process(false, true));
    var s1 := After(cfg, a);
    ApplyIs(cfg, s, id);
    RunKeeps(cfg, a);
    MayAck(cfg, s1, id);
    var b := OneLossless(cfg, a, AckArrives(id));
    ApplyIs(cfg, s1, id);
    RunKeeps(cfg, b);
    AckedIsPopped(cfg, s1, id);
    var s2 := After(cfg, b);
    MayPop(cfg, s2);
    more := OneLossless(cfg, b, RunnerAcked);
    ApplyIs(cfg, s2, id);
    GoesOnAgain(cfg, events, a, b);
    GoesOnAgain(cfg, events, b, more);
    LeftAfterRound(cfg, s);
  }

  lemma ApplyIs(cfg: Config, s: Sink, id: MsgId)
    requires ValidConfig(cfg)
    ensures Apply(cfg, s, Process(false, true)) == ProcessNext(cfg, s, false, true)
    ensures Apply(cfg, s, AckArrives(id)) == AckMsg(cfg, s, id).0
    ensures Apply(cfg, s, RunnerAcked) == PopAcked(cfg, s)
  {
  }

  lemma MayProcess(cfg: Config, s: Sink)
    requires ValidConfig(cfg) && s.runner == Idle && !s.paused && s.queue != map[] && Drains(cfg, s.queue)
    requires cfg.pop(s.queue) in s.queue
    requires var p := s.queue[cfg.pop(s.queue)]; p.state == Pending || p.state == Timeout
    ensures var e := Process(false, true);
            Enabled(s, e) && !Overflowing(cfg, s, e) && !Abandons(cfg, s, e)
  {
    hide Overflows;
  }

  lemma MayAck(cfg: Config, s: Sink, id: MsgId)
    requires ValidConfig(cfg) && exists m <- s.socket :: IdOf(m) == Some(id)
    ensures var e := AckArrives(id);
            Enabled(s, e) && !Overflowing(cfg, s, e) && !Abandons(cfg, s, e)
  {
  }

  lemma MayPop(cfg: Config, s: Sink)
    requires ValidConfig(cfg) && QueueInv(cfg, s) && s.runner == Acked
    ensures Enabled(s, RunnerAcked) && !Overflowing(cfg, s, RunnerAcked) && !Abandons(cfg, s, RunnerAcked)
  {
    RunnerKeeps(cfg, s, RunnerAcked);
  }

  lemma LeftAfterRound(cfg: Config, s: Sink)
    requires ValidConfig(cfg) && QueueInv(cfg, s) && s.runner == Idle && !s.paused && s.queue != map[]
    requires Drains(cfg, s.queue) && cfg.pop(s.queue) in s.queue
    requires var p := s.queue[cfg.pop(s.queue)]; p.state == Pending || p.state == Timeout
    ensures var s1 := ProcessNext(cfg, s, false, true);
            var s' := PopAcked(cfg, AckMsg(cfg, s1, cfg.pop(s.queue)).0);
            Drains(cfg, s'.queue) && forall id <- s'.queue :: s'.queue[id].state == Pending
  {
    hide Ops; hide AsUpdate; hide Overflows; hide HeapOps; hide SocketOps;
    var id := cfg.pop(s.queue);
    var out := Absorb(cfg, s.queue, id);
    OthersPending(cfg, s);
    TrySendIs(cfg, s, true);
    MergeLoopConserves(cfg, s.queue[id].msg, s.queue - {id});
    var p := PendingMessage(out.head, Processing, Some(s.nextToken));
    assert !Overflows(cfg, s.queue[id].msg, s.queue - {id});
    SentAgain(cfg, s.queue, id, p);
    var q1 := out.queue[id := p];
    DrainsAnyState(cfg, q1, id, Done, None);
    hide Drains; hide MergeLoop; hide QueueInv;
    assert q1[id := PendingMessage(p.msg, Done, None)] - {id} == out.queue;
  }

  /** A head that was handed over as it stands is acked once more and popped. */
  lemma SentHeadLeaves(cfg: Config, events: seq<Event>) returns (more: seq<Event>)
    requires ValidConfig(cfg) && Feasible(cfg, events) && Lossless(cfg, events)
    requires var s := After(cfg, events);
             && s.runner == Idle && !s.paused && s.queue != map[] && cfg.pop(s.queue) in s.queue
             && s.queue[cfg.pop(s.queue)].state != Pending && s.queue[cfg.pop(s.queue)].msg in s.socket
    ensures GoesOn(cfg, events, more) && Feasible(cfg, more) && Lossless(cfg, more)
    ensures var s, s' := After(cfg, events), After(cfg, more);
            s'.runner == Idle && !s'.paused && s'.queue == s.queue - {cfg.pop(s.queue)}
  {
    hide *;
    var s := After(cfg, events);
    var id := cfg.pop(s.queue);
    RunKeeps(cfg, events);
    SentMessage(cfg, s);
    MayAck(cfg, s, id);
    var a := OneLossless(cfg, events, AckArrives(id));
    AckedIdle(cfg, s);
    more := OneLossless(cfg, a, Process(false, true));
    GoesOnAgain(cfg, events, a, more);
  }

  lemma SentMessage(cfg: Config, s: Sink)
    requires ValidConfig(cfg) && QueueInv(cfg, s) && s.queue != map[] && s.queue[cfg.pop(s.queue)].msg in s.socket
    ensures exists m <- s.socket :: IdOf(m) == Some(cfg.pop(s.queue))
  {
    hide AsUpdate;
    assert IdOf(s.queue[cfg.pop(s.queue)].msg) == Some(cfg.pop(s.queue));
  }

  lemma AckedIdle(cfg: Config, s: Sink)
    requires ValidConfig(cfg) && QueueInv(cfg, s) && s.runner == Idle && !s.paused && s.queue != map[]
    requires s.queue[cfg.pop(s.queue)].state != Pending && s.queue[cfg.pop(s.queue)].msg in s.socket
    ensures var id, e := cfg.pop(s.queue), Process(false, true);
            var s1 := Apply(cfg, s, AckArrives(id));
            && Enabled(s1, e) && !Overflowing(cfg, s1, e) && !Abandons(cfg, s1, e)
            && var s2 := Apply(cfg, s1, e);
               s2.runner == Idle && !s2.paused && s2.queue == s.queue - {id}
  {
    hide Ops; hide AsUpdate; hide Overflows; hide Absorb;
    var id := cfg.pop(s.queue);
    var queue' := s.queue[id := s.queue[id].(state := Done, tx := None)];
    TopIsOldest(cfg, s.queue);
    DrainsAnyState(cfg, s.queue, id, Done, None);
    assert queue' - {id} == s.queue - {id};
  }

  lemma {:induction false} LosslessFrom(cfg: Config, events: seq<Event>) returns (more: seq<Event>)
    requires ValidConfig(cfg) && Feasible(cfg, events) && Lossless(cfg, events)
    requires var s := After(cfg, events);
             && s.runner == Idle && !s.paused && Drains(cfg, s.queue)
             && forall id <- s.queue :: s.queue[id].state == Pending
    ensures GoesOn(cfg, events, more) && Feasible(cfg, more) && Lossless(cfg, more) && After(cfg, more).queue == map[]
    decreases |After(cfg, events).queue|
  {
    hide Feasible; hide After; hide GoesOn; hide Lossless; hide Drains; hide ValidConfig;
    if After(cfg, events).queue == map[] {
      more := events;
      NoMore(cfg, events);
    } else {
      RunKeeps(cfg, events);
      HeadOf(cfg, After(cfg, events));
      var a := HeadLeaves(cfg, events);
      more := LosslessFrom(cfg, a);
      GoesOnAgain(cfg, events, a, more);
    }
  }

  lemma NoMore(cfg: Config, events: seq<Event>)
    requires ValidConfig(cfg) && Feasible(cfg, events)
    ensures GoesOn(cfg, events, events)
  {
  }

  /** An idle runner that is not paused, by an event that loses nothing. */
  lemma FreeLossless(cfg: Config, events: seq<Event>) returns (more: seq<Event>)
    requires ValidConfig(cfg) && Feasible(cfg, events) && Lossless(cfg, events)
    requires CanDrain(cfg, After(cfg, events)) && !After(cfg, events).paused
    ensures GoesOn(cfg, events, more) && Feasible(cfg, more) && Lossless(cfg, more) && CanDrain(cfg, After(cfg, more))
    ensures After(cfg, more).runner == Idle && !After(cfg, more).paused
  {
    hide Feasible; hide After; hide GoesOn; hide Lossless; hide ValidConfig; hide CanDrain; hide Apply; hide QueueInv;
    hide Overflowing; hide Abandons;
    RunKeeps(cfg, events);
    var s := After(cfg, events);
    if s.runner == Idle {
      more := events;
      NoMore(cfg, events);
    } else {
      var e := if s.runner.Waiting? then RunnerTimeout else RunnerAcked;
      RunnerKeeps(cfg, s, e);
      NotProcess(cfg, s, e);
      more := OneLossless(cfg, events, e);
      FreedCanDrain(cfg, s, e);
    }
  }

  lemma NotProcess(cfg: Config, s: Sink, e: Event)
    requires ValidConfig(cfg) && !e.Process?
    ensures !Overflowing(cfg, s, e)
  {
  }

  lemma FreedCanDrain(cfg: Config, s: Sink, e: Event)
    requires ValidConfig(cfg) && QueueInv(cfg, s) && Enabled(s, e) && CanDrain(cfg, s)
    requires e == RunnerTimeout || e == RunnerAcked
    ensures CanDrain(cfg, Apply(cfg, s, e))
    ensures Apply(cfg, s, e).runner == Idle && Apply(cfg, s, e).paused == s.paused
  {
    hide Ops; hide AsUpdate; hide Drains;
    SentHeadIsTop(cfg, s);
    OthersPending(cfg, s);
    var id := cfg.pop(s.queue);
    if e == RunnerTimeout {
      DrainsAnyState(cfg, s.queue, id, Timeout, s.queue[id].tx);
      assert s.queue[id := s.queue[id].(state := Timeout)] - {id} == s.queue - {id};
    } else if s.queue - {id} != map[] {
      OldestPending(cfg, s.queue, id);
    }
  }

  /** Exactly when a run of updates can go on to an empty queue with nothing lost, and so with every edit
      ever queued handed to the socket: nothing was lost so far, and the guard holds now. */
  lemma LosslessDrainIff(cfg: Config, events: seq<Event>)
    requires ValidConfig(cfg) && Feasible(cfg, events)
    ensures (exists more :: GoesOn(cfg, events, more) && After(cfg, more).queue == map[] && Lossless(cfg, more)) <==>
            Lossless(cfg, events) && CanDrain(cfg, After(cfg, events))
    ensures forall more | GoesOn(cfg, events, more) && After(cfg, more).queue == map[] && Lossless(cfg, more) ::
              SocketOps(cfg.yrs, After(cfg, more).socket) == Ever(cfg.yrs, events)
  {
    forall more | GoesOn(cfg, events, more) && After(cfg, more).queue == map[] && Lossless(cfg, more)
      ensures SocketOps(cfg.yrs, After(cfg, more).socket) == Ever(cfg.yrs, events)
    {
      AllHandedOver(cfg, events, more);
    }
    if more :| GoesOn(cfg, events, more) && After(cfg, more).queue == map[] && Lossless(cfg, more) {
      hide Feasible; hide After; hide GoesOn; hide Lossless;
      RunGainsNothing(cfg, events, more);
    }
    hide *;
    if Lossless(cfg, events) && CanDrain(cfg, After(cfg, events)) {
      var more := LosslessDrain(cfg, events);
      assert GoesOn(cfg, events, more) && After(cfg, more).queue == map[] && Lossless(cfg, more);
    }
  }

  lemma AllHandedOver(cfg: Config, events: seq<Event>, more: seq<Event>)
    requires ValidConfig(cfg) && GoesOn(cfg, events, more) && After(cfg, more).queue == map[] && Lossless(cfg, more)
    ensures SocketOps(cfg.yrs, After(cfg, more).socket) == Ever(cfg.yrs, events)
  {
    hide Ops; hide Feasible; hide After; hide Lossless;
    NothingNewQueued(cfg.yrs, events, more);
    NoEditLost(cfg, more);
    assert HeapOps(cfg.yrs, map[]) == {};
  }

  lemma LosslessDrain(cfg: Config, events: seq<Event>) returns (more: seq<Event>)
    requires ValidConfig(cfg) && Feasible(cfg, events) && Lossless(cfg, events)
    requires CanDrain(cfg, After(cfg, events))
    ensures GoesOn(cfg, events, more) && Feasible(cfg, more) && Lossless(cfg, more) && After(cfg, more).queue == map[]
  {
    hide *;
    MayPause(cfg, After(cfg, events));
    var a := OneLossless(cfg, events, SetPaused(false));
    var b := FreeLossless(cfg, a);
    GoesOnAgain(cfg, events, a, b);
    RunKeeps(cfg, b);
    var s := After(cfg, b);
    if s.queue == map[] {
      more := b;
    } else {
      CanDrainMeans(cfg, s);
      var d;
      if s.queue[cfg.pop(s.queue)].state == Pending
        || (s.queue[cfg.pop(s.queue)].state == Timeout && Drains(cfg, s.queue)) {
        d := HeadLeaves(cfg, b);
      } else {
        d := SentHeadLeaves(cfg, b);
      }
      GoesOnAgain(cfg, events, b, d);
      more := LosslessFrom(cfg, d);
      GoesOnAgain(cfg, events, d, more);
    }
  }

  lemma MayPause(cfg: Config, s: Sink)
    requires ValidConfig(cfg)
    ensures var e := SetPaused(false);
            && Enabled(s, e) && !Overflowing(cfg, s, e) && !Abandons(cfg, s, e) && !Apply(cfg, s, e).paused
            && !e.QueueUpdate? && !e.Process?
            && (CanDrain(cfg, s) ==> CanDrain(cfg, Apply(cfg, s, e)))
  {
    hide Drains;
  }

  lemma CanDrainMeans(cfg: Config, s: Sink)
    requires ValidConfig(cfg) && QueueInv(cfg, s) && CanDrain(cfg, s) && s.queue != map[] && s.runner == Idle
    ensures cfg.pop(s.queue) in s.queue
    ensures forall j <- s.queue - {cfg.pop(s.queue)} :: (s.queue - {cfg.pop(s.queue)})[j].state == Pending
    ensures var head := s.queue[cfg.pop(s.queue)];
            || (head.state == Pending && Drains(cfg, s.queue))
            || (head.state == Timeout && Drains(cfg, s.queue))
            || (head.state != Pending && head.msg in s.socket && Drains(cfg, s.queue - {cfg.pop(s.queue)}))
  {
    hide Drains; hide Ops; hide AsUpdate;
    OthersPending(cfg, s);
  }

  // ---------------------------------------------------------------- later messages, other heaps

  /** A message queued later does not become the head. */
  lemma SameFirst(cfg: Config, queue: Queue, id: MsgId, p: PendingMessage)
    requires ValidConfig(cfg) && UpdatesOnly(cfg.yrs, queue[id := p]) && queue != map[] && forall j <- queue :: j < id
    ensures UpdatesOnly(cfg.yrs, queue)
    ensures var first := cfg.pop(queue);
            && cfg.pop(queue[id := p]) == first && first in queue && first != id
            && queue[id := p][first] == queue[first]
            && queue[id := p] - {first} == (queue - {first})[id := p]
            && |queue - {first}| < |queue|
  {
    hide AsUpdate;
    TopIsOldest(cfg, queue[id := p]);
    assert forall j <- queue :: j in queue[id := p] && queue[id := p][j] == queue[j];
    TopIsOldest(cfg, queue);
    var rest := queue - {cfg.pop(queue)};
    assert rest.Keys == queue.Keys - {cfg.pop(queue)} && |rest.Keys| < |queue.Keys|;
  }

  /** A message queued later does not make the merges before it stop earlier. */
  lemma {:induction false} LaterMessage(cfg: Config, head: CollabMessage, queue: Queue, id: MsgId, p: PendingMessage)
    requires ValidConfig(cfg) && IsUpdate(cfg.yrs, head) && UpdatesOnly(cfg.yrs, queue[id := p])
    requires forall j <- queue :: j < id
    requires !Overflows(cfg, head, queue[id := p])
    ensures !Overflows(cfg, head, queue)
    ensures var out, out' := MergeLoop(cfg, head, queue), MergeLoop(cfg, head, queue[id := p]);
            out.queue == map[] || (out'.head == out.head && out'.queue == out.queue[id := p])
    decreases |queue|
  {
    hide AsUpdate;
    if queue != map[] {
      SameFirst(cfg, queue, id, p);
      var first := cfg.pop(queue);
      var rest := queue - {first};
      MergeHalts(cfg, head, queue[first].msg);
      MergeMeaning(cfg.yrs, cfg.maximumPayloadSize, head, queue[first].msg);
      var r := Merge(cfg.yrs, cfg.maximumPayloadSize, head, queue[first].msg);
      hide Merge;
      if r.Continue? {
        LaterMessage(cfg, r.merged, rest, id, p);
      }
    }
  }

  lemma LeftWithLater(cfg: Config, queue: Queue, left: Queue, id: MsgId, p: PendingMessage)
    requires UpdatesOnly(cfg.yrs, queue[id := p]) && (forall j <- queue :: j < id)
    requires forall j <- left :: j in queue && left[j] == queue[j]
    ensures UpdatesOnly(cfg.yrs, left[id := p]) && forall j <- left :: j < id
  {
    hide AsUpdate;
    var more, whole := left[id := p], queue[id := p];
    assert forall j <- more :: j in whole && more[j] == whole[j];
  }

  /** So a message queued later does not make a drain possible. */
  lemma {:induction false} DrainsWithLess(cfg: Config, queue: Queue, id: MsgId, p: PendingMessage)
    requires ValidConfig(cfg) && UpdatesOnly(cfg.yrs, queue[id := p]) && forall j <- queue :: j < id
    requires Drains(cfg, queue[id := p])
    ensures Drains(cfg, queue)
    decreases |queue|
  {
    if queue != map[] {
      SameFirst(cfg, queue, id, p);
      DrainsIs(cfg, queue);
      DrainsIs(cfg, queue[id := p]);
      hide Drains; hide MergeLoop; hide Overflows; hide ValidConfig; hide IsTop; hide AsUpdate;
      var first := cfg.pop(queue);
      var head, rest := queue[first].msg, queue - {first};
      assert forall j <- rest :: j < id;
      LaterMessage(cfg, head, rest, id, p);
      MergeLoopShrinks(cfg, head, rest);
      var left := MergeLoop(cfg, head, rest).queue;
      MergeLoopConserves(cfg, head, rest);
      hide UpdatesOnly; hide Ops; hide HeapOps;
      LeftWithLater(cfg, queue, left, id, p);
      if left == map[] {
        NothingDrains(cfg);
      } else {
        DrainsWithLess(cfg, left, id, p);
      }
    }
  }

  lemma NothingDrains(cfg: Config)
    requires ValidConfig(cfg)
    ensures Drains(cfg, map[])
  {
  }

  /** Among updates there is one oldest, so it does not matter how a heap chooses. */
  lemma SameHead(cfg: Config, other: Config, queue: Queue)
    requires ValidConfig(cfg) && ValidConfig(other) && UpdatesOnly(cfg.yrs, queue) && queue != map[]
    ensures cfg.pop(queue) == other.pop(queue)
  {
    TopIsOldest(cfg, queue);
    assert IsTop(queue, other.pop(queue));
  }

  lemma {:induction false} SameMerges(cfg: Config, other: Config, head: CollabMessage, queue: Queue)
    requires ValidConfig(cfg) && ValidConfig(other) && other == cfg.(pop := other.pop)
    requires IsUpdate(cfg.yrs, head) && UpdatesOnly(cfg.yrs, queue)
    ensures MergeLoop(cfg, head, queue) == MergeLoop(other, head, queue)
    ensures Overflows(cfg, head, queue) <==> Overflows(other, head, queue)
    decreases |queue|
  {
    hide AsUpdate;
    if queue != map[] {
      SameHead(cfg, other, queue);
      TopIsOldest(cfg, queue);
      var id := cfg.pop(queue);
      var rest := queue - {id};
      MergeMeaning(cfg.yrs, cfg.maximumPayloadSize, head, queue[id].msg);
      var r := Merge(cfg.yrs, cfg.maximumPayloadSize, head, queue[id].msg);
      hide Merge;
      if r.Continue? {
        assert rest.Keys == queue.Keys - {id} && |rest.Keys| < |queue.Keys|;
        SameMerges(cfg, other, r.merged, rest);
      }
    }
  }

  lemma {:induction false} SameDrains(cfg: Config, other: Config, queue: Queue)
    requires ValidConfig(cfg) && ValidConfig(other) && other == cfg.(pop := other.pop) && UpdatesOnly(cfg.yrs, queue)
    ensures Drains(cfg, queue) <==> Drains(other, queue)
    decreases |queue|
  {
    hide AsUpdate;
    if queue != map[] {
      SameHead(cfg, other, queue);
      TopIsOldest(cfg, queue);
      var id := cfg.pop(queue);
      var head, rest := queue[id].msg, queue - {id};
      SameMerges(cfg, other, head, rest);
      MergeLoopShrinks(cfg, head, rest);
      MergeLoopConserves(cfg, head, rest);
      hide MergeLoop; hide Overflows; hide Ops; hide HeapOps;
      assert rest.Keys == queue.Keys - {id} && |rest.Keys| < |queue.Keys|;
      SameDrains(cfg, other, MergeLoop(cfg, head, rest).queue);
    }
  }
}
