/** What is assumed of the document library and of the heap can be met: a library that writes an update as
    one byte for each operation, and a heap that returns some greatest message. */
module SomeLibrary {
  import opened Common
  import opened MessageCodec
  import opened SendQueue
  import opened SendQueueRuns
  import opened SendQueueRefinement
  import opened SyncSteps
  import M = SyncMachine

  function Meant(all: seq<Op>, b: Bytes): set<Op> {
    set i | 0 <= i < |all| && i < |b| && b[i] == 1 :: all[i]
  }

  function Written(all: seq<Op>, u: set<Op>): Bytes {
    seq(|all|, i requires 0 <= i < |all| => if all[i] in u then 1 else 0)
  }

  lemma ReadsBack(all: seq<Op>, u: set<Op>)
    requires forall op <- u :: op in all
    ensures Meant(all, Written(all, u)) == u
  {
    forall op <- u ensures op in Meant(all, Written(all, u)) {
      var i :| 0 <= i < |all| && all[i] == op;
      assert Written(all, u)[i] == 1;
    }
  }

  lemma OnlyThese(all: seq<Op>, b: Bytes)
    ensures forall op <- Meant(all, b) :: op in all
  {
  }

  function YrsOf(all: seq<Op>): Yrs {
    Yrs(Library(_ => None, _ => None), (l, r) => Some(Written(all, Meant(all, l) + Meant(all, r))), b => Meant(all, b))
  }

  lemma IsLawful(all: seq<Op>)
    requires |all| < U32
    ensures Lawful(YrsOf(all))
  {
    var yrs := YrsOf(all);
    forall l, r
      ensures |yrs.merge(l, r).value| < U32 && yrs.meaning(yrs.merge(l, r).value) == yrs.meaning(l) + yrs.meaning(r)
    {
      OnlyThese(all, l);
      OnlyThese(all, r);
      ReadsBack(all, Meant(all, l) + Meant(all, r));
    }
  }

  function ItemOf(all: seq<Op>, m: CollabMessage): M.Item {
    match m
    case ClientUpdateSync(_, _) => M.UpdateSync(Ops(YrsOf(all), m))
    case ClientInitSync(_, payload) => M.InitSync(M.CrdtDocument.StateVectorOf(Meant(all, payload)))
    case _ => M.ServerInit(Meant(all, m.payload))
  }

  /** Every heap that holds something has a greatest message. */
  lemma {:induction false} HasTop(queue: Queue) returns (id: MsgId)
    requires queue != map[]
    ensures IsTop(queue, id)
    decreases |queue|
  {
    var first :| first in queue;
    var rest := queue - {first};
    assert rest.Keys == queue.Keys - {first} && |rest.Keys| < |queue.Keys|;
    OrderIsTotalPreorder(queue[first].msg, queue[first].msg, queue[first].msg);
    hide Cmp;
    if rest == map[] {
      id := first;
      assert forall j <- queue :: j == first;
    } else {
      var top := HasTop(rest);
      id := if Cmp(queue[first].msg, queue[top].msg) >= 0 then first else top;
      forall j <- queue ensures Cmp(queue[id].msg, queue[j].msg) >= 0 {
        OrderIsTotalPreorder(queue[first].msg, queue[top].msg, queue[j].msg);
        OrderIsTotalPreorder(queue[top].msg, queue[first].msg, queue[j].msg);
        if j != first { assert j in rest && rest[j] == queue[j]; }
      }
    }
  }

  ghost function SomeTop(queue: Queue): (id: MsgId)
    ensures queue != map[] ==> IsTop(queue, id)
  {
    if queue == map[] then 0
    else
      assert exists id: MsgId :: IsTop(queue, id) by { var id := HasTop(queue); }
      var id: MsgId :| IsTop(queue, id); id
  }

  ghost function WorldOf(all: seq<Op>, max: nat): World {
    World(Config(YrsOf(all), max, queue => SomeTop(queue)), m => ItemOf(all, m), set op | op in all)
  }

  function UpdateMessage(all: seq<Op>, id: MsgId, u: set<Op>): CollabMessage {
    ClientUpdateSync(id, UpdatePayload(Written(all, u)))
  }

  lemma UpdateReads(all: seq<Op>, id: MsgId, u: set<Op>)
    requires |all| < U32 && forall op <- u :: op in all
    ensures var m := UpdateMessage(all, id, u);
            && IsUpdate(YrsOf(all), m) && ItemOf(all, m) == M.UpdateSync(u)
            && AsUpdate(YrsOf(all), m.payload) == Some(Written(all, u))
  {
    UpdatePayloadReadsBack(YrsOf(all), Written(all, u));
    ReadsBack(all, u);
    hide AsUpdate;
  }

  lemma CanWrite(all: seq<Op>, max: nat, id: MsgId, u: set<Op>)
    requires |all| < U32 && u <= WorldOf(all, max).ops
    ensures var w := WorldOf(all, max);
            && Writable(w, id, M.UpdateSync(u)) && Writable(w, id, M.ServerInit(u))
            && Writable(w, id, M.InitSync(M.CrdtDocument.StateVectorOf(u)))
  {
    var w := WorldOf(all, max);
    UpdateReads(all, id, u);
    ReadsBack(all, u);
    hide AsUpdate; hide UpdatePayload; hide Written; hide Meant; hide SomeTop;
    assert ClientMessage(w.cfg.yrs, UpdateMessage(all, id, u), id);
    assert ClientMessage(w.cfg.yrs, ServerInitSync(id, Written(all, u)), id);
    assert ClientMessage(w.cfg.yrs, ClientInitSync(id, Written(all, u)), id);
  }

  lemma CanMerge(all: seq<Op>, max: nat, id: MsgId, u: set<Op>, v: set<Op>)
    requires |all| < U32 && u <= WorldOf(all, max).ops && v <= WorldOf(all, max).ops
    requires |UpdateMessage(all, id, u).payload| <= max
    ensures Merge(YrsOf(all), max, UpdateMessage(all, id, u), UpdateMessage(all, id + 1, v)).Continue?
  {
    UpdateReads(all, id, u);
    UpdateReads(all, id + 1, v);
    hide AsUpdate; hide UpdatePayload; hide Written; hide Meant;
  }

  /** For any operations there is a sound world whose library can write them, and in which two updates
      merge when the first is within the limit. */
  lemma SoundWorldsExist(all: seq<Op>, max: nat)
    requires |all| < U32
    ensures var w := WorldOf(all, max);
            && Sound(w) && w.ops == (set op | op in all) && w.cfg.maximumPayloadSize == max
            && forall id: MsgId, u, v | u <= w.ops && v <= w.ops && |UpdateMessage(all, id, u).payload| <= max ::
                 Merge(w.cfg.yrs, max, UpdateMessage(all, id, u), UpdateMessage(all, id + 1, v)).Continue?
  {
    var w := WorldOf(all, max);
    IsLawful(all);
    assert ValidConfig(w.cfg);
    hide AsUpdate; hide UpdatePayload; hide Written; hide Meant; hide Merge; hide ValidConfig; hide Writable;
    assert Reads(w.cfg.yrs, w.item);
    hide Reads;
    forall id: MsgId, u | u <= w.ops
      ensures Writable(w, id, M.UpdateSync(u)) && Writable(w, id, M.ServerInit(u))
              && Writable(w, id, M.InitSync(M.CrdtDocument.StateVectorOf(u)))
    {
      CanWrite(all, max, id, u);
    }
    forall id: MsgId, u, v | u <= w.ops && v <= w.ops && |UpdateMessage(all, id, u).payload| <= max
      ensures Merge(w.cfg.yrs, max, UpdateMessage(all, id, u), UpdateMessage(all, id + 1, v)).Continue?
    {
      CanMerge(all, max, id, u, v);
    }
  }
}
