/** Ids of 64 bits: the milliseconds since the generator's epoch, the node, and a sequence within a
    millisecond. A clock reading is given from that epoch on. */
module Snowflake {
  import opened Common

  type Word = bv64

  const SEQUENCE_MASK: Word := 0xFFF
  const NODES: Word := 1024
  const SPAN: Word := 0x200_0000_0000   // 2 to the 41

  datatype State = State(nodeId: Word, sequence: Word, lastTimestamp: Option<Word>)

  function NewState(nodeId: Word): State {
    State(nodeId, 0, None)
  }

  function Compose(offset: Word, node: Word, sequence: Word): Word {
    (offset << 22) | (node << 12) | sequence
  }

  /** The sequence number of the next call. */
  function NextSequence(s: State, timestamp: Word): Word {
    if s.lastTimestamp == Some(timestamp) then (s.sequence + 1) & SEQUENCE_MASK else 0
  }

  /** next_id for the clock's first reading; the waiting loop changes nothing. */
  function Next(s: State, timestamp: Word): State {
    State(s.nodeId, NextSequence(s, timestamp), Some(timestamp))
  }

  /** The id of the call that led to this state. */
  function IdOf(s: State): Word
    requires s.lastTimestamp.Some?
  {
    Compose(s.lastTimestamp.value, s.nodeId, s.sequence)
  }

  // Named so that most proofs need not look at bits.

  predicate InSpan(timestamp: Word) { timestamp < SPAN }

  predicate InNodes(node: Word) { node < NODES }

  predicate InSequence(sequence: Word) { sequence <= SEQUENCE_MASK }

  predicate Less(a: Word, b: Word) { a < b }

  predicate Sound(s: State) {
    InNodes(s.nodeId) && InSequence(s.sequence) && (s.lastTimestamp.Some? ==> InSpan(s.lastTimestamp.value))
  }

  // ---------------------------------------------------------------- one id

  /** An id is not negative as a signed word, and its three parts can be read back. */
  lemma IdDecodes(offset: Word, node: Word, sequence: Word)
    requires offset < SPAN && node < NODES && sequence <= SEQUENCE_MASK
    ensures var id := Compose(offset, node, sequence);
            id >> 63 == 0 && id >> 22 == offset && (id >> 12) & 0x3FF == node && id & SEQUENCE_MASK == sequence
  {
  }

  lemma HighBitsDecide(a: Word, b: Word)
    ensures a >> 22 < b >> 22 ==> a < b
  {
  }

  lemma LowBitsDecide(high: Word, sequence: Word, sequence': Word)
    requires high & SEQUENCE_MASK == 0 && sequence <= SEQUENCE_MASK && sequence' <= SEQUENCE_MASK
    ensures sequence < sequence' ==> high | sequence < high | sequence'
  {
  }

  lemma HighPartIsHigh(offset: Word, node: Word)
    ensures ((offset << 22) | (node << 12)) & SEQUENCE_MASK == 0
  {
  }

  /** A later millisecond gives a larger id. */
  lemma LaterMillisecond(offset: Word, sequence: Word, offset': Word, sequence': Word, node: Word)
    requires InSpan(offset) && InSpan(offset') && InNodes(node) && InSequence(sequence) && InSequence(sequence')
    requires Less(offset, offset')
    ensures Less(Compose(offset, node, sequence), Compose(offset', node, sequence'))
  {
    hide Compose;
    IdDecodes(offset, node, sequence);
    IdDecodes(offset', node, sequence');
    HighBitsDecide(Compose(offset, node, sequence), Compose(offset', node, sequence'));
  }

  /** So does a later call of the same one. */
  lemma LaterCall(offset: Word, sequence: Word, sequence': Word, node: Word)
    requires InSequence(sequence) && InSequence(sequence') && Less(sequence, sequence')
    ensures Less(Compose(offset, node, sequence), Compose(offset, node, sequence'))
  {
    HighPartIsHigh(offset, node);
    LowBitsDecide((offset << 22) | (node << 12), sequence, sequence');
  }

  /** The sequence wraps in a millisecond. */
  predicate Wraps(s: State, timestamp: Word) {
    s.lastTimestamp == Some(timestamp) && s.sequence == SEQUENCE_MASK
  }

  lemma NextSequenceGrows(s: State, timestamp: Word)
    requires InSequence(s.sequence) && s.lastTimestamp == Some(timestamp)
    ensures if Wraps(s, timestamp) then NextSequence(s, timestamp) == 0
        else Less(s.sequence, NextSequence(s, timestamp))
  {
  }

  lemma SequenceInMask(s: State, timestamp: Word)
    ensures InSequence(NextSequence(s, timestamp))
  {
  }

  lemma LessIsOrder(a: Word, b: Word)
    requires Less(a, b)
    ensures !Less(b, a) && a != b
  {
  }

  lemma LessTransitive(a: Word, b: Word, c: Word)
    requires Less(a, b) && Less(b, c)
    ensures Less(a, c)
  {
  }

  /** A call gives a larger id than the one before exactly when the sequence does not wrap. */
  lemma NextIsLargerIff(s: State, timestamp: Word)
    requires Sound(s) && s.lastTimestamp.Some? && InSpan(timestamp)
    requires Less(s.lastTimestamp.value, timestamp) || s.lastTimestamp.value == timestamp
    ensures Sound(Next(s, timestamp))
    ensures Less(IdOf(s), IdOf(Next(s, timestamp))) <==> !Wraps(s, timestamp)
  {
    hide Compose; hide NextSequence; hide InSpan; hide InNodes; hide InSequence; hide Less; hide Wraps;
    var s' := Next(s, timestamp);
    SequenceInMask(s, timestamp);
    var last := s.lastTimestamp.value;
    if timestamp == last {
      NextSequenceGrows(s, timestamp);
      if Wraps(s, timestamp) {
        WrapIsNotLarger(s, timestamp);
        LessIsOrder(IdOf(s'), IdOf(s));
      } else {
        LaterCall(last, s.sequence, s'.sequence, s.nodeId);
      }
    } else {
      LaterMillisecond(last, s.sequence, timestamp, s'.sequence, s.nodeId);
      assert !Wraps(s, timestamp) by { NoWrapLater(s, timestamp); }
    }
  }

  lemma NoWrapLater(s: State, timestamp: Word)
    requires s.lastTimestamp != Some(timestamp)
    ensures !Wraps(s, timestamp)
  {
  }

  lemma WrapIsNotLarger(s: State, timestamp: Word)
    requires Sound(s) && Wraps(s, timestamp)
    ensures Less(IdOf(Next(s, timestamp)), IdOf(s))
  {
    hide Compose;
    NextSequenceGrows(s, timestamp);
    LaterCall(timestamp, 0, s.sequence, s.nodeId);
  }

  // ---------------------------------------------------------------- runs

  /** The state after the first n calls of a run. */
  function After(node: Word, ts: seq<Word>, n: nat): State
    requires n <= |ts|
  {
    if n == 0 then NewState(node) else Next(After(node, ts, n - 1), ts[n - 1])
  }

  /** The id of the i-th call. */
  function Id(node: Word, ts: seq<Word>, i: nat): Word
    requires i < |ts|
  {
    Compose(ts[i], After(node, ts, i + 1).nodeId, After(node, ts, i + 1).sequence)
  }

  ghost predicate Clock(ts: seq<Word>) {
    && (forall i | 0 <= i < |ts| :: InSpan(ts[i]))
    && (forall i | 0 < i < |ts| :: Less(ts[i - 1], ts[i]) || ts[i - 1] == ts[i])
  }

  lemma {:induction false} AfterSound(node: Word, ts: seq<Word>, n: nat)
    requires InNodes(node) && Clock(ts) && n <= |ts|
    ensures Sound(After(node, ts, n)) && After(node, ts, n).nodeId == node
    ensures After(node, ts, n).lastTimestamp == if n == 0 then None else Some(ts[n - 1])
  {
    hide Compose; hide InSpan; hide InNodes; hide InSequence; hide Less; hide NextSequence;
    if n == 0 {
      ZeroInSequence();
    } else {
      AfterSound(node, ts, n - 1);
      SequenceInMask(After(node, ts, n - 1), ts[n - 1]);
    }
  }

  lemma ZeroInSequence()
    ensures InSequence(0)
  {
  }

  ghost predicate NoWrap(node: Word, ts: seq<Word>) {
    forall i | 0 < i < |ts| :: !Wraps(After(node, ts, i), ts[i])
  }

  ghost predicate StrictlyIncreasing(node: Word, ts: seq<Word>) {
    forall i, j | 0 <= i < j < |ts| :: Less(Id(node, ts, i), Id(node, ts, j))
  }

  /** Each call's id against the one before. */
  lemma NextIdIsLargerIff(node: Word, ts: seq<Word>, j: nat)
    requires InNodes(node) && Clock(ts) && 0 < j < |ts|
    ensures Less(Id(node, ts, j - 1), Id(node, ts, j)) <==> !Wraps(After(node, ts, j), ts[j])
  {
    hide Compose; hide Wraps; hide InSpan; hide InNodes; hide InSequence; hide Less; hide NextSequence;
    AfterSound(node, ts, j);
    NextIsLargerIff(After(node, ts, j), ts[j]);
  }

  lemma {:induction false} IdsIncrease(node: Word, ts: seq<Word>, i: nat, j: nat)
    requires InNodes(node) && Clock(ts) && NoWrap(node, ts) && i < j < |ts|
    ensures Less(Id(node, ts, i), Id(node, ts, j))
    decreases j
  {
    assert !Wraps(After(node, ts, j), ts[j]);
    hide *;
    NextIdIsLargerIff(node, ts, j);
    if i < j - 1 {
      IdsIncrease(node, ts, i, j - 1);
      LessTransitive(Id(node, ts, i), Id(node, ts, j - 1), Id(node, ts, j));
    }
  }

  /** The ids of a run grow, and so never repeat, exactly when no millisecond's sequence wraps. */
  lemma IdsIncreaseIff(node: Word, ts: seq<Word>)
    requires InNodes(node) && Clock(ts)
    ensures StrictlyIncreasing(node, ts) <==> NoWrap(node, ts)
  {
    hide Compose; hide Wraps; hide InSpan; hide InNodes; hide InSequence; hide Less; hide NextSequence;
    if NoWrap(node, ts) {
      forall i, j | 0 <= i < j < |ts| ensures Less(Id(node, ts, i), Id(node, ts, j)) {
        IdsIncrease(node, ts, i, j);
      }
    }
    if StrictlyIncreasing(node, ts) {
      forall i | 0 < i < |ts| ensures !Wraps(After(node, ts, i), ts[i]) {
        NextIdIsLargerIff(node, ts, i);
        assert Less(Id(node, ts, i - 1), Id(node, ts, i));
      }
    }
  }

  /** Every id of a run is non-negative and tells its millisecond, node and sequence. */
  lemma RunIdsDecode(node: Word, ts: seq<Word>, i: nat)
    requires InNodes(node) && Clock(ts) && i < |ts|
    ensures var id := Id(node, ts, i);
            && id >> 63 == 0 && id >> 22 == ts[i] && (id >> 12) & 0x3FF == node
            && id & SEQUENCE_MASK == After(node, ts, i + 1).sequence
  {
    hide Compose;
    AfterSound(node, ts, i + 1);
    IdDecodes(ts[i], node, After(node, ts, i + 1).sequence);
  }

  /** Two nodes never give the same id. */
  lemma NodesDoNotClash(node: Word, ts: seq<Word>, i: nat, node': Word, ts': seq<Word>, i': nat)
    requires InNodes(node) && Clock(ts) && i < |ts| && InNodes(node') && Clock(ts') && i' < |ts'|
    requires node != node'
    ensures Id(node, ts, i) != Id(node', ts', i')
  {
    hide IdOf;
    RunIdsDecode(node, ts, i);
    RunIdsDecode(node', ts', i');
  }

  /** The family where it fails: when the sequence wraps, the call waits for the next millisecond
      but keeps the old one, so its id is that of the millisecond's first call. */
  lemma WrapRepeatsTheFirstId(node: Word, ts: seq<Word>, first: nat, i: nat)
    requires InNodes(node) && Clock(ts) && first < i < |ts|
    requires (first == 0 || ts[first - 1] != ts[first]) && ts[first] == ts[i]
    requires Wraps(After(node, ts, i), ts[i])
    ensures Id(node, ts, i) == Id(node, ts, first)
  {
    hide Compose;
    AfterSound(node, ts, i);
    AfterSound(node, ts, i + 1);
    AfterSound(node, ts, first);
    AfterSound(node, ts, first + 1);
    NextSequenceGrows(After(node, ts, i), ts[i]);
  }

  // ---------------------------------------------------------------- the generator

  class Generator {
    var nodeId: Word
    var sequence: Word
    var lastTimestamp: Option<Word>

    constructor (node: Word)
      ensures Value() == NewState(node)
    {
      nodeId, sequence, lastTimestamp := node, 0, None;
    }

    ghost function Value(): State
      reads this
    {
      State(nodeId, sequence, lastTimestamp)
    }

    /** next_id. `timestamp` is the clock's first reading and `later` those of the waiting loop,
        which ends at the first that differs. */
    method NextId(timestamp: Word, later: seq<Word>) returns (r: Result<Word, string>)
      requires exists t <- later :: Some(t) != lastTimestamp
      modifies this
      ensures old(lastTimestamp).Some? && Less(timestamp, old(lastTimestamp).value) ==>
          r.Failure? && Value() == old(Value())
      ensures !(old(lastTimestamp).Some? && Less(timestamp, old(lastTimestamp).value)) ==>
                Value() == Next(old(Value()), timestamp) && r == Success(IdOf(Value()))
    {
      hide Compose; hide Less;
      if lastTimestamp.Some? && Less(timestamp, lastTimestamp.value) {
        return Failure("Clock moved backwards!");
      }
      if lastTimestamp == Some(timestamp) {
        sequence := (sequence + 1) & SEQUENCE_MASK;
        if sequence == 0 {
          WaitNextMillis(later);
        }
      } else {
        sequence := 0;
      }
      lastTimestamp := Some(timestamp);
      r := Success(Compose(timestamp, nodeId, sequence));
    }

    /** wait_next_millis: reads the clock until it moves, and changes nothing. */
    method WaitNextMillis(later: seq<Word>)
      requires exists t <- later :: Some(t) != lastTimestamp
    {
      var i := 0;
      while Some(later[i]) == lastTimestamp
        invariant 0 <= i < |later|
        invariant exists k | i <= k < |later| :: Some(later[k]) != lastTimestamp
        decreases |later| - i
      {
        i := i + 1;
      }
    }
  }
}
