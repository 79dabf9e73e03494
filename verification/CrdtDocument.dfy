/** The abstraction of a yrs document: the set of operations it has received. An operation is named
    by its author and the author's clock. Operations after a gap in an author's clock are kept but
    not integrated; the state vector counts the integrated ones. */
module CrdtDocument {
  type Author = nat

  datatype Op = Op(author: Author, clock: nat)

  type Update = set<Op>

  type StateVector = map<Author, nat>

  function OpsFrom(doc: set<Op>, a: Author, k: nat): set<Op> {
    set op | op in doc && op.author == a && op.clock >= k
  }

  /** The first clock at or after `k` that author `a` has no operation for in `doc`. */
  function NextClock(doc: set<Op>, a: Author, k: nat): (n: nat)
    ensures n >= k && Op(a, n) !in doc
    ensures forall i | k <= i < n :: Op(a, i) in doc
    decreases OpsFrom(doc, a, k)
  {
    if Op(a, k) !in doc then k
    else
      assert Op(a, k) in OpsFrom(doc, a, k) && Op(a, k) !in OpsFrom(doc, a, k + 1);
      assert OpsFrom(doc, a, k + 1) < OpsFrom(doc, a, k);
      NextClock(doc, a, k + 1)
  }

  function Authors(doc: set<Op>): set<Author> {
    set op | op in doc :: op.author
  }

  /** state_vector(): for each author, how many operations are integrated. */
  function StateVectorOf(doc: set<Op>): StateVector {
    map a | a in Authors(doc) :: NextClock(doc, a, 0)
  }

  function Known(sv: StateVector, a: Author): nat {
    if a in sv then sv[a] else 0
  }

  /** encode_state_as_update_v1(sv): every received operation the state vector does not count. */
  function EncodeStateAsUpdate(doc: set<Op>, sv: StateVector): Update {
    set op | op in doc && Known(sv, op.author) <= op.clock
  }

  /** The operations with no gap before them. */
  function Integrated(doc: set<Op>): set<Op> {
    set op | op in doc && op.clock < NextClock(doc, op.author, 0)
  }

  ghost predicate Contiguous(doc: set<Op>) {
    Integrated(doc) == doc
  }

  /** Every operation the state vector counts is in `doc`. */
  ghost predicate Below(sv: StateVector, doc: set<Op>) {
    forall op: Op | op.clock < Known(sv, op.author) :: op in doc
  }

  lemma StateVectorBelow(doc: set<Op>)
    ensures Below(StateVectorOf(doc), doc)
  {
    forall op: Op | op.clock < Known(StateVectorOf(doc), op.author)
      ensures op in doc
    {
      assert Op(op.author, op.clock) == op;
    }
  }

  /** A difference taken against a state vector covers everything its owner lacks. */
  lemma EncodeCovers(doc: set<Op>, sv: StateVector, other: set<Op>)
    requires Below(sv, other)
    ensures doc <= other + EncodeStateAsUpdate(doc, sv)
    ensures EncodeStateAsUpdate(doc, sv) <= doc
  {
  }

  lemma IntegratedMeaning(doc: set<Op>, op: Op)
    ensures op in Integrated(doc) <==> forall k: nat | k <= op.clock :: Op(op.author, k) in doc
  {
    var n := NextClock(doc, op.author, 0);
    assert Op(op.author, op.clock) == op;
    assert n <= op.clock ==> Op(op.author, n) !in doc;
  }

  lemma KnownCountsIntegrated(doc: set<Op>, op: Op)
    ensures op.clock < Known(StateVectorOf(doc), op.author) <==> op in Integrated(doc)
  {
    assert Op(op.author, op.clock) == op;
    if op.clock < Known(StateVectorOf(doc), op.author) {
      assert op in doc;
    }
  }

  /** The state vector counts exactly the operations the document has integrated. */
  ghost predicate Counts(sv: StateVector, doc: set<Op>) {
    forall op: Op :: op.clock < Known(sv, op.author) <==> op in Integrated(doc)
  }

  lemma StateVectorCounts(doc: set<Op>)
    ensures Counts(StateVectorOf(doc), doc)
  {
    forall op: Op ensures op.clock < Known(StateVectorOf(doc), op.author) <==> op in Integrated(doc) {
      KnownCountsIntegrated(doc, op);
    }
  }

  /** A difference against such a state vector is what the other side has not integrated. */
  lemma DifferenceIsRest(doc: set<Op>, sv: StateVector, other: set<Op>)
    requires Counts(sv, other)
    ensures EncodeStateAsUpdate(doc, sv) == doc - Integrated(other)
  {
    hide Integrated; hide Known;
    forall op | op in doc ensures op in EncodeStateAsUpdate(doc, sv) <==> op !in Integrated(other) {
      assert op.clock < Known(sv, op.author) <==> op in Integrated(other);
    }
  }

  /** On contiguous documents the clock-based difference is the set difference. In general it also
      repeats the operations the other side holds after a gap, and nothing else. */
  lemma EncodeIsDifference(doc: set<Op>, other: set<Op>)
    ensures EncodeStateAsUpdate(doc, StateVectorOf(other)) == doc - Integrated(other)
    ensures EncodeStateAsUpdate(doc, StateVectorOf(other)) == doc - other <==> doc * other <= Integrated(other)
  {
    forall op | op in doc
      ensures op in EncodeStateAsUpdate(doc, StateVectorOf(other)) <==> op !in Integrated(other)
    {
      KnownCountsIntegrated(other, op);
    }
    var d := EncodeStateAsUpdate(doc, StateVectorOf(other));
    assert d == doc - Integrated(other);
    if d == doc - other {
      forall op | op in doc * other ensures op in Integrated(other) {
        assert op !in d;
      }
    }
  }
}
