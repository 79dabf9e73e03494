/** Reading many documents at once: validation, the open documents, then one query for each type. */
module BatchQuery {
  import opened Common

  type Type = int

  datatype Query = Query(objectId: string, collabType: Type)

  datatype QueryResult = Loaded(encodedCollab: Bytes) | Failed(error: string)

  const INVALID := "should not be empty string"
  const NOT_FOUND := "Record not found"

  /** An open document: its weak reference may be dead, and encoding it may fail. */
  datatype Live = Dead | Encodes(bytes: Bytes) | EncodeFails

  /** The rows of af_collab that are not deleted, by object and partition. */
  type Stored = map<(string, Type), Bytes>

  datatype World = World(live: map<string, Live>, stored: Stored)

  predicate Valid(q: Query) {
    q.objectId != ""
  }

  predicate FromMemory(w: World, q: Query) {
    q.objectId in w.live && w.live[q.objectId].Encodes?
  }

  /** The answer to one query by itself. */
  function Answer(w: World, q: Query): QueryResult {
    if !Valid(q) then Failed(INVALID)
    else if FromMemory(w, q) then Loaded(w.live[q.objectId].bytes)
    else if (q.objectId, q.collabType) in w.stored then Loaded(w.stored[(q.objectId, q.collabType)])
    else Failed(NOT_FOUND)
  }

  /** Whether a query reaches a type's SQL query. */
  predicate Falls(w: World, q: Query) {
    Valid(q) && !FromMemory(w, q)
  }

  // ---------------------------------------------------------------- the database's part

  type Groups = map<Type, seq<string>>

  /** WHERE oid = ANY(ids) AND partition_key = t: each row once. */
  function Select(stored: Stored, ids: seq<string>, t: Type): map<string, Bytes> {
    map oid | oid in ids && (oid, t) in stored :: stored[(oid, t)]
  }

  /** The grouping loop of batch_select_collab_blob. */
  method GroupByType(queries: seq<Query>) returns (groups: Groups)
    ensures forall q <- queries :: q.collabType in groups && q.objectId in groups[q.collabType]
    ensures forall t <- groups, oid <- groups[t] :: Query(oid, t) in queries
  {
    groups := map[];
    for i := 0 to |queries|
      invariant forall q <- queries[..i] :: q.collabType in groups && q.objectId in groups[q.collabType]
      invariant forall t <- groups, oid <- groups[t] :: Query(oid, t) in queries[..i]
    {
      var params := queries[i];
      assert queries[..i + 1] == queries[..i] + [params];
      if params.collabType !in groups {
        groups := groups[params.collabType := []];
      }
      groups := groups[params.collabType := groups[params.collabType] + [params.objectId]];
    }
    assert queries[..|queries|] == queries;
  }

  /** One turn of the loop over the groups, on the rows its query returned. */
  method ExtendWithGroup(results: map<string, QueryResult>, rows: map<string, Bytes>, ids: seq<string>)
    returns (extended: map<string, QueryResult>)
    ensures extended.Keys == results.Keys + rows.Keys + (set oid <- ids)
    ensures forall oid <- extended ::
              extended[oid] == if oid in rows then Loaded(rows[oid])
                               else if oid in ids then Failed(NOT_FOUND) else results[oid]
  {
    var missing: seq<string> := [];
    for i := 0 to |ids|
      invariant forall oid :: oid in missing <==> oid in ids[..i] && oid !in rows
    {
      assert ids[..i + 1] == ids[..i] + [ids[i]];
      if ids[i] !in rows {
        missing := missing + [ids[i]];
      }
    }
    assert ids[..|ids|] == ids;
    extended := results + (map oid <- rows :: Loaded(rows[oid]));
    extended := extended + (map oid | oid in missing :: Failed(NOT_FOUND));
  }

  /** A query is left out if its type's SQL query fails; that is logged. */
  predicate LeftOut(w: World, broken: set<Type>, q: Query) {
    Falls(w, q) && q.collabType in broken
  }

  /** What a batch gives: every query that is not left out finds its object answered, and every answer
      is the one-query answer of some query for that object. */
  ghost predicate Answers(w: World, queries: seq<Query>, broken: set<Type>, results: map<string, QueryResult>) {
    && (forall q <- queries | !LeftOut(w, broken, q) :: q.objectId in results)
    && (forall oid <- results :: exists q <- queries ::
          q.objectId == oid && !LeftOut(w, broken, q) && results[oid] == Answer(w, q))
  }

  lemma NoneLeft(rest: set<Type>)
    ensures (forall t :: t !in rest) ==> rest == {}
  {
    if forall t :: t !in rest {
      assert rest == {};
    }
  }

  /** What the groups taken so far have settled: the queries whose type is not in `rest`. */
  ghost predicate Settled(w: World, queries: seq<Query>, rest: set<Type>, broken: set<Type>,
                          results: map<string, QueryResult>) {
    && (forall q <- queries | q.collabType !in rest && q.collabType !in broken :: q.objectId in results)
    && (forall oid <- results :: exists q <- queries ::
          q.objectId == oid && q.collabType !in rest && q.collabType !in broken && results[oid] == Answer(w, q))
  }

  /** batch_select_collab_blob, with the types whose SQL query fails. */
  method BatchSelectCollabBlob(w: World, queries: seq<Query>, broken: set<Type>)
    returns (results: map<string, QueryResult>)
    requires forall q <- queries :: Falls(w, q)
    ensures Answers(w, queries, broken, results)
  {
    var groups := GroupByType(queries);
    results := map[];
    var rest := groups.Keys;
    while rest != {}
      invariant rest <= groups.Keys && Settled(w, queries, rest, broken, results)
      decreases |rest|
    {
      NoneLeft(rest);
      var t :| t in rest;
      var before, ids := results, groups[t];
      if t !in broken {
        var rows := Select(w.stored, ids, t);
        results := ExtendWithGroup(results, rows, ids);
        GroupSettled(w, queries, groups, rest, t, before, results, broken);
      }
      rest := rest - {t};
    }
  }

  /** A group's turn settles its own queries; it may replace the answer of another type's query for
      the same object. */
  lemma GroupSettled(w: World, queries: seq<Query>, groups: Groups, rest: set<Type>, t: Type,
                     before: map<string, QueryResult>, results: map<string, QueryResult>, broken: set<Type>)
    requires (forall q <- queries :: Falls(w, q)) && t in groups && t in rest && t !in broken
    requires forall q <- queries :: q.collabType in groups && q.objectId in groups[q.collabType]
    requires forall u <- groups, oid <- groups[u] :: Query(oid, u) in queries
    requires Settled(w, queries, rest, broken, before)
    requires results.Keys == before.Keys + Select(w.stored, groups[t], t).Keys + (set oid <- groups[t])
    requires forall oid <- results ::
               results[oid] == if oid in Select(w.stored, groups[t], t) then Loaded(Select(w.stored, groups[t], t)[oid])
                               else if oid in groups[t] then Failed(NOT_FOUND) else before[oid]
    ensures Settled(w, queries, rest - {t}, broken, results)
  {
    forall oid <- results
      ensures exists q <- queries ::
                && q.objectId == oid && q.collabType !in rest - {t} && q.collabType !in broken
                && results[oid] == Answer(w, q)
    {
      if oid in groups[t] {
        var q := Query(oid, t);
        assert q in queries && q.collabType !in rest - {t};
      } else {
        var q :| q in queries && q.objectId == oid && q.collabType !in rest && q.collabType !in broken
                 && before[oid] == Answer(w, q);
        assert q.collabType !in rest - {t};
      }
    }
  }

  // ---------------------------------------------------------------- the whole batch

  /** The two partitions of batch_get_collab: the invalid queries, those answered from memory, and
      those left for the database. */
  ghost predicate Partitioned(w: World, queries: seq<Query>, invalid: map<string, QueryResult>,
                              fromMemory: map<string, QueryResult>, rest: seq<Query>) {
    && (forall q :: q in rest <==> q in queries && Falls(w, q))
    && (forall q <- queries | !Valid(q) :: q.objectId in invalid)
    && (forall oid <- invalid ::
          invalid[oid] == Failed(INVALID) && exists q <- queries :: q.objectId == oid && !Valid(q))
    && (forall q <- queries | Valid(q) && FromMemory(w, q) :: q.objectId in fromMemory)
    && (forall oid <- fromMemory :: exists q <- queries ::
          q.objectId == oid && Valid(q) && FromMemory(w, q) && fromMemory[oid] == Answer(w, q))
  }

  method PartitionQueries(w: World, queries: seq<Query>)
    returns (invalid: map<string, QueryResult>, fromMemory: map<string, QueryResult>, rest: seq<Query>)
    ensures Partitioned(w, queries, invalid, fromMemory, rest)
  {
    hide Partitioned;
    invalid, fromMemory, rest := map[], map[], [];
    assert Partitioned(w, queries[..0], invalid, fromMemory, rest) by { PartitionedNone(w); }
    for i := 0 to |queries|
      invariant Partitioned(w, queries[..i], invalid, fromMemory, rest)
    {
      var q := queries[i];
      ghost var done := queries[..i];
      assert queries[..i + 1] == done + [q];
      PartitionedStep(w, done, q, invalid, fromMemory, rest);
      if q.objectId == "" {
        invalid := invalid[q.objectId := Failed(INVALID)];
      } else if q.objectId in w.live && w.live[q.objectId].Encodes? {
        fromMemory := fromMemory[q.objectId := Loaded(w.live[q.objectId].bytes)];
      } else {
        rest := rest + [q];
      }
    }
    assert queries[..|queries|] == queries;
  }

  lemma PartitionedNone(w: World)
    ensures Partitioned(w, [], map[], map[], [])
  {
  }

  lemma PartitionedStep(w: World, done: seq<Query>, q: Query, invalid: map<string, QueryResult>,
                        fromMemory: map<string, QueryResult>, rest: seq<Query>)
    requires Partitioned(w, done, invalid, fromMemory, rest)
    ensures !Valid(q) ==> Partitioned(w, done + [q], invalid[q.objectId := Failed(INVALID)], fromMemory, rest)
    ensures Valid(q) && FromMemory(w, q) ==>
              Partitioned(w, done + [q], invalid, fromMemory[q.objectId := Loaded(w.live[q.objectId].bytes)], rest)
    ensures Falls(w, q) ==> Partitioned(w, done + [q], invalid, fromMemory, rest + [q])
  {
    assert forall p :: p in done + [q] <==> p in done || p == q;
  }

  /** batch_get_collab: invalid queries fail, open documents answer from memory, the rest go to the
      database. */
  method BatchGetCollab(w: World, queries: seq<Query>, broken: set<Type>) returns (results: map<string, QueryResult>)
    ensures Answers(w, queries, broken, results)
  {
    var invalid, fromMemory, rest := PartitionQueries(w, queries);
    var fromDisk := BatchSelectCollabBlob(w, rest, broken);
    results := invalid + fromMemory + fromDisk;
    PartsAnswer(w, queries, broken, invalid, fromMemory, rest, fromDisk);
  }

  lemma PartsAnswer(w: World, queries: seq<Query>, broken: set<Type>, invalid: map<string, QueryResult>,
                    fromMemory: map<string, QueryResult>, rest: seq<Query>, fromDisk: map<string, QueryResult>)
    requires Partitioned(w, queries, invalid, fromMemory, rest) && Answers(w, rest, broken, fromDisk)
    ensures Answers(w, queries, broken, invalid + fromMemory + fromDisk)
  {
    var results := invalid + fromMemory + fromDisk;
    forall oid <- results
      ensures exists q <- queries :: q.objectId == oid && !LeftOut(w, broken, q) && results[oid] == Answer(w, q)
    {
      if oid in fromDisk {
        var q :| q in rest && q.objectId == oid && !LeftOut(w, broken, q) && fromDisk[oid] == Answer(w, q);
        assert q in queries;
      } else if oid in fromMemory {
        var q :| q in queries && q.objectId == oid && Valid(q) && FromMemory(w, q) && fromMemory[oid] == Answer(w, q);
        assert !LeftOut(w, broken, q);
      } else {
        var q :| q in queries && q.objectId == oid && !Valid(q);
        assert !LeftOut(w, broken, q);
      }
    }
  }

  /** What a batch answers about an object only one of its queries names: an empty id is refused, an open
      document that encodes wins over its row, a missing row is reported, and only a failed SQL query leaves the
      object out. */
  lemma AnswerMeaning(w: World, queries: seq<Query>, broken: set<Type>, results: map<string, QueryResult>, q: Query)
    requires Answers(w, queries, broken, results)
    requires q in queries && forall p <- queries :: p.objectId == q.objectId ==> p == q
    ensures var oid := q.objectId;
            var inMemory := oid in w.live && w.live[oid] != Dead && w.live[oid] != EncodeFails;
            && (oid in results <==> oid == "" || inMemory || q.collabType !in broken)
            && (oid in results ==>
                  results[oid] == if oid == "" then Failed("should not be empty string")
                                  else if inMemory then Loaded(w.live[oid].bytes)
                                  else if (oid, q.collabType) in w.stored then Loaded(w.stored[(oid, q.collabType)])
                                  else Failed("Record not found"))
  {
    if q.objectId in results {
      var p :| p in queries && p.objectId == q.objectId && !LeftOut(w, broken, p)
               && results[q.objectId] == Answer(w, p);
    }
  }

  function Row(stored: Stored, q: Query): Option<Bytes> {
    if (q.objectId, q.collabType) in stored then Some(stored[(q.objectId, q.collabType)]) else None
  }

  /** No two queries for one stored object, closed and under two types, find different rows. */
  ghost predicate NoClash(w: World, queries: seq<Query>) {
    forall p <- queries, q <- queries ::
      p.objectId == q.objectId && Falls(w, p) ==> Row(w.stored, p) == Row(w.stored, q)
  }

  /** With no SQL error exactly the queried objects are answered, and every query gets the answer it
      would get alone if and only if no two queries clash; without a clash nothing else is possible. */
  lemma AnswersArePointwiseIff(w: World, queries: seq<Query>, results: map<string, QueryResult>)
    requires Answers(w, queries, {}, results)
    ensures results.Keys == set q <- queries :: q.objectId
    ensures (forall q <- queries :: q.objectId in results && results[q.objectId] == Answer(w, q)) <==>
            NoClash(w, queries)
  {
    if NoClash(w, queries) {
      forall q <- queries ensures q.objectId in results && results[q.objectId] == Answer(w, q) {
        var p :| p in queries && p.objectId == q.objectId && results[q.objectId] == Answer(w, p);
        assert Falls(w, p) <==> Falls(w, q);
      }
    } else {
      var p, q :| p in queries && q in queries && p.objectId == q.objectId && Falls(w, p)
                  && Row(w.stored, p) != Row(w.stored, q);
      assert Answer(w, p) != Answer(w, q);
    }
  }
}
