/** Blobs: a metadata row in the database and an object in the bucket, written and deleted together. */
module BlobStorage {
  import opened Common
  import opened BlobQuota

  /** The bucket's objects by key. */
  type Objects = map<string, Bytes>

  datatype Store = Store(rows: Metadata, objects: Objects)

  datatype Error = PayloadTooLarge | ReadFailed | StorageSpaceNotEnough | BucketFailed | CommitFailed | NoSuchRow

  function ObjectKey(k: FileKey): string {
    k.workspace + "/" + k.file
  }

  /** A uuid is spelled without a slash. */
  predicate Uuid(ws: string) {
    '/' !in ws
  }

  lemma ObjectKeyInjective(k: FileKey, l: FileKey)
    requires Uuid(k.workspace) && Uuid(l.workspace) && ObjectKey(k) == ObjectKey(l)
    ensures k == l
  {
    var s := ObjectKey(k);
    assert s[|k.workspace|] == '/' && s[|l.workspace|] == '/';
    assert forall i | 0 <= i < |k.workspace| :: s[i] == k.workspace[i] && k.workspace[i] in k.workspace;
    assert forall i | 0 <= i < |l.workspace| :: s[i] == l.workspace[i] && l.workspace[i] in l.workspace;
    assert |k.workspace| == |l.workspace|;
    assert s[..|k.workspace|] == k.workspace && s[..|l.workspace|] == l.workspace;
    assert s[|k.workspace| + 1..] == k.file && s[|l.workspace| + 1..] == l.file;
  }

  /** How the outside world answers one call: a bucket request applies fully or not at all. */
  datatype World = World(bucketOk: bool, commitOk: bool)

  // ---------------------------------------------------------------- the operations, on values

  ghost function Put(s: Store, k: FileKey, content: Bytes, w: World): (Store, Result<(), Error>) {
    if k in s.rows then (s, Success(()))
    else if Usage(s.rows, k.workspace) > MAX_USAGE then (s, Failure(StorageSpaceNotEnough))
    else if !w.bucketOk then (s, Failure(BucketFailed))
    else
      var objects := s.objects[ObjectKey(k) := content];
      if w.commitOk then (Store(s.rows[k := |content|], objects), Success(()))
      else (Store(s.rows, objects), Failure(CommitFailed))
  }

  /** A missing row fails the assertion on the number of rows; the transaction is rolled back. */
  ghost function Delete(s: Store, k: FileKey, w: World): (Store, Result<(), Error>) {
    if k !in s.rows then (s, Failure(NoSuchRow))
    else if !w.bucketOk then (s, Failure(BucketFailed))
    else
      var objects := s.objects - {ObjectKey(k)};
      if w.commitOk then (Store(s.rows - {k}, objects), Success(()))
      else (Store(s.rows, objects), Failure(CommitFailed))
  }

  /** put_blob_handler: the declared length must fit and must be the payload's. */
  ghost function HandlePut(s: Store, k: FileKey, declared: nat, payload: Bytes, w: World): (Store, Result<(), Error>) {
    if declared > MAX_BLOB_SIZE then (s, Failure(PayloadTooLarge))
    else if |payload| < declared then (s, Failure(ReadFailed))
    else if |payload| > declared then (s, Failure(PayloadTooLarge))
    else Put(s, k, payload, w)
  }

  /** Each answer to an upload and when it is given; the order of the tests decides between them. A file already
      there is left alone, and only a success adds the row, with the payload's size. */
  lemma PutAnswers(s: Store, k: FileKey, declared: nat, payload: Bytes, w: World)
    ensures var (s', r) := HandlePut(s, k, declared, payload, w);
            var fits := declared <= 6_291_456 && |payload| == declared;
            var full := Usage(s.rows, k.workspace) > 10_737_418_240;
            && (r == Failure(PayloadTooLarge) <==> declared > 6_291_456 || |payload| > declared)
            && (r == Failure(ReadFailed) <==> |payload| < declared <= 6_291_456)
            && (r == Failure(StorageSpaceNotEnough) <==> fits && k !in s.rows && full)
            && (r == Failure(BucketFailed) <==> fits && k !in s.rows && !full && !w.bucketOk)
            && (r == Failure(CommitFailed) <==> fits && k !in s.rows && !full && w.bucketOk && !w.commitOk)
            && (r == Success(()) <==> fits && (k in s.rows || (!full && w.bucketOk && w.commitOk)))
            && s'.rows == (if r.Success? && k !in s.rows then s.rows[k := |payload|] else s.rows)
            && s'.objects == (if fits && k !in s.rows && !full && w.bucketOk
                              then s.objects[k.workspace + "/" + k.file := payload] else s.objects)
  {
    hide Usage;
  }

  /** The same for a deletion: a missing row is an error, and the row goes only with a success. */
  lemma DeleteAnswers(s: Store, k: FileKey, w: World)
    ensures var (s', r) := Delete(s, k, w);
            && (r == Failure(NoSuchRow) <==> k !in s.rows)
            && (r == Failure(BucketFailed) <==> k in s.rows && !w.bucketOk)
            && (r == Failure(CommitFailed) <==> k in s.rows && w.bucketOk && !w.commitOk)
            && (r == Success(()) <==> k in s.rows && w.bucketOk && w.commitOk)
            && s'.rows == (if r.Success? then s.rows - {k} else s.rows)
            && s'.objects == (if k in s.rows && w.bucketOk then s.objects - {k.workspace + "/" + k.file} else s.objects)
  {
  }

  datatype Request =
    | PutBlob(key: FileKey, declared: nat, payload: Bytes, world: World)
    | DeleteBlob(key: FileKey, world: World)

  ghost function Serve(s: Store, r: Request): (Store, Result<(), Error>) {
    match r
    case PutBlob(k, declared, payload, w) => HandlePut(s, k, declared, payload, w)
    case DeleteBlob(k, w) => Delete(s, k, w)
  }

  ghost function ServeAll(s: Store, rs: seq<Request>): Store
    decreases |rs|
  {
    if rs == [] then s else ServeAll(Serve(s, rs[0]).0, rs[1..])
  }

  // ---------------------------------------------------------------- rows and objects agree

  /** Exactly one object for each row, of the recorded size, and no other object. */
  ghost predicate Agree(s: Store) {
    && (forall k <- s.rows :: Uuid(k.workspace))
    && (forall k <- s.rows :: ObjectKey(k) in s.objects && |s.objects[ObjectKey(k)]| == s.rows[k])
    && (forall o <- s.objects :: exists k <- s.rows :: o == ObjectKey(k))
  }

  /** The request passes every test, the bucket does its part, and then the transaction is lost. */
  ghost predicate CommitLost(s: Store, r: Request) {
    match r
    case PutBlob(k, declared, payload, w) =>
      && declared <= MAX_BLOB_SIZE && |payload| == declared
      && k !in s.rows && Usage(s.rows, k.workspace) <= MAX_USAGE
      && w.bucketOk && !w.commitOk
    case DeleteBlob(k, w) => k in s.rows && w.bucketOk && !w.commitOk
  }

  /** One request keeps rows and objects in agreement exactly when its commit is not lost after the
      bucket has done its part. */
  lemma AgreementKeptIff(s: Store, r: Request)
    requires Agree(s) && Uuid(r.key.workspace)
    ensures Agree(Serve(s, r).0) <==> !CommitLost(s, r)
  {
    hide Usage; hide ObjectKey; hide Uuid;
    var s', k := Serve(s, r).0, r.key;
    forall l <- s.rows | ObjectKey(l) == ObjectKey(k) ensures l == k { ObjectKeyInjective(k, l); }
    if CommitLost(s, r) {
      if r.PutBlob? {
        assert ObjectKey(k) in s'.objects;
      } else {
        assert ObjectKey(k) !in s'.objects;
      }
    } else if s' != s && r.PutBlob? {
      assert ObjectKey(k) !in s.objects;
      forall o <- s'.objects ensures exists l <- s'.rows :: o == ObjectKey(l) {
        if o == ObjectKey(k) {
          assert k in s'.rows;
        } else {
          var l :| l in s.rows && o == ObjectKey(l);
          assert l in s'.rows;
        }
      }
    } else if s' != s {
      forall o <- s'.objects ensures exists l <- s'.rows :: o == ObjectKey(l) {
        var l :| l in s.rows && o == ObjectKey(l);
        assert l in s'.rows;
      }
    }
  }

  /** What the object of a key adds to a workspace's stored bytes. */
  function ObjectSize(s: Store, k: FileKey, ws: string): nat
    requires ObjectKey(k) in s.objects
  {
    if k.workspace == ws then |s.objects[ObjectKey(k)]| else 0
  }

  /** The bytes stored under a workspace's keys. */
  ghost function StoredIn(s: Store, keys: set<FileKey>, ws: string): nat
    requires forall k <- keys :: ObjectKey(k) in s.objects
    decreases |keys|
  {
    if keys == {} then 0
    else
      var k :| k in keys;
      ObjectSize(s, k, ws) + StoredIn(s, keys - {k}, ws)
  }

  /** So the usage the quota is tested against is the number of bytes stored. */
  lemma {:induction false} UsageIsStored(s: Store, keys: set<FileKey>, ws: string)
    requires Agree(s) && keys <= s.rows.Keys
    ensures StoredIn(s, keys, ws) == Usage(map k <- keys :: s.rows[k], ws)
    decreases |keys|
  {
    hide ObjectKey; hide Agree;
    assert forall k <- keys :: ObjectKey(k) in s.objects && |s.objects[ObjectKey(k)]| == s.rows[k] by { AgreeSizes(s); }
    var part := map k <- keys :: s.rows[k];
    if keys != {} {
      var k :| k in keys && StoredIn(s, keys, ws) == ObjectSize(s, k, ws) + StoredIn(s, keys - {k}, ws);
      UsageIsStored(s, keys - {k}, ws);
      UsageSplit(part, k, ws);
      assert ObjectSize(s, k, ws) == SizeIn(part, k, ws);
      assert part - {k} == map l <- keys - {k} :: s.rows[l];
    }
  }

  lemma AgreeSizes(s: Store)
    requires Agree(s)
    ensures forall k <- s.rows :: ObjectKey(k) in s.objects && |s.objects[ObjectKey(k)]| == s.rows[k]
  {
  }

  /** No request of the run loses its commit after the bucket has done its part. */
  ghost predicate Whole(s: Store, rs: seq<Request>)
    decreases |rs|
  {
    rs != [] ==> Uuid(rs[0].key.workspace) && !CommitLost(s, rs[0]) && Whole(Serve(s, rs[0]).0, rs[1..])
  }

  /** Over any run of puts and deletes, whatever the bucket refuses: one object for each row and no
      other, every object no larger than a blob may be, and the usage is the number of bytes stored. */
  lemma {:induction false} RunKeepsAgreement(s: Store, rs: seq<Request>)
    requires Agree(s) && Whole(s, rs)
    requires forall o <- s.objects :: |s.objects[o]| <= MAX_BLOB_SIZE
    ensures var s' := ServeAll(s, rs);
            && Agree(s')
            && (forall o <- s'.objects :: |s'.objects[o]| <= MAX_BLOB_SIZE)
            && (forall ws :: Usage(s'.rows, ws) == StoredIn(s', s'.rows.Keys, ws))
    decreases |rs|
  {
    hide Usage; hide StoredIn; hide Uuid;
    if rs == [] {
      forall ws ensures Usage(s.rows, ws) == StoredIn(s, s.rows.Keys, ws) {
        UsageIsStored(s, s.rows.Keys, ws);
        assert (map k <- s.rows.Keys :: s.rows[k]) == s.rows;
      }
    } else {
      AgreementKeptIff(s, rs[0]);
      BlobsStaySmall(s, rs[0]);
      RunKeepsAgreement(Serve(s, rs[0]).0, rs[1..]);
    }
  }

  lemma BlobsStaySmall(s: Store, r: Request)
    requires forall o <- s.objects :: |s.objects[o]| <= MAX_BLOB_SIZE
    ensures forall o <- Serve(s, r).0.objects :: |Serve(s, r).0.objects[o]| <= MAX_BLOB_SIZE
  {
    hide Usage;
  }

  // ---------------------------------------------------------------- the same calls among others

  /** A put that runs alone is the lookup, the usage check and the commit or abort of the concurrent
      system, and a delete is its one step. */
  lemma AloneIsInterleaved(s: Store, k: FileKey, content: Bytes, w: World)
    requires |content| <= MAX_BLOB_SIZE
    ensures var end := if w.bucketOk && w.commitOk then Commit(0) else Abort(0);
            Step(Step(Step(System(s.rows, map[]), Begin(0, k, |content|)), Check(0)), end)
            == System(Put(s, k, content, w).0.rows, map[])
    ensures Step(System(s.rows, map[]), if w.bucketOk && w.commitOk then DeleteRow(k) else Abort(0))
            == System(Delete(s, k, w).0.rows, map[])
  {
    hide Usage; hide ObjectKey;
    var s0 := System(s.rows, map[]);
    assert s0.uploads - {0} == map[];
    if k !in s.rows {
      assert s.rows - {k} == s.rows;
      var s1 := Step(s0, Begin(0, k, |content|));
      assert s1.uploads == map[0 := Upload(k, |content|, Looked)];
      assert s1.uploads - {0} == map[];
      var s2 := Step(s1, Check(0));
      assert s2.uploads - {0} == map[];
    }
  }

  // ---------------------------------------------------------------- the storage

  class BucketStorage {
    var rows: Metadata
    var objects: Objects

    ghost function State(): Store
      reads this
    {
      Store(rows, objects)
    }

    /** get_workspace_usage_size: the database adds the sizes up. */
    method UsageSize(ws: string) returns (n: nat)
      ensures n == Usage(rows, ws)
    {
      n := 0;
      var rest := rows.Keys;
      assert rows == map k <- rest :: rows[k];
      while rest != {}
        invariant rest <= rows.Keys
        invariant n + Usage(map k <- rest :: rows[k], ws) == Usage(rows, ws)
        decreases |rest|
      {
        var k :| k in rest;
        ghost var part := map l <- rest :: rows[l];
        UsageSplit(part, k, ws);
        n := n + SizeIn(rows, k, ws);
        rest := rest - {k};
        assert part - {k} == map l <- rest :: rows[l];
      }
    }

    method PutBlob(k: FileKey, content: Bytes, world: World) returns (r: Result<(), Error>)
      modifies this
      ensures (State(), r) == Put(old(State()), k, content, world)
    {
      if k in rows {
        return Success(());
      }
      var objKey := ObjectKey(k);
      var usage := UsageSize(k.workspace);
      if usage > MAX_USAGE {
        return Failure(StorageSpaceNotEnough);
      }
      var tx := rows[k := |content|];
      if !world.bucketOk {
        return Failure(BucketFailed);
      }
      objects := objects[objKey := content];
      if !world.commitOk {
        return Failure(CommitFailed);
      }
      rows := tx;
      r := Success(());
    }

    method DeleteBlob(k: FileKey, world: World) returns (r: Result<(), Error>)
      modifies this
      ensures (State(), r) == Delete(old(State()), k, world)
    {
      var objKey := ObjectKey(k);
      if k !in rows {
        return Failure(NoSuchRow);
      }
      var tx := rows - {k};
      if !world.bucketOk {
        return Failure(BucketFailed);
      }
      objects := objects - {objKey};
      if !world.commitOk {
        return Failure(CommitFailed);
      }
      rows := tx;
      r := Success(());
    }
  }
}
