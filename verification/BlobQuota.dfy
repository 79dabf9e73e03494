/** A workspace's storage quota while uploads and deletes interleave. */
module BlobQuota {
  const MAX_BLOB_SIZE: nat := 6 * 1024 * 1024
  const MAX_USAGE: nat := 10 * 1024 * 1024 * 1024

  /** A file of a workspace: the primary key of af_blob_metadata. */
  datatype FileKey = FileKey(workspace: string, file: string)

  type Metadata = map<FileKey, nat>

  /** SELECT SUM(file_size) of a workspace's rows, 0 when there is none. */
  ghost function Usage(rows: Metadata, ws: string): nat
    decreases |rows|
  {
    if rows == map[] then 0
    else
      var k :| k in rows;
      SizeIn(rows, k, ws) + Usage(rows - {k}, ws)
  }

  /** What one row adds to a workspace's usage. */
  function SizeIn(rows: Metadata, k: FileKey, ws: string): nat {
    if k in rows && k.workspace == ws then rows[k] else 0
  }

  /** The order of summation does not matter. */
  lemma {:induction false} UsageSplit(rows: Metadata, k: FileKey, ws: string)
    requires k in rows
    ensures Usage(rows, ws) == SizeIn(rows, k, ws) + Usage(rows - {k}, ws)
    decreases |rows|
  {
    var p :| p in rows && Usage(rows, ws) == SizeIn(rows, p, ws) + Usage(rows - {p}, ws);
    if p != k {
      UsageSplit(rows - {p}, k, ws);
      UsageSplit(rows - {k}, p, ws);
      assert rows - {p} - {k} == rows - {k} - {p};
      assert SizeIn(rows - {p}, k, ws) == SizeIn(rows, k, ws) && SizeIn(rows - {k}, p, ws) == SizeIn(rows, p, ws);
    }
  }

  lemma UsageInsert(rows: Metadata, k: FileKey, size: nat, ws: string)
    ensures Usage(rows[k := size], ws)
        == Usage(rows, ws) - SizeIn(rows, k, ws) + (if k.workspace == ws then size else 0)
    ensures SizeIn(rows, k, ws) <= Usage(rows, ws)
  {
    UsageSplit(rows[k := size], k, ws);
    assert rows[k := size] - {k} == rows - {k};
    if k in rows {
      UsageSplit(rows, k, ws);
    } else {
      assert rows - {k} == rows;
    }
  }

  lemma UsageDelete(rows: Metadata, k: FileKey, ws: string)
    ensures Usage(rows - {k}, ws) == Usage(rows, ws) - SizeIn(rows, k, ws)
  {
    if k in rows {
      UsageSplit(rows, k, ws);
    } else {
      assert rows - {k} == rows;
    }
  }

  // ---------------------------------------------------------------- uploads in flight

  /** How far a put_blob call has come: it saw no row for its file, or it also passed the quota. */
  datatype Stage = Looked | Passed

  datatype Upload = Upload(key: FileKey, size: nat, stage: Stage)

  datatype System = System(rows: Metadata, uploads: map<nat, Upload>)

  datatype Event =
    | Begin(id: nat, key: FileKey, size: nat)   // the handler's size check and the lookup of the row
    | Check(id: nat)                            // the usage query
    | Commit(id: nat)                           // the row and the object are written
    | Abort(id: nat)                            // the transaction is rolled back
    | DeleteRow(key: FileKey)                     // a whole delete_blob

  /** put_blob's test of the workspace's usage: past the maximum the upload is refused. */
  ghost function CheckUsage(s: System, id: nat): System
    requires id in s.uploads
  {
    var u := s.uploads[id];
    if Usage(s.rows, u.key.workspace) > MAX_USAGE then s.(uploads := s.uploads - {id})
    else s.(uploads := s.uploads[id := u.(stage := Passed)])
  }

  /** One step; a step of a call that is not at that point leaves the system as it is. */
  ghost function Step(s: System, e: Event): System {
    match e
    case Begin(id, key, size) =>
      if size > MAX_BLOB_SIZE || key in s.rows || id in s.uploads then s
      else s.(uploads := s.uploads[id := Upload(key, size, Looked)])
    case Check(id) => if id in s.uploads && s.uploads[id].stage.Looked? then CheckUsage(s, id) else s
    case Commit(id) =>
      if id in s.uploads && s.uploads[id].stage.Passed? then
        System(s.rows[s.uploads[id].key := s.uploads[id].size], s.uploads - {id})
      else s
    case Abort(id) => s.(uploads := s.uploads - {id})
    case DeleteRow(key) => s.(rows := s.rows - {key})
  }

  ghost function Run(s: System, events: seq<Event>): System {
    if events == [] then s else Step(Run(s, events[..|events| - 1]), events[|events| - 1])
  }

  /** The workspace's uploads between the usage check and the commit. */
  function InFlight(s: System, ws: string): set<nat> {
    set id <- s.uploads | s.uploads[id].stage.Passed? && s.uploads[id].key.workspace == ws
  }

  /** At no point of the run are more than k of the workspace's uploads in flight. */
  ghost predicate AtMost(s: System, events: seq<Event>, ws: string, k: nat) {
    forall i | 0 <= i <= |events| :: |InFlight(Run(s, events[..i]), ws)| <= k
  }

  /** Each upload in flight has room set aside beyond the maximum. */
  ghost predicate Bounded(s: System, ws: string, k: nat) {
    && (forall id <- s.uploads :: s.uploads[id].size <= MAX_BLOB_SIZE)
    && Usage(s.rows, ws) + |InFlight(s, ws)| * MAX_BLOB_SIZE <= MAX_USAGE + k * MAX_BLOB_SIZE
  }

  lemma CheckBounded(s: System, id: nat, ws: string, k: nat)
    requires Bounded(s, ws, k) && |InFlight(Step(s, Check(id)), ws)| <= k
    ensures Bounded(Step(s, Check(id)), ws, k)
  {
    hide Usage;
    var s' := Step(s, Check(id));
    if s' != s {
      var u := s.uploads[id];
      if !(Usage(s.rows, u.key.workspace) <= MAX_USAGE && u.key.workspace == ws) {
        SameInFlight(s, s', ws, id);
      }
    }
  }

  lemma SameInFlight(s: System, s': System, ws: string, id: nat)
    requires forall i | i != id ::
               (i in s.uploads <==> i in s'.uploads) && (i in s.uploads ==> s.uploads[i] == s'.uploads[i])
    requires id in InFlight(s, ws) <==> id in InFlight(s', ws)
    ensures InFlight(s', ws) == InFlight(s, ws)
  {
  }

  lemma CommitInFlight(s: System, id: nat, ws: string)
    requires id in s.uploads && s.uploads[id].stage.Passed?
    ensures |InFlight(Step(s, Commit(id)), ws)|
        == |InFlight(s, ws)| - (if s.uploads[id].key.workspace == ws then 1 else 0)
  {
    hide Usage;
    var s' := Step(s, Commit(id));
    assert InFlight(s', ws) == InFlight(s, ws) - {id};
  }

  lemma CommitBounded(s: System, id: nat, ws: string, k: nat)
    requires Bounded(s, ws, k)
    ensures Bounded(Step(s, Commit(id)), ws, k)
  {
    hide Usage; hide InFlight;
    if id in s.uploads && s.uploads[id].stage.Passed? {
      CommitInFlight(s, id, ws);
      UsageInsert(s.rows, s.uploads[id].key, s.uploads[id].size, ws);
    }
  }

  lemma OtherInFlight(s: System, e: Event, ws: string)
    requires e.Begin? || e.Abort? || e.DeleteRow?
    ensures |InFlight(Step(s, e), ws)| <= |InFlight(s, ws)|
  {
    hide Usage;
    var s' := Step(s, e);
    if e.Abort? {
      assert InFlight(s', ws) == InFlight(s, ws) - {e.id};
    } else {
      assert InFlight(s', ws) == InFlight(s, ws);
    }
  }

  lemma StepBounded(s: System, e: Event, ws: string, k: nat)
    requires Bounded(s, ws, k) && |InFlight(Step(s, e), ws)| <= k
    ensures Bounded(Step(s, e), ws, k)
  {
    match e
    case Check(id) => CheckBounded(s, id, ws, k);
    case Commit(id) => CommitBounded(s, id, ws, k);
    case Begin(_, _, _) => SmallerIsBounded(s, e, ws, k);
    case Abort(_) => SmallerIsBounded(s, e, ws, k);
    case DeleteRow(key) => UsageDelete(s.rows, key, ws); SmallerIsBounded(s, e, ws, k);
  }

  lemma SmallerIsBounded(s: System, e: Event, ws: string, k: nat)
    requires Bounded(s, ws, k) && (e.Begin? || e.Abort? || e.DeleteRow?)
    requires Usage(Step(s, e).rows, ws) <= Usage(s.rows, ws)
    ensures Bounded(Step(s, e), ws, k)
  {
    hide Usage; hide InFlight;
    OtherInFlight(s, e, ws);
  }

  /** However uploads and deletes interleave, with at most k uploads in flight a workspace's usage
      never passes the maximum by more than k blobs. */
  lemma {:induction false} UsageBound(s: System, events: seq<Event>, ws: string, k: nat)
    requires s == System(map[], map[]) && AtMost(s, events, ws, k)
    ensures Bounded(Run(s, events), ws, k)
    ensures Usage(Run(s, events).rows, ws) <= MAX_USAGE + k * MAX_BLOB_SIZE
    decreases |events|
  {
    hide Step;
    assert events[..|events|] == events;
    if events != [] {
      var front := events[..|events| - 1];
      assert forall i | 0 <= i <= |front| :: front[..i] == events[..i];
      UsageBound(s, front, ws, k);
      StepBounded(Run(s, front), events[|events| - 1], ws, k);
    }
  }
}
