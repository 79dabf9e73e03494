/** Snapshots of a document: each creation trims the document's older ones. */
module Snapshots {
  import opened Common

  datatype Snapshot = Snapshot(sid: nat, oid: string, blob: Bytes, createdAt: int)

  /** af_collab_snapshot in insertion order, and its serial. */
  datatype Table = Table(rows: seq<Snapshot>, nextSid: nat)

  /** WHERE oid = $1. */
  function Of(rows: seq<Snapshot>, oid: string): seq<Snapshot> {
    if rows == [] then []
    else (if rows[0].oid == oid then [rows[0]] else []) + Of(rows[1..], oid)
  }

  function InsertNewest(s: Snapshot, sorted: seq<Snapshot>): seq<Snapshot> {
    if sorted == [] || sorted[0].createdAt <= s.createdAt then [s] + sorted
    else [sorted[0]] + InsertNewest(s, sorted[1..])
  }

  /** ORDER BY created_at DESC. */
  function NewestFirst(rows: seq<Snapshot>): seq<Snapshot> {
    if rows == [] then [] else InsertNewest(rows[|rows| - 1], NewestFirst(rows[..|rows| - 1]))
  }

  function Take<T>(s: seq<T>, n: nat): seq<T> {
    if n < |s| then s[..n] else s
  }

  /** DELETE ... WHERE oid = $1 AND sid NOT IN keep. */
  function Trim(rows: seq<Snapshot>, oid: string, keep: seq<nat>): seq<Snapshot> {
    if rows == [] then []
    else (if rows[0].oid == oid && rows[0].sid !in keep then [] else [rows[0]]) + Trim(rows[1..], oid, keep)
  }

  function Sids(rows: seq<Snapshot>): seq<nat> {
    seq(|rows|, i requires 0 <= i < |rows| => rows[i].sid)
  }

  /** create_snapshot_and_maintain_limit. */
  function Create(t: Table, oid: string, blob: Bytes, now: int, limit: nat): Table {
    var rows := t.rows + [Snapshot(t.nextSid, oid, blob, now)];
    var keep := Sids(Take(NewestFirst(Of(rows, oid)), limit));
    Table(Trim(rows, oid, keep), t.nextSid + 1)
  }

  /** get_all_collab_snapshot_meta. */
  function List(t: Table, oid: string): seq<Snapshot> {
    NewestFirst(Of(t.rows, oid))
  }

  function FindSid(rows: seq<Snapshot>, sid: nat): Option<Snapshot> {
    if rows == [] then None else if rows[0].sid == sid then Some(rows[0]) else FindSid(rows[1..], sid)
  }

  /** get_latest_snapshot: the first of the list, read by its id. */
  function Latest(t: Table, oid: string): Option<Bytes> {
    var metas := List(t, oid);
    if metas == [] then None
    else
      match FindSid(t.rows, metas[0].sid)
      case Some(s) => Some(s.blob)
      case None => None
  }

  // ---------------------------------------------------------------- runs

  datatype Creation = Creation(oid: string, blob: Bytes, now: int)

  function Run(cs: seq<Creation>, limit: nat): Table {
    if cs == [] then Table([], 0)
    else
      var c := cs[|cs| - 1];
      Create(Run(cs[..|cs| - 1], limit), c.oid, c.blob, c.now, limit)
  }

  /** Every snapshot ever created for a document, oldest first, whatever has been trimmed. */
  function Ever(cs: seq<Creation>, oid: string): seq<Snapshot> {
    if cs == [] then []
    else
      var c := cs[|cs| - 1];
      Ever(cs[..|cs| - 1], oid) + (if c.oid == oid then [Snapshot(|cs| - 1, oid, c.blob, c.now)] else [])
  }

  function Newest<T>(s: seq<T>, n: nat): seq<T> {
    if n < |s| then s[|s| - n..] else s
  }

  function Reversed<T>(s: seq<T>): seq<T> {
    if s == [] then [] else [s[|s| - 1]] + Reversed(s[..|s| - 1])
  }

  /** Each document's snapshots are created at ever later times. */
  ghost predicate Later(cs: seq<Creation>) {
    forall i, j | 0 <= i < j < |cs| && cs[i].oid == cs[j].oid :: cs[i].now < cs[j].now
  }

  ghost predicate Increasing(rows: seq<Snapshot>) {
    forall i, j | 0 <= i < j < |rows| :: rows[i].createdAt < rows[j].createdAt && rows[i].sid < rows[j].sid
  }

  // ---------------------------------------------------------------- sorting and trimming

  lemma {:induction false} ReversedMeaning<T>(s: seq<T>)
    ensures |Reversed(s)| == |s| && forall i | 0 <= i < |s| :: Reversed(s)[i] == s[|s| - 1 - i]
  {
    if s != [] {
      var front := s[..|s| - 1];
      ReversedMeaning(front);
      assert Reversed(s) == [s[|s| - 1]] + Reversed(front);
    }
  }

  lemma {:induction false} SortedIsReversed(rows: seq<Snapshot>)
    requires Increasing(rows)
    ensures NewestFirst(rows) == Reversed(rows)
  {
    if rows != [] {
      var front := rows[..|rows| - 1];
      SortedIsReversed(front);
      ReversedMeaning(front);
    }
  }

  lemma {:induction false} OfConcat(a: seq<Snapshot>, b: seq<Snapshot>, oid: string)
    ensures Of(a + b, oid) == Of(a, oid) + Of(b, oid)
  {
    if a == [] {
      assert a + b == b;
    } else {
      var all, first := a + b, if a[0].oid == oid then [a[0]] else [];
      assert all[0] == a[0] && all[1..] == a[1..] + b;
      OfConcat(a[1..], b, oid);
      assert first + (Of(a[1..], oid) + Of(b, oid)) == first + Of(a[1..], oid) + Of(b, oid);
    }
  }

  /** The rows of one document that a trim keeps. */
  function Kept(rows: seq<Snapshot>, keep: seq<nat>): seq<Snapshot> {
    if rows == [] then [] else (if rows[0].sid in keep then [rows[0]] else []) + Kept(rows[1..], keep)
  }

  lemma {:induction false} TrimmedOf(rows: seq<Snapshot>, oid: string, keep: seq<nat>, x: string)
    ensures Of(Trim(rows, oid, keep), x) == if x == oid then Kept(Of(rows, x), keep) else Of(rows, x)
  {
    if rows != [] {
      TrimmedOf(rows[1..], oid, keep, x);
      var first := if rows[0].oid == oid && rows[0].sid !in keep then [] else [rows[0]];
      OfConcat(first, Trim(rows[1..], oid, keep), x);
      KeptConcat(if rows[0].oid == x then [rows[0]] else [], Of(rows[1..], x), keep);
    }
  }

  lemma {:induction false} KeptConcat(a: seq<Snapshot>, b: seq<Snapshot>, keep: seq<nat>)
    ensures Kept(a + b, keep) == Kept(a, keep) + Kept(b, keep)
  {
    if a == [] {
      assert a + b == b;
    } else {
      assert (a + b)[0] == a[0] && (a + b)[1..] == a[1..] + b;
      KeptConcat(a[1..], b, keep);
    }
  }

  lemma {:induction false} KeptAll(rows: seq<Snapshot>, keep: seq<nat>)
    requires forall r <- rows :: r.sid in keep
    ensures Kept(rows, keep) == rows
  {
    if rows != [] {
      KeptAll(rows[1..], keep);
    }
  }

  lemma {:induction false} KeptNone(rows: seq<Snapshot>, keep: seq<nat>)
    requires forall r <- rows :: r.sid !in keep
    ensures Kept(rows, keep) == []
  {
    if rows != [] {
      KeptNone(rows[1..], keep);
    }
  }

  lemma TopSid(rows: seq<Snapshot>, n: nat, j: nat)
    requires j < |rows| && j < n
    ensures |Take(Reversed(rows), n)| == (if n < |rows| then n else |rows|)
    ensures Sids(Take(Reversed(rows), n))[j] == rows[|rows| - 1 - j].sid
  {
    hide Reversed;
    ReversedMeaning(rows);
  }

  lemma SidsOfTop(rows: seq<Snapshot>, n: nat, i: nat)
    requires Increasing(rows) && i < |rows|
    ensures rows[i].sid in Sids(Take(Reversed(rows), n)) <==> i >= |rows| - n
  {
    hide Reversed; hide Take; hide Sids;
    var keep := Sids(Take(Reversed(rows), n));
    TopLength(rows, n);
    forall j | 0 <= j < |keep| ensures keep[j] == rows[|rows| - 1 - j].sid {
      TopSid(rows, n, j);
    }
    if i >= |rows| - n {
      assert keep[|rows| - 1 - i] == rows[i].sid;
    }
  }

  lemma TopLength(rows: seq<Snapshot>, n: nat)
    ensures |Sids(Take(Reversed(rows), n))| == if n < |rows| then n else |rows|
  {
    hide Reversed;
    ReversedMeaning(rows);
  }

  /** Keeping the first `n` of the newest-first list keeps the last `n` rows, in place. */
  lemma KeptIsNewest(rows: seq<Snapshot>, n: nat)
    requires Increasing(rows)
    ensures Kept(rows, Sids(Take(NewestFirst(rows), n))) == Newest(rows, n)
  {
    hide Reversed; hide Kept; hide Sids; hide Take; hide NewestFirst;
    SortedIsReversed(rows);
    var keep := Sids(Take(NewestFirst(rows), n));
    var cut := if n < |rows| then |rows| - n else 0;
    forall i | 0 <= i < |rows| ensures rows[i].sid in keep <==> i >= cut {
      SidsOfTop(rows, n, i);
    }
    KeptNone(rows[..cut], keep);
    KeptAll(rows[cut..], keep);
    assert rows == rows[..cut] + rows[cut..];
    KeptConcat(rows[..cut], rows[cut..], keep);
  }

  // ---------------------------------------------------------------- every run

  /** A document's snapshots are its creations, numbered by their place in the run. */
  lemma {:induction false} EverMeaning(cs: seq<Creation>, oid: string)
    ensures forall s <- Ever(cs, oid) ::
        s.sid < |cs| && s == Snapshot(s.sid, oid, cs[s.sid].blob, cs[s.sid].now) && cs[s.sid].oid == oid
    decreases |cs|
  {
    if cs != [] {
      var front := cs[..|cs| - 1];
      EverMeaning(front, oid);
      assert forall i | 0 <= i < |front| :: front[i] == cs[i];
      assert forall s :: s in Ever(cs, oid) ==>
        s in Ever(front, oid) || s == Snapshot(|front|, oid, cs[|front|].blob, cs[|front|].now);
    }
  }

  lemma {:induction false} EverIncreasing(cs: seq<Creation>, oid: string)
    requires Later(cs)
    ensures Increasing(Ever(cs, oid))
    ensures forall s <- Ever(cs, oid) ::
        s.sid < |cs| && s == Snapshot(s.sid, oid, cs[s.sid].blob, cs[s.sid].now) && cs[s.sid].oid == oid
    decreases |cs|
  {
    EverMeaning(cs, oid);
    if cs != [] {
      var front, c := cs[..|cs| - 1], cs[|cs| - 1];
      EverMeaning(front, oid);
      assert Later(front);
      EverIncreasing(front, oid);
      if c.oid == oid {
        forall s <- Ever(front, oid) ensures s.createdAt < c.now && s.sid < |front| {
          assert front[s.sid] == cs[s.sid];
        }
        IncreasingAppend(Ever(front, oid), Snapshot(|front|, oid, c.blob, c.now));
      } else {
        assert Ever(cs, oid) == Ever(front, oid);
      }
    }
  }

  lemma IncreasingAppend(rows: seq<Snapshot>, s: Snapshot)
    requires Increasing(rows) && forall r <- rows :: r.createdAt < s.createdAt && r.sid < s.sid
    ensures Increasing(rows + [s])
  {
    assert forall i | 0 <= i < |rows| :: rows[i] in rows;
  }

  /** A creation keeps the newest of the document's snapshots and touches no other document. */
  lemma CreateKeepsNewest(t: Table, oid: string, blob: Bytes, now: int, limit: nat, ever: seq<Snapshot>, x: string)
    requires Of(t.rows, oid) == Newest(ever, limit)
    requires Increasing(ever + [Snapshot(t.nextSid, oid, blob, now)])
    ensures Of(Create(t, oid, blob, now, limit).rows, oid)
        == Newest(ever + [Snapshot(t.nextSid, oid, blob, now)], limit)
    ensures x != oid ==> Of(Create(t, oid, blob, now, limit).rows, x) == Of(t.rows, x)
  {
    hide Sids; hide Take; hide NewestFirst; hide Trim; hide Kept; hide Increasing; hide Newest;
    var s := Snapshot(t.nextSid, oid, blob, now);
    var rows := t.rows + [s];
    var keep := Sids(Take(NewestFirst(Of(rows, oid)), limit));
    TrimmedOf(rows, oid, keep, oid);
    TrimmedOf(rows, oid, keep, x);
    OfConcat(t.rows, [s], oid);
    OfConcat(t.rows, [s], x);
    assert Of([s], oid) == [s];
    assert Of([s], x) == if x == oid then [s] else [];
    NewestAgain(ever, s, limit);
    KeptIsNewest(Newest(ever, limit) + [s], limit);
  }

  lemma NewestAgain(ever: seq<Snapshot>, s: Snapshot, limit: nat)
    requires Increasing(ever + [s])
    ensures Increasing(Newest(ever, limit) + [s])
    ensures Newest(Newest(ever, limit) + [s], limit) == Newest(ever + [s], limit)
  {
    hide Increasing;
    var all := ever + [s];
    if limit < |ever| {
      var cut := |ever| - limit;
      assert Newest(ever, limit) + [s] == all[cut..];
      assert all[cut..][1..] == all[cut + 1..];
      IncreasingSuffix(all, cut);
    }
  }

  lemma IncreasingSuffix(rows: seq<Snapshot>, cut: nat)
    requires Increasing(rows) && cut <= |rows|
    ensures Increasing(rows[cut..])
  {
    forall i, j | 0 <= i < j < |rows[cut..]|
      ensures rows[cut..][i].createdAt < rows[cut..][j].createdAt && rows[cut..][i].sid < rows[cut..][j].sid
    {
      assert rows[cut..][i] == rows[cut + i] && rows[cut..][j] == rows[cut + j];
    }
  }

  /** What is stored for a document is the newest of all its snapshots. */
  lemma {:induction false} StoredIsNewest(cs: seq<Creation>, limit: nat, oid: string)
    requires Later(cs)
    ensures Of(Run(cs, limit).rows, oid) == Newest(Ever(cs, oid), limit)
    ensures Run(cs, limit).nextSid == |cs|
    decreases |cs|
  {
    hide Create; hide Of; hide Newest; hide Increasing;
    if cs == [] {
      StoredAtFirst(limit, oid);
    } else {
      var front, c := cs[..|cs| - 1], cs[|cs| - 1];
      StoredIsNewest(front, limit, oid);
      StoredIsNewest(front, limit, c.oid);
      EverIncreasing(cs, c.oid);
      CreateKeepsNewest(Run(front, limit), c.oid, c.blob, c.now, limit, Ever(front, c.oid), oid);
      CreateCounts(Run(front, limit), c.oid, c.blob, c.now, limit);
      assert c.oid != oid ==> Ever(cs, oid) == Ever(front, oid);
    }
  }

  lemma StoredAtFirst(limit: nat, oid: string)
    ensures Of([], oid) == Newest([], limit)
  {
  }

  lemma CreateCounts(t: Table, oid: string, blob: Bytes, now: int, limit: nat)
    ensures Create(t, oid, blob, now, limit).nextSid == t.nextSid + 1
  {
  }

  /** After any creations across documents, each document keeps exactly the newest of all the
      snapshots ever made of it, as many as the limit allows, and lists them newest first. */
  lemma RetentionOverRuns(cs: seq<Creation>, limit: nat, oid: string)
    requires Later(cs)
    ensures List(Run(cs, limit), oid) == Reversed(Newest(Ever(cs, oid), limit))
    ensures |List(Run(cs, limit), oid)| == if |Ever(cs, oid)| < limit then |Ever(cs, oid)| else limit
  {
    StoredIsNewest(cs, limit, oid);
    EverIncreasing(cs, oid);
    SortedIsReversed(Newest(Ever(cs, oid), limit));
    ReversedMeaning(Newest(Ever(cs, oid), limit));
  }

  lemma {:induction false} FindSidMeaning(rows: seq<Snapshot>, s: Snapshot)
    requires s in rows && forall r <- rows :: r.sid == s.sid ==> r == s
    ensures FindSid(rows, s.sid) == Some(s)
  {
    if rows[0] != s {
      FindSidMeaning(rows[1..], s);
    }
  }

  lemma {:induction false} OfElements(rows: seq<Snapshot>, oid: string)
    ensures forall r :: r in Of(rows, oid) <==> r in rows && r.oid == oid
  {
    if rows != [] {
      OfElements(rows[1..], oid);
      assert rows == [rows[0]] + rows[1..];
    }
  }

  /** The restore path reads the most recent snapshot made of the document, trimmed or not. */
  lemma RestoreReadsTheLast(cs: seq<Creation>, limit: nat, oid: string)
    requires Later(cs) && limit > 0
    ensures var all := Ever(cs, oid);
            Latest(Run(cs, limit), oid) == if all == [] then None else Some(all[|all| - 1].blob)
  {
    hide Ever; hide NewestFirst; hide Run; hide Reversed; hide Of;
    RetentionOverRuns(cs, limit, oid);
    StoredIsNewest(cs, limit, oid);
    ReversedMeaning(Newest(Ever(cs, oid), limit));
    var t, all := Run(cs, limit), Ever(cs, oid);
    if all != [] {
      var s := List(t, oid)[0];
      assert s == all[|all| - 1];
      OfElements(t.rows, oid);
      assert s in Of(t.rows, oid);
      forall r <- t.rows | r.sid == s.sid ensures r == s {
        OfElements(t.rows, r.oid);
        StoredIsNewest(cs, limit, r.oid);
        EverIncreasing(cs, r.oid);
        EverIncreasing(cs, oid);
        assert r in Ever(cs, r.oid) && s in Ever(cs, oid);
      }
      FindSidMeaning(t.rows, s);
    }
  }

  // ---------------------------------------------------------------- whatever the clock says

  ghost predicate Descending(rows: seq<Snapshot>) {
    forall i, j | 0 <= i < j < |rows| :: rows[i].createdAt >= rows[j].createdAt
  }

  lemma {:induction false} InsertPermutes(s: Snapshot, sorted: seq<Snapshot>)
    ensures multiset(InsertNewest(s, sorted)) == multiset(sorted) + multiset{s}
  {
    if sorted != [] && sorted[0].createdAt > s.createdAt {
      InsertPermutes(s, sorted[1..]);
      assert sorted == [sorted[0]] + sorted[1..];
    }
  }

  lemma {:induction false} InsertKeepsOrder(s: Snapshot, sorted: seq<Snapshot>)
    requires Descending(sorted)
    ensures Descending(InsertNewest(s, sorted))
  {
    if sorted != [] && sorted[0].createdAt > s.createdAt {
      InsertKeepsOrder(s, sorted[1..]);
      InsertPermutes(s, sorted[1..]);
      DescendingCons(sorted[0], s, sorted[1..], InsertNewest(s, sorted[1..]));
    }
  }

  lemma DescendingCons(first: Snapshot, s: Snapshot, rest: seq<Snapshot>, tail: seq<Snapshot>)
    requires Descending(tail) && multiset(tail) == multiset(rest) + multiset{s}
    requires first.createdAt >= s.createdAt && forall r <- rest :: first.createdAt >= r.createdAt
    ensures Descending([first] + tail)
  {
    forall i | 0 <= i < |tail| ensures first.createdAt >= tail[i].createdAt {
      assert tail[i] in multiset(tail);
      assert tail[i] == s || tail[i] in rest;
    }
  }

  /** The list is a permutation of the rows, newest first. */
  lemma {:induction false} NewestFirstMeaning(rows: seq<Snapshot>)
    ensures multiset(NewestFirst(rows)) == multiset(rows) && |NewestFirst(rows)| == |rows|
    ensures Descending(NewestFirst(rows))
  {
    hide InsertNewest;
    if rows != [] {
      var front, last := rows[..|rows| - 1], rows[|rows| - 1];
      NewestFirstMeaning(front);
      InsertPermutes(last, NewestFirst(front));
      InsertKeepsOrder(last, NewestFirst(front));
      assert rows == front + [last];
      assert |multiset(NewestFirst(rows))| == |multiset(rows)|;
    }
  }

  /** Snapshots are numbered in the order of their insertion. */
  ghost predicate Numbered(rows: seq<Snapshot>, next: nat) {
    (forall r <- rows :: r.sid < next) && forall i, j | 0 <= i < j < |rows| :: rows[i].sid < rows[j].sid
  }

  lemma {:induction false} NumberedOnce(rows: seq<Snapshot>, next: nat, r: Snapshot)
    requires Numbered(rows, next)
    ensures multiset(rows)[r] <= 1
  {
    if rows != [] {
      NumberedOnce(rows[1..], next, r);
      assert rows == [rows[0]] + rows[1..];
    }
  }

  lemma NumberedParts(rows: seq<Snapshot>, next: nat)
    requires Numbered(rows, next) && rows != []
    ensures Numbered(rows[1..], next) && rows[0].sid < next && forall r <- rows[1..] :: rows[0].sid < r.sid
  {
    assert rows[0] in rows && forall r <- rows[1..] :: r in rows;
  }

  lemma NumberedCons(first: Snapshot, rows: seq<Snapshot>, next: nat)
    requires Numbered(rows, next) && first.sid < next && forall r <- rows :: first.sid < r.sid
    ensures Numbered([first] + rows, next)
  {
  }

  lemma {:induction false} OfNumbered(rows: seq<Snapshot>, next: nat, oid: string)
    requires Numbered(rows, next)
    ensures Numbered(Of(rows, oid), next)
  {
    if rows != [] {
      var rest := Of(rows[1..], oid);
      NumberedParts(rows, next);
      OfNumbered(rows[1..], next, oid);
      OfElements(rows[1..], oid);
      NumberedCons(rows[0], rest, next);
      assert [] + rest == rest;
      hide Numbered;
    }
  }

  lemma {:induction false} TrimElements(rows: seq<Snapshot>, oid: string, keep: seq<nat>)
    ensures forall r <- Trim(rows, oid, keep) :: r in rows
  {
    if rows != [] {
      TrimElements(rows[1..], oid, keep);
    }
  }

  lemma {:induction false} TrimNumbered(rows: seq<Snapshot>, next: nat, oid: string, keep: seq<nat>)
    requires Numbered(rows, next)
    ensures Numbered(Trim(rows, oid, keep), next)
  {
    hide Numbered;
    if rows != [] {
      var rest := Trim(rows[1..], oid, keep);
      NumberedParts(rows, next);
      TrimNumbered(rows[1..], next, oid, keep);
      TrimElements(rows[1..], oid, keep);
      NumberedCons(rows[0], rest, next);
      assert [] + rest == rest;
    }
  }

  lemma {:induction false} RunNumbered(cs: seq<Creation>, limit: nat)
    ensures Numbered(Run(cs, limit).rows, Run(cs, limit).nextSid)
  {
    if cs != [] {
      var c, t := cs[|cs| - 1], Run(cs[..|cs| - 1], limit);
      RunNumbered(cs[..|cs| - 1], limit);
      var rows := t.rows + [Snapshot(t.nextSid, c.oid, c.blob, c.now)];
      TrimNumbered(rows, t.nextSid + 1, c.oid, Sids(Take(NewestFirst(Of(rows, c.oid)), limit)));
    }
  }

  lemma {:induction false} KeptCounts(rows: seq<Snapshot>, keep: seq<nat>, r: Snapshot)
    ensures multiset(Kept(rows, keep))[r] == if r.sid in keep then multiset(rows)[r] else 0
  {
    if rows != [] {
      KeptCounts(rows[1..], keep, r);
      assert rows == [rows[0]] + rows[1..];
    }
  }

  lemma NumberedSids(rows: seq<Snapshot>, next: nat, r: Snapshot, s: Snapshot)
    requires Numbered(rows, next) && r in rows && s in rows && r.sid == s.sid
    ensures r == s
  {
  }

  /** What is kept is the front of the newest-first list. */
  lemma KeptIsTop(rows: seq<Snapshot>, next: nat, n: nat)
    requires Numbered(rows, next)
    ensures multiset(Kept(rows, Sids(Take(NewestFirst(rows), n)))) == multiset(Take(NewestFirst(rows), n))
  {
    hide Kept; hide NewestFirst; hide Numbered;
    var sorted := NewestFirst(rows);
    var top := Take(sorted, n);
    NewestFirstMeaning(rows);
    forall r ensures multiset(Kept(rows, Sids(top)))[r] == multiset(top)[r] {
      KeptCounts(rows, Sids(top), r);
      NumberedOnce(rows, next, r);
      assert sorted == top + sorted[|top|..];
      assert multiset(sorted)[r] == multiset(top)[r] + multiset(sorted[|top|..])[r];
      if r in top {
        var i :| 0 <= i < |top| && top[i] == r;
        assert Sids(top)[i] == r.sid && r in multiset(sorted);
      } else if r in rows && r.sid in Sids(top) {
        var i :| 0 <= i < |top| && top[i].sid == r.sid;
        assert top[i] in multiset(sorted);
        NumberedSids(rows, next, r, top[i]);
        assert false;
      }
    }
  }

  /** In every run, whatever the clock reads, one more creation keeps as many of the document's snapshots as
      the limit allows, and none that is older than one it drops; other documents keep theirs. */
  lemma RetentionAtAnyClock(cs: seq<Creation>, limit: nat, c: Creation, x: string)
    ensures var before, after := Run(cs, limit), Run(cs + [c], limit);
            var all := Of(before.rows, c.oid) + [Snapshot(before.nextSid, c.oid, c.blob, c.now)];
            var kept := Of(after.rows, c.oid);
            && |kept| == (if |all| < limit then |all| else limit)
            && (forall k <- kept :: k in all)
            && (forall k <- kept, d <- all | d !in kept :: d.createdAt <= k.createdAt)
            && (x != c.oid ==> Of(after.rows, x) == Of(before.rows, x))
  {
    var t := Run(cs, limit);
    var all := Of(t.rows, c.oid) + [Snapshot(t.nextSid, c.oid, c.blob, c.now)];
    RunStep(cs, limit, c);
    RunNumbered(cs, limit);
    hide *;
    CreateTrims(t, c.oid, c.blob, c.now, limit, x);
    TopIsNewest(all, t.nextSid + 1, limit);
  }

  lemma RunStep(cs: seq<Creation>, limit: nat, c: Creation)
    ensures Run(cs + [c], limit) == Create(Run(cs, limit), c.oid, c.blob, c.now, limit)
  {
    hide Create;
    assert (cs + [c])[..|cs + [c]| - 1] == cs;
  }

  lemma CreateTrims(t: Table, oid: string, blob: Bytes, now: int, limit: nat, x: string)
    requires Numbered(t.rows, t.nextSid)
    ensures var all := Of(t.rows, oid) + [Snapshot(t.nextSid, oid, blob, now)];
            && Numbered(all, t.nextSid + 1)
            && Of(Create(t, oid, blob, now, limit).rows, oid) == Kept(all, Sids(Take(NewestFirst(all), limit)))
            && (x != oid ==> Of(Create(t, oid, blob, now, limit).rows, x) == Of(t.rows, x))
  {
    hide Kept; hide NewestFirst; hide Sids; hide Take; hide Trim;
    var s := Snapshot(t.nextSid, oid, blob, now);
    var rows, all := t.rows + [s], Of(t.rows, oid) + [s];
    OfNumbered(rows, t.nextSid + 1, oid);
    OfConcat(t.rows, [s], oid);
    OfConcat(t.rows, [s], x);
    assert Of(rows, oid) == all;
    var keep := Sids(Take(NewestFirst(all), limit));
    TrimmedOf(rows, oid, keep, oid);
    TrimmedOf(rows, oid, keep, x);
  }

  lemma TopIsNewest(all: seq<Snapshot>, next: nat, limit: nat)
    requires Numbered(all, next)
    ensures var kept := Kept(all, Sids(Take(NewestFirst(all), limit)));
            && |kept| == (if |all| < limit then |all| else limit)
            && (forall k <- kept :: k in all)
            && (forall k <- kept, d <- all | d !in kept :: d.createdAt <= k.createdAt)
  {
    var sorted := NewestFirst(all);
    var top := Take(sorted, limit);
    hide Kept; hide NewestFirst; hide Numbered; hide Sids;
    var kept := Kept(all, Sids(top));
    KeptIsTop(all, next, limit);
    NewestFirstMeaning(all);
    assert |multiset(kept)| == |multiset(top)|;
    forall k <- kept ensures k in all && k in top {
      assert k in multiset(kept);
      assert k in multiset(sorted);
    }
    forall k <- kept, d <- all | d !in kept ensures d.createdAt <= k.createdAt {
      assert d in multiset(sorted) && d !in multiset(kept);
      var i :| 0 <= i < |top| && top[i] == k;
      var j :| 0 <= j < |sorted| && sorted[j] == d;
      if j < |top| {
        assert false;
      }
    }
  }

  // ---------------------------------------------------------------- the table in place

  class SnapshotStore {
    var rows: seq<Snapshot>
    var nextSid: nat

    ghost function State(): Table
      reads this
    {
      Table(rows, nextSid)
    }

    method CreateSnapshot(oid: string, blob: Bytes, now: int, limit: nat) returns (meta: Snapshot)
      modifies this
      ensures State() == Create(old(State()), oid, blob, now, limit)
      ensures meta == Snapshot(old(nextSid), oid, blob, now)
    {
      meta := Snapshot(nextSid, oid, blob, now);
      rows := rows + [meta];
      nextSid := nextSid + 1;
      var keep := Sids(Take(NewestFirst(Of(rows, oid)), limit));
      var left: seq<Snapshot> := [];
      for i := 0 to |rows|
        invariant left + Trim(rows[i..], oid, keep) == Trim(rows, oid, keep)
        invariant rows == old(rows) + [meta]
      {
        assert rows[i..][1..] == rows[i + 1..];
        if !(rows[i].oid == oid && rows[i].sid !in keep) {
          left := left + [rows[i]];
        }
      }
      rows := left;
    }
  }
}
