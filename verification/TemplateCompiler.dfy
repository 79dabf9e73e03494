/** Document templates: a nested tree of blocks is compiled into a flat block table, an index of
    children lists and an index of texts, all under freshly generated names. */
module TemplateCompiler {
  import opened Common

  type Id = string

  /** A block of the JSON template. A value is its JSON text. */
  datatype Tree = Tree(ty: string, data: map<string, string>, children: seq<Tree>)

  datatype Block = Block(
    id: Id, ty: string, data: map<string, string>, parent: Id, children: Id,
    externalId: Option<Id>, externalType: Option<string>)

  datatype DocumentData = DocumentData(
    pageId: Id, blocks: map<Id, Block>, childrenMap: map<Id, seq<Id>>, textMap: map<Id, string>)

  const DELTA := "delta"
  const TEXT_EXTERNAL_TYPE := "text"

  /** nanoid!(10) as a supply of names: the n-th call returns names(n). */
  type Names = nat -> Id

  ghost predicate Fresh(names: Names) {
    && (forall i: nat :: names(i) != "")
    && (forall i: nat, j: nat :: names(i) == names(j) ==> i == j)
  }

  // ---------------------------------------------------------------- what is generated

  datatype Generated = Generated(blocks: seq<Block>, texts: seq<(Id, string)>, next: nat)

  function DeltaOf(t: Tree): Option<string> {
    if DELTA in t.data then Some(t.data[DELTA]) else None
  }

  /** The name index after the block itself has taken its names. */
  function AfterBlock(t: Tree, n: nat): nat {
    if DeltaOf(t).Some? then n + 3 else n + 2
  }

  /** block_to_block_pb: the id is drawn first, then the text's id if there is a delta, then the
      name of the children list. */
  function BlockOf(names: Names, t: Tree, parent: Id, n: nat): Block {
    if DeltaOf(t).Some? then
      Block(names(n), t.ty, t.data - {DELTA}, parent, names(n + 2), Some(names(n + 1)), Some(TEXT_EXTERNAL_TYPE))
    else
      Block(names(n), t.ty, t.data - {DELTA}, parent, names(n + 1), None, None)
  }

  function TextOf(names: Names, t: Tree, n: nat): seq<(Id, string)> {
    match DeltaOf(t)
    case Some(delta) => [(names(n + 1), delta)]
    case None => []
  }

  /** The blocks of a tree, children before their parent, with the id of the tree named names(n). */
  function Generate(names: Names, t: Tree, parent: Id, n: nat): (g: Generated)
    ensures n < g.next
    decreases t, 1
  {
    var kids := GenerateForest(names, t.children, names(n), AfterBlock(t, n));
    Generated(kids.blocks + [BlockOf(names, t, parent, n)], kids.texts + TextOf(names, t, n), kids.next)
  }

  function GenerateForest(names: Names, ts: seq<Tree>, parent: Id, n: nat): (g: Generated)
    ensures n <= g.next
    decreases ts, 0
  {
    if ts == [] then Generated([], [], n)
    else
      var first := Generate(names, ts[0], parent, n);
      var rest := GenerateForest(names, ts[1..], parent, first.next);
      Generated(first.blocks + rest.blocks, first.texts + rest.texts, rest.next)
  }

  /** The ids of the trees of a forest. */
  function ForestIds(names: Names, ts: seq<Tree>, parent: Id, n: nat): seq<Id>
    decreases ts
  {
    if ts == [] then []
    else [names(n)] + ForestIds(names, ts[1..], parent, Generate(names, ts[0], parent, n).next)
  }

  /** The ids of the blocks whose parent is `x`, in table order. */
  function ChildrenOf(blocks: seq<Block>, x: Id): seq<Id> {
    if blocks == [] then []
    else (if blocks[0].parent == x then [blocks[0].id] else []) + ChildrenOf(blocks[1..], x)
  }

  function Find(blocks: seq<Block>, id: Id): Option<Block> {
    if blocks == [] then None
    else if blocks[0].id == id then Some(blocks[0])
    else Find(blocks[1..], id)
  }

  /** One round of the loop of generate_children_map. */
  function AddChild(all: seq<Block>, m: map<Id, seq<Id>>, b: Block): map<Id, seq<Id>> {
    if b.parent == "" then m
    else
      match Find(all, b.parent)
      case None => m
      case Some(p) =>
        var siblings := if p.children in m then m[p.children] else [];
        var m1 := m[p.children := siblings + [b.id]];
        if b.children in m1 then m1 else m1[b.children := []]
  }

  function ChildrenMap(all: seq<Block>, done: seq<Block>): map<Id, seq<Id>> {
    if done == [] then map[]
    else AddChild(all, ChildrenMap(all, done[..|done| - 1]), done[|done| - 1])
  }

  function BlockTable(blocks: seq<Block>): map<Id, Block> {
    if blocks == [] then map[] else BlockTable(blocks[..|blocks| - 1])[blocks[|blocks| - 1].id := blocks[|blocks| - 1]]
  }

  function TextTable(texts: seq<(Id, string)>): map<Id, string> {
    if texts == [] then map[] else TextTable(texts[..|texts| - 1])[texts[|texts| - 1].0 := texts[|texts| - 1].1]
  }

  /** json_str_to_document on a parsed template: the page's id is the first name drawn. */
  function Document(names: Names, root: Tree): DocumentData {
    var g := Generate(names, root, "", 0);
    DocumentData(names(0), BlockTable(g.blocks), ChildrenMap(g.blocks, g.blocks), TextTable(g.texts))
  }

  // ---------------------------------------------------------------- reading a document back

  function Lookup(m: map<Id, seq<Id>>, k: Id): seq<Id> {
    if k in m then m[k] else []
  }

  /** Rebuild the tree under `id`, at most `depth` levels deep. */
  function Rebuild(doc: DocumentData, id: Id, depth: nat): Option<Tree>
    decreases depth, 0, 0
  {
    if depth == 0 || id !in doc.blocks then None
    else
      var b := doc.blocks[id];
      var kids := RebuildAll(doc, Lookup(doc.childrenMap, b.children), depth - 1);
      if kids.None? then None
      else
        match b.externalId
        case None => Some(Tree(b.ty, b.data, kids.value))
        case Some(e) =>
          if e in doc.textMap then Some(Tree(b.ty, b.data[DELTA := doc.textMap[e]], kids.value)) else None
  }

  function RebuildAll(doc: DocumentData, ids: seq<Id>, depth: nat): Option<seq<Tree>>
    decreases depth, 1, |ids|
  {
    if ids == [] then Some([])
    else
      match (Rebuild(doc, ids[0], depth), RebuildAll(doc, ids[1..], depth))
      case (Some(t), Some(ts)) => Some([t] + ts)
      case _ => None
  }

  function Height(t: Tree): nat
    decreases t, 1
  {
    1 + ForestHeight(t.children)
  }

  function ForestHeight(ts: seq<Tree>): nat
    decreases ts, 0
  {
    if ts == [] then 0 else if Height(ts[0]) > ForestHeight(ts[1..]) then Height(ts[0]) else ForestHeight(ts[1..])
  }

  // ---------------------------------------------------------------- where names come from

  /** `x` is one of the names drawn from `lo` up to `hi`. */
  ghost predicate Drawn(names: Names, lo: nat, hi: nat, x: Id) {
    exists k: nat | lo <= k < hi :: names(k) == x
  }

  /** A block's own names come from the range, and its parent is the given one or from the range. */
  ghost predicate InRange(names: Names, b: Block, parent: Id, lo: nat, hi: nat) {
    && Drawn(names, lo, hi, b.id) && Drawn(names, lo, hi, b.children)
    && (b.parent == parent || Drawn(names, lo, hi, b.parent))
  }

  ghost predicate AllInRange(names: Names, g: Generated, parent: Id, lo: nat, hi: nat) {
    && (forall b <- g.blocks :: InRange(names, b, parent, lo, hi))
    && (forall e <- g.texts :: Drawn(names, lo, hi, e.0))
  }

  lemma Widen(names: Names, g: Generated, parent: Id, lo: nat, hi: nat, outer: Id, lo': nat, hi': nat)
    requires AllInRange(names, g, parent, lo, hi) && lo' <= lo && hi <= hi'
    requires parent == outer || Drawn(names, lo', hi', parent)
    ensures AllInRange(names, g, outer, lo', hi')
  {
  }

  lemma {:induction false} GeneratedInRange(names: Names, t: Tree, parent: Id, n: nat)
    ensures AllInRange(names, Generate(names, t, parent, n), parent, n, Generate(names, t, parent, n).next)
    decreases t, 1
  {
    var kids := GenerateForest(names, t.children, names(n), AfterBlock(t, n));
    var g := Generate(names, t, parent, n);
    ForestInRange(names, t.children, names(n), AfterBlock(t, n));
    assert Drawn(names, n, g.next, names(n)) && Drawn(names, n, g.next, names(n + 1));
    assert DeltaOf(t).Some? ==> Drawn(names, n, g.next, names(n + 2));
    Widen(names, kids, names(n), AfterBlock(t, n), kids.next, parent, n, g.next);
  }

  lemma {:induction false} ForestInRange(names: Names, ts: seq<Tree>, parent: Id, n: nat)
    ensures AllInRange(names, GenerateForest(names, ts, parent, n), parent, n,
        GenerateForest(names, ts, parent, n).next)
    decreases ts, 0
  {
    if ts != [] {
      var first := Generate(names, ts[0], parent, n);
      var rest := GenerateForest(names, ts[1..], parent, first.next);
      GeneratedInRange(names, ts[0], parent, n);
      ForestInRange(names, ts[1..], parent, first.next);
      Widen(names, first, parent, n, first.next, parent, n, rest.next);
      Widen(names, rest, parent, first.next, rest.next, parent, n, rest.next);
    }
  }

  // ---------------------------------------------------------------- no name is used twice

  ghost predicate Distinct(g: Generated) {
    && (forall i, j | 0 <= i < j < |g.blocks| ::
          g.blocks[i].id != g.blocks[j].id && g.blocks[i].children != g.blocks[j].children)
    && (forall i, j | 0 <= i < j < |g.texts| :: g.texts[i].0 != g.texts[j].0)
  }

  /** Two outputs from disjoint ranges of names stay distinct when put together. */
  lemma DistinctJoin(names: Names, g: Generated, p: Id, lo: nat, mid: nat, h: Generated, q: Id, mid': nat, hi: nat,
                     next: nat)
    requires Fresh(names) && mid <= mid'
    requires AllInRange(names, g, p, lo, mid) && AllInRange(names, h, q, mid', hi)
    requires Distinct(g) && Distinct(h)
    ensures Distinct(Generated(g.blocks + h.blocks, g.texts + h.texts, next))
    ensures Distinct(Generated(h.blocks + g.blocks, h.texts + g.texts, next))
  {
    forall b <- g.blocks, c <- h.blocks ensures b.id != c.id && b.children != c.children {
      assert InRange(names, b, p, lo, mid) && InRange(names, c, q, mid', hi);
    }
    forall d <- g.texts, e <- h.texts ensures d.0 != e.0 {
      assert Drawn(names, lo, mid, d.0) && Drawn(names, mid', hi, e.0);
    }
  }

  lemma {:induction false} GeneratedDistinct(names: Names, t: Tree, parent: Id, n: nat)
    requires Fresh(names)
    ensures Distinct(Generate(names, t, parent, n))
    decreases t, 1
  {
    var m := AfterBlock(t, n);
    var kids := GenerateForest(names, t.children, names(n), m);
    var own := Generated([BlockOf(names, t, parent, n)], TextOf(names, t, n), m);
    ForestDistinct(names, t.children, names(n), m);
    ForestInRange(names, t.children, names(n), m);
    assert Drawn(names, n, m, names(n)) && Drawn(names, n, m, names(n + 1));
    assert DeltaOf(t).Some? ==> Drawn(names, n, m, names(n + 2));
    assert AllInRange(names, own, parent, n, m);
    DistinctJoin(names, own, parent, n, m, kids, names(n), m, kids.next, kids.next);
  }

  lemma {:induction false} ForestDistinct(names: Names, ts: seq<Tree>, parent: Id, n: nat)
    requires Fresh(names)
    ensures Distinct(GenerateForest(names, ts, parent, n))
    decreases ts, 0
  {
    if ts != [] {
      var first := Generate(names, ts[0], parent, n);
      var rest := GenerateForest(names, ts[1..], parent, first.next);
      GeneratedDistinct(names, ts[0], parent, n);
      ForestDistinct(names, ts[1..], parent, first.next);
      GeneratedInRange(names, ts[0], parent, n);
      ForestInRange(names, ts[1..], parent, first.next);
      DistinctJoin(names, first, parent, n, first.next, rest, parent, first.next, rest.next, rest.next);
    }
  }

  // ---------------------------------------------------------------- the children of a block

  lemma {:induction false} ChildrenOfConcat(a: seq<Block>, b: seq<Block>, x: Id)
    ensures ChildrenOf(a + b, x) == ChildrenOf(a, x) + ChildrenOf(b, x)
  {
    if a == [] {
      assert a + b == b;
    } else {
      assert (a + b)[0] == a[0] && (a + b)[1..] == a[1..] + b;
      ChildrenOfConcat(a[1..], b, x);
    }
  }

  lemma {:induction false} ChildrenOfNone(a: seq<Block>, x: Id)
    requires forall b <- a :: b.parent != x
    ensures ChildrenOf(a, x) == []
  {
    if a != [] {
      ChildrenOfNone(a[1..], x);
    }
  }

  lemma {:induction false} ChildrenOfElements(a: seq<Block>, x: Id, i: Id)
    ensures i in ChildrenOf(a, x) <==> exists b <- a :: b.parent == x && b.id == i
  {
    if a != [] {
      ChildrenOfElements(a[1..], x, i);
      assert a == [a[0]] + a[1..];
    }
  }

  lemma {:induction false} ChildrenOfOnce(a: seq<Block>, x: Id, i: Id)
    requires forall j, k | 0 <= j < k < |a| :: a[j].id != a[k].id
    ensures multiset(ChildrenOf(a, x))[i] <= 1
  {
    if a != [] {
      ChildrenOfOnce(a[1..], x, i);
      ChildrenOfElements(a[1..], x, i);
      var tail := ChildrenOf(a[1..], x);
      if a[0].parent == x {
        assert multiset([a[0].id] + tail) == multiset{a[0].id} + multiset(tail);
      } else {
        assert [] + tail == tail;
      }
    }
  }

  /** No block of a forest other than its trees' roots has the forest's parent for parent, and
      the trees' roots come in order. */
  lemma {:induction false} ForestChildren(names: Names, ts: seq<Tree>, parent: Id, n: nat)
    requires Fresh(names) && !Drawn(names, n, GenerateForest(names, ts, parent, n).next, parent)
    ensures ChildrenOf(GenerateForest(names, ts, parent, n).blocks, parent) == ForestIds(names, ts, parent, n)
    decreases ts
  {
    hide Generate;
    if ts != [] {
      var first := Generate(names, ts[0], parent, n);
      var rest := GenerateForest(names, ts[1..], parent, first.next);
      assert !Drawn(names, n, first.next, parent) && !Drawn(names, first.next, rest.next, parent);
      hide Drawn; hide ChildrenOf;
      OnlyRootIsChild(names, ts[0], parent, n);
      ForestChildren(names, ts[1..], parent, first.next);
      ChildrenOfConcat(first.blocks, rest.blocks, parent);
    } else {
      ChildrenOfNone([], parent);
    }
  }

  lemma OnlyRootIsChild(names: Names, t: Tree, parent: Id, n: nat)
    requires Fresh(names) && !Drawn(names, n, Generate(names, t, parent, n).next, parent)
    ensures ChildrenOf(Generate(names, t, parent, n).blocks, parent) == [names(n)]
  {
    hide GenerateForest;
    var m := AfterBlock(t, n);
    var kids := GenerateForest(names, t.children, names(n), m);
    ForestInRange(names, t.children, names(n), m);
    forall b <- kids.blocks ensures b.parent != parent {
      assert InRange(names, b, names(n), m, kids.next);
      assert Drawn(names, n, kids.next, names(n));
    }
    ChildrenOfNone(kids.blocks, parent);
    ChildrenOfConcat(kids.blocks, [BlockOf(names, t, parent, n)], parent);
  }

  // ---------------------------------------------------------------- the tables

  lemma {:induction false} BlockTableLookup(blocks: seq<Block>, k: nat)
    requires k < |blocks|
    requires forall i, j | 0 <= i < j < |blocks| :: blocks[i].id != blocks[j].id
    ensures blocks[k].id in BlockTable(blocks) && BlockTable(blocks)[blocks[k].id] == blocks[k]
  {
    if k < |blocks| - 1 {
      BlockTableLookup(blocks[..|blocks| - 1], k);
    }
  }

  lemma {:induction false} BlockTableDomain(blocks: seq<Block>, id: Id)
    ensures id in BlockTable(blocks) <==> exists b <- blocks :: b.id == id
  {
    if blocks != [] {
      var last := |blocks| - 1;
      BlockTableDomain(blocks[..last], id);
      assert blocks == blocks[..last] + [blocks[last]];
    }
  }

  lemma {:induction false} TextTableLookup(texts: seq<(Id, string)>, k: nat)
    requires k < |texts|
    requires forall i, j | 0 <= i < j < |texts| :: texts[i].0 != texts[j].0
    ensures texts[k].0 in TextTable(texts) && TextTable(texts)[texts[k].0] == texts[k].1
  {
    if k < |texts| - 1 {
      TextTableLookup(texts[..|texts| - 1], k);
    }
  }

  lemma {:induction false} FindMeaning(blocks: seq<Block>, id: Id)
    ensures Find(blocks, id).Some? ==> Find(blocks, id).value in blocks && Find(blocks, id).value.id == id
    ensures Find(blocks, id).None? ==> forall b <- blocks :: b.id != id
  {
    if blocks != [] {
      FindMeaning(blocks[1..], id);
      assert blocks == [blocks[0]] + blocks[1..];
    }
  }

  ghost predicate Keyed(all: seq<Block>) {
    && (forall b <- all :: b.id != "")
    && (forall b <- all, c <- all :: b.id == c.id || b.children == c.children ==> b == c)
  }

  /** Once the blocks of `done` have been visited, a block's list is exactly its visited children. */
  lemma {:induction false} ChildMapLookup(all: seq<Block>, done: seq<Block>, b: Block)
    requires Keyed(all) && b in all
    ensures Lookup(ChildrenMap(all, done), b.children) == ChildrenOf(done, b.id)
    decreases |done|
  {
    if done != [] {
      var front, last := done[..|done| - 1], done[|done| - 1];
      assert done == front + [last];
      ChildMapLookup(all, front, b);
      ChildrenOfConcat(front, [last], b.id);
      FindMeaning(all, last.parent);
    }
  }

  /** Every list belongs to some block. */
  lemma {:induction false} ChildMapKeys(all: seq<Block>, done: seq<Block>, k: Id)
    requires k in ChildrenMap(all, done) && forall b <- done :: b in all
    ensures exists b <- all :: b.children == k
    decreases |done|
  {
    var front, last := done[..|done| - 1], done[|done| - 1];
    FindMeaning(all, last.parent);
    assert last in all;
    if k in ChildrenMap(all, front) {
      ChildMapKeys(all, front, k);
    }
  }

  /** Once the blocks of `done` have been visited, a block has a list exactly if it, or a child of it, was
      among those that have a parent in the table. */
  lemma {:induction false} ChildMapDomain(all: seq<Block>, done: seq<Block>, b: Block)
    requires Keyed(all) && b in all && forall d <- done :: d in all
    requires forall d <- done :: d.parent == "" || exists p <- all :: p.id == d.parent
    ensures b.children in ChildrenMap(all, done) <==> (b in done && b.parent != "") || ChildrenOf(done, b.id) != []
    decreases |done|
  {
    if done != [] {
      var front, last := done[..|done| - 1], done[|done| - 1];
      assert done == front + [last] && last in done;
      assert forall d <- front :: d in done;
      ChildMapDomain(all, front, b);
      ChildrenOfConcat(front, [last], b.id);
      FindMeaning(all, last.parent);
      hide ChildrenOf;
      ChildMapStep(all, ChildrenMap(all, front), last, b);
      OnlyChild(last, b.id);
    }
  }

  lemma OnlyChild(b: Block, x: Id)
    ensures ChildrenOf([b], x) == if b.parent == x then [b.id] else []
  {
  }

  lemma ChildMapStep(all: seq<Block>, m: map<Id, seq<Id>>, last: Block, b: Block)
    requires Keyed(all) && b in all && last in all && (last.parent == "" || exists p <- all :: p.id == last.parent)
    ensures b.children in AddChild(all, m, last) <==>
            b.children in m || (last.parent != "" && (last == b || last.parent == b.id))
  {
    FindMeaning(all, last.parent);
  }

  lemma DistinctIsKeyed(names: Names, g: Generated, parent: Id, n: nat)
    requires Fresh(names) && Distinct(g) && AllInRange(names, g, parent, n, g.next)
    ensures Keyed(g.blocks)
  {
    forall b <- g.blocks ensures b.id != "" {
      assert InRange(names, b, parent, n, g.next);
    }
  }

  // ---------------------------------------------------------------- reading the document back

  /** The document holds what was generated, and knows each of its blocks' children. */
  ghost predicate Holds(doc: DocumentData, all: seq<Block>, g: Generated) {
    && (forall b <- g.blocks :: b.id in doc.blocks && doc.blocks[b.id] == b)
    && (forall e <- g.texts :: e.0 in doc.textMap && doc.textMap[e.0] == e.1)
    && (forall b <- g.blocks :: Lookup(doc.childrenMap, b.children) == ChildrenOf(all, b.id))
  }

  /** No block outside `blocks` has a parent named in the range. */
  ghost predicate Local(names: Names, all: seq<Block>, blocks: seq<Block>, lo: nat, hi: nat) {
    forall k: nat | lo <= k < hi :: ChildrenOf(all, names(k)) == ChildrenOf(blocks, names(k))
  }

  /** Blocks whose parents are drawn elsewhere can be dropped from a local part. */
  lemma LocalPart(names: Names, all: seq<Block>, a: seq<Block>, part: seq<Block>, b: seq<Block>, lo: nat, hi: nat,
                  lo': nat, hi': nat)
    requires Local(names, all, a + part + b, lo, hi) && lo <= lo' && hi' <= hi
    requires forall c <- a + b :: !Drawn(names, lo', hi', c.parent)
    ensures Local(names, all, part, lo', hi')
  {
    forall k: nat | lo' <= k < hi' ensures ChildrenOf(all, names(k)) == ChildrenOf(part, names(k)) {
      ChildrenOfConcat(a + part, b, names(k));
      ChildrenOfConcat(a, part, names(k));
      forall c | c in a || c in b ensures c.parent != names(k) {
        assert c in a + b;
      }
      ChildrenOfNone(a, names(k));
      ChildrenOfNone(b, names(k));
    }
  }

  /** What holds of a tree's output holds of its children's, and the tree's own list is known. */
  lemma TreeToKids(names: Names, doc: DocumentData, all: seq<Block>, t: Tree, parent: Id, n: nat)
    requires Fresh(names)
    requires !Drawn(names, n, Generate(names, t, parent, n).next, parent)
    requires Holds(doc, all, Generate(names, t, parent, n))
    requires Local(names, all, Generate(names, t, parent, n).blocks, n, Generate(names, t, parent, n).next)
    ensures var m := AfterBlock(t, n);
            var kids := GenerateForest(names, t.children, names(n), m);
            && !Drawn(names, m, kids.next, names(n))
            && Holds(doc, all, kids)
            && Local(names, all, kids.blocks, m, kids.next)
            && ChildrenOf(all, names(n)) == ForestIds(names, t.children, names(n), m)
  {
    hide GenerateForest; hide ForestIds; hide ChildrenOf;
    var m := AfterBlock(t, n);
    var b := BlockOf(names, t, parent, n);
    var kids := GenerateForest(names, t.children, names(n), m);
    var g := Generate(names, t, parent, n);
    assert Holds(doc, all, kids) by {
      assert forall c <- kids.blocks :: c in g.blocks;
      assert forall e <- kids.texts :: e in g.texts;
    }
    assert [] + kids.blocks + [b] == g.blocks;
    LocalPart(names, all, [], kids.blocks, [b], n, g.next, m, kids.next);
    ForestChildren(names, t.children, names(n), m);
    ChildrenOfConcat(kids.blocks, [b], names(n));
    assert Drawn(names, n, g.next, names(n));
    ChildrenOfNone([b], names(n));
  }

  lemma DeltaGoesBack(t: Tree)
    ensures DeltaOf(t).Some? ==> (t.data - {DELTA})[DELTA := DeltaOf(t).value] == t.data
    ensures DeltaOf(t).None? ==> t.data - {DELTA} == t.data
  {
  }

  lemma {:induction false} RebuildsTree(names: Names, doc: DocumentData, all: seq<Block>, t: Tree, parent: Id,
                                        n: nat, depth: nat)
    requires Fresh(names) && depth >= Height(t)
    requires !Drawn(names, n, Generate(names, t, parent, n).next, parent)
    requires Holds(doc, all, Generate(names, t, parent, n))
    requires Local(names, all, Generate(names, t, parent, n).blocks, n, Generate(names, t, parent, n).next)
    ensures Rebuild(doc, names(n), depth) == Some(t)
    decreases t, 1
  {
    hide Local; hide Fresh; hide Drawn; hide GenerateForest; hide ForestIds; hide ChildrenOf; hide RebuildAll;
    hide ForestHeight;
    var m := AfterBlock(t, n);
    TreeToKids(names, doc, all, t, parent, n);
    RebuildsForest(names, doc, all, t.children, names(n), m, depth - 1);
    var b, g := BlockOf(names, t, parent, n), Generate(names, t, parent, n);
    assert b in g.blocks;
    assert forall e <- TextOf(names, t, n) :: e in g.texts;
    assert RebuildAll(doc, Lookup(doc.childrenMap, b.children), depth - 1) == Some(t.children);
    DeltaGoesBack(t);
    if DeltaOf(t).Some? {
      assert (names(n + 1), DeltaOf(t).value) in g.texts;
    }
  }

  /** What holds of a forest's output holds of its first tree's and of the others'. */
  lemma ForestToParts(names: Names, doc: DocumentData, all: seq<Block>, ts: seq<Tree>, parent: Id, n: nat)
    requires Fresh(names) && ts != []
    requires !Drawn(names, n, GenerateForest(names, ts, parent, n).next, parent)
    requires Holds(doc, all, GenerateForest(names, ts, parent, n))
    requires Local(names, all, GenerateForest(names, ts, parent, n).blocks, n,
        GenerateForest(names, ts, parent, n).next)
    ensures var first := Generate(names, ts[0], parent, n);
            var rest := GenerateForest(names, ts[1..], parent, first.next);
            && !Drawn(names, n, first.next, parent) && !Drawn(names, first.next, rest.next, parent)
            && Holds(doc, all, first) && Local(names, all, first.blocks, n, first.next)
            && Holds(doc, all, rest) && Local(names, all, rest.blocks, first.next, rest.next)
  {
    hide Generate; hide Local; hide ChildrenOf;
    var first := Generate(names, ts[0], parent, n);
    var rest := GenerateForest(names, ts[1..], parent, first.next);
    var g := GenerateForest(names, ts, parent, n);
    GeneratedInRange(names, ts[0], parent, n);
    ForestInRange(names, ts[1..], parent, first.next);
    forall b <- rest.blocks ensures !Drawn(names, n, first.next, b.parent) {
      assert InRange(names, b, parent, first.next, rest.next);
    }
    forall b <- first.blocks ensures !Drawn(names, first.next, rest.next, b.parent) {
      assert InRange(names, b, parent, n, first.next);
    }
    assert [] + first.blocks + rest.blocks == g.blocks && first.blocks + rest.blocks + [] == g.blocks;
    LocalPart(names, all, [], first.blocks, rest.blocks, n, g.next, n, first.next);
    LocalPart(names, all, first.blocks, rest.blocks, [], n, g.next, first.next, rest.next);
  }

  lemma {:induction false} RebuildsForest(names: Names, doc: DocumentData, all: seq<Block>, ts: seq<Tree>,
                                          parent: Id, n: nat, depth: nat)
    requires Fresh(names) && depth >= ForestHeight(ts)
    requires !Drawn(names, n, GenerateForest(names, ts, parent, n).next, parent)
    requires Holds(doc, all, GenerateForest(names, ts, parent, n))
    requires Local(names, all, GenerateForest(names, ts, parent, n).blocks, n,
        GenerateForest(names, ts, parent, n).next)
    ensures RebuildAll(doc, ForestIds(names, ts, parent, n), depth) == Some(ts)
    decreases ts, 0
  {
    hide Local; hide Fresh; hide Drawn; hide Holds; hide Generate; hide GenerateForest; hide Rebuild; hide Height;
    if ts != [] {
      var next := Generate(names, ts[0], parent, n).next;
      ForestToParts(names, doc, all, ts, parent, n);
      RebuildsTree(names, doc, all, ts[0], parent, n, depth);
      RebuildsForest(names, doc, all, ts[1..], parent, next, depth);
      var ids := ForestIds(names, ts, parent, n);
      assert ids[0] == names(n) && ids[1..] == ForestIds(names, ts[1..], parent, next);
      assert ts == [ts[0]] + ts[1..];
    }
  }

  lemma DocumentHolds(names: Names, root: Tree)
    requires Fresh(names)
    ensures Holds(Document(names, root), Generate(names, root, "", 0).blocks, Generate(names, root, "", 0))
    ensures Keyed(Generate(names, root, "", 0).blocks)
  {
    hide ChildrenMap; hide Generate; hide BlockTable; hide TextTable; hide ChildrenOf;
    var g, doc := Generate(names, root, "", 0), Document(names, root);
    GeneratedDistinct(names, root, "", 0);
    GeneratedInRange(names, root, "", 0);
    DistinctIsKeyed(names, g, "", 0);
    forall b <- g.blocks
      ensures b.id in doc.blocks && doc.blocks[b.id] == b
      ensures Lookup(doc.childrenMap, b.children) == ChildrenOf(g.blocks, b.id)
    {
      var k :| 0 <= k < |g.blocks| && g.blocks[k] == b;
      BlockTableLookup(g.blocks, k);
      ChildMapLookup(g.blocks, g.blocks, b);
    }
    forall e <- g.texts ensures e.0 in doc.textMap && doc.textMap[e.0] == e.1 {
      var k :| 0 <= k < |g.texts| && g.texts[k] == e;
      TextTableLookup(g.texts, k);
    }
  }

  /** Compiling a template loses nothing: reading the document back from its page, through the
      children index, the block table and the text index, gives the very tree that was compiled. */
  lemma CompilationPreservesTree(names: Names, root: Tree, depth: nat)
    requires Fresh(names) && depth >= Height(root)
    ensures Rebuild(Document(names, root), Document(names, root).pageId, depth) == Some(root)
  {
    hide Rebuild; hide Generate;
    var g, doc := Generate(names, root, "", 0), Document(names, root);
    DocumentHolds(names, root);
    RebuildsTree(names, doc, g.blocks, root, "", 0, depth);
  }

  // ---------------------------------------------------------------- each block has one place

  /** Every block's parent is the given one or one of the generated blocks. */
  lemma {:induction false} ParentIsGenerated(names: Names, t: Tree, parent: Id, n: nat)
    ensures var all := Generate(names, t, parent, n).blocks;
            forall b <- all :: b == BlockOf(names, t, parent, n) || exists p <- all :: p.id == b.parent
    decreases t, 1
  {
    var all := Generate(names, t, parent, n).blocks;
    var kids := GenerateForest(names, t.children, names(n), AfterBlock(t, n)).blocks;
    var own := BlockOf(names, t, parent, n);
    ForestParents(names, t.children, names(n), AfterBlock(t, n));
    forall b <- all | b != own ensures exists p <- all :: p.id == b.parent {
      assert b in kids;
      if b.parent == names(n) {
        assert own in all;
      } else {
        var p :| p in kids && p.id == b.parent;
        assert p in all;
      }
    }
  }

  lemma {:induction false} ForestParents(names: Names, ts: seq<Tree>, parent: Id, n: nat)
    ensures var all := GenerateForest(names, ts, parent, n).blocks;
            forall b <- all :: b.parent == parent || exists p <- all :: p.id == b.parent
    decreases ts, 0
  {
    if ts != [] {
      var first := Generate(names, ts[0], parent, n);
      var rest := GenerateForest(names, ts[1..], parent, first.next);
      var all := GenerateForest(names, ts, parent, n).blocks;
      ParentIsGenerated(names, ts[0], parent, n);
      ForestParents(names, ts[1..], parent, first.next);
      forall b <- all | b.parent != parent ensures exists p <- all :: p.id == b.parent {
        if b in first.blocks {
          var p :| p in first.blocks && p.id == b.parent;
          assert p in all;
        } else {
          var p :| p in rest.blocks && p.id == b.parent;
          assert p in all;
        }
      }
    }
  }

  /** The block's parent is further on in the table. */
  ghost predicate ParentIsLater(all: seq<Block>, i: nat)
    requires i < |all|
  {
    exists j | i < j < |all| :: all[j].id == all[i].parent
  }

  /** Every block hangs under `parent` or comes before its own parent. */
  ghost predicate ChildrenFirst(all: seq<Block>, parent: Id) {
    forall i: nat | i < |all| :: all[i].parent == parent || ParentIsLater(all, i)
  }

  /** In the table every block comes before its parent, and the root comes last. */
  lemma {:induction false} ParentFollows(names: Names, t: Tree, parent: Id, n: nat)
    ensures var all := Generate(names, t, parent, n).blocks;
            ChildrenFirst(all, parent) && all != [] && all[|all| - 1] == BlockOf(names, t, parent, n)
    decreases t, 1
  {
    var kids := GenerateForest(names, t.children, names(n), AfterBlock(t, n)).blocks;
    ForestParentFollows(names, t.children, names(n), AfterBlock(t, n));
    KidsThenOwn(kids, BlockOf(names, t, parent, n));
  }

  lemma KidsThenOwn(kids: seq<Block>, own: Block)
    requires ChildrenFirst(kids, own.id)
    ensures ChildrenFirst(kids + [own], own.parent)
  {
    var all := kids + [own];
    forall i: nat | i < |kids| ensures ParentIsLater(all, i) {
      if kids[i].parent == own.id {
        assert all[|kids|].id == all[i].parent;
      } else {
        assert ParentIsLater(kids, i);
        var j :| i < j < |kids| && kids[j].id == kids[i].parent;
        assert all[j] == kids[j];
      }
    }
  }

  lemma {:induction false} ForestParentFollows(names: Names, ts: seq<Tree>, parent: Id, n: nat)
    ensures ChildrenFirst(GenerateForest(names, ts, parent, n).blocks, parent)
    decreases ts, 0
  {
    if ts != [] {
      var first := Generate(names, ts[0], parent, n);
      var rest := GenerateForest(names, ts[1..], parent, first.next);
      ParentFollows(names, ts[0], parent, n);
      ForestParentFollows(names, ts[1..], parent, first.next);
      OneAfterOther(first.blocks, rest.blocks, parent);
    }
  }

  lemma OneAfterOther(a: seq<Block>, b: seq<Block>, parent: Id)
    requires ChildrenFirst(a, parent) && ChildrenFirst(b, parent)
    ensures ChildrenFirst(a + b, parent)
  {
    var all := a + b;
    forall i: nat | i < |all| && all[i].parent != parent ensures ParentIsLater(all, i) {
      if i < |a| {
        assert ParentIsLater(a, i);
        var j :| i < j < |a| && a[j].id == a[i].parent;
        assert all[j] == a[j];
      } else {
        var k: nat := i - |a|;
        assert all[i] == b[k] && ParentIsLater(b, k);
        var j :| k < j < |b| && b[j].id == b[k].parent;
        assert all[j + |a|] == b[j];
      }
    }
  }

  /** Every block but the page is listed exactly once, in its parent's list and in no other; the
      page is listed nowhere. */
  lemma EveryBlockHasOnePlace(names: Names, root: Tree, id: Id)
    requires Fresh(names) && id in Document(names, root).blocks
    ensures var doc := Document(names, root);
            if id == doc.pageId then forall k <- doc.childrenMap :: id !in doc.childrenMap[k]
            else
              && doc.blocks[id].parent in doc.blocks
              && var home := doc.blocks[doc.blocks[id].parent].children;
                 && home in doc.childrenMap && multiset(doc.childrenMap[home])[id] == 1
                 && forall k <- doc.childrenMap | k != home :: id !in doc.childrenMap[k]
  {
    hide ChildrenMap; hide BlockTable; hide Generate;
    var doc, g := Document(names, root), Generate(names, root, "", 0);
    var all := g.blocks;
    DocumentHolds(names, root);
    GeneratedDistinct(names, root, "", 0);
    BlockTableDomain(all, id);
    var b :| b in all && b.id == id;
    RootBlock(names, root);
    forall k <- doc.childrenMap | id in doc.childrenMap[k]
      ensures exists p <- all :: p.children == k && p.id == b.parent
    {
      ChildMapKeys(all, all, k);
      var p :| p in all && p.children == k;
      assert Lookup(doc.childrenMap, k) == ChildrenOf(all, p.id);
      ChildrenOfElements(all, p.id, id);
    }
    if id != doc.pageId {
      ParentIsGenerated(names, root, "", 0);
      var p :| p in all && p.id == b.parent;
      ChildrenOfElements(all, p.id, id);
      ChildrenOfOnce(all, p.id, id);
      assert Lookup(doc.childrenMap, p.children) == ChildrenOf(all, p.id);
    }
  }

  lemma RootBlock(names: Names, root: Tree)
    ensures BlockOf(names, root, "", 0) in Generate(names, root, "", 0).blocks
    ensures BlockOf(names, root, "", 0).parent == "" && BlockOf(names, root, "", 0).id == names(0)
  {
  }

  // ---------------------------------------------------------------- the document, exactly

  /** A block's own fields: no delta in its data, and an external text of that type exactly if it had one. */
  predicate WellFormed(b: Block) {
    "delta" !in b.data && b.externalType == if b.externalId.Some? then Some("text") else None
  }

  predicate NamesText(blocks: seq<Block>, k: Id) {
    exists b <- blocks :: b.externalId == Some(k)
  }

  predicate HasText(texts: seq<(Id, string)>, k: Id) {
    exists e <- texts :: e.0 == k
  }

  /** Well-formed blocks, and the texts of exactly those that name one. */
  ghost predicate FieldsExact(g: Generated) {
    (forall b <- g.blocks :: WellFormed(b)) && forall k :: HasText(g.texts, k) <==> NamesText(g.blocks, k)
  }

  lemma FieldsJoin(g: Generated, h: Generated, next: nat)
    requires FieldsExact(g) && FieldsExact(h)
    ensures FieldsExact(Generated(g.blocks + h.blocks, g.texts + h.texts, next))
  {
    hide WellFormed;
    forall k
      ensures HasText(g.texts + h.texts, k) <==> HasText(g.texts, k) || HasText(h.texts, k)
      ensures NamesText(g.blocks + h.blocks, k) <==> NamesText(g.blocks, k) || NamesText(h.blocks, k)
    {
    }
  }

  lemma OwnFields(names: Names, t: Tree, parent: Id, n: nat)
    ensures FieldsExact(Generated([BlockOf(names, t, parent, n)], TextOf(names, t, n), n))
  {
    var b, texts := BlockOf(names, t, parent, n), TextOf(names, t, n);
    forall k ensures HasText(texts, k) <==> NamesText([b], k) {
      assert b in [b];
      if texts != [] { assert texts[0] in texts; }
    }
  }

  lemma {:induction false} GeneratedFields(names: Names, t: Tree, parent: Id, n: nat)
    ensures FieldsExact(Generate(names, t, parent, n))
    decreases t, 1
  {
    var kids := GenerateForest(names, t.children, names(n), AfterBlock(t, n));
    ForestFields(names, t.children, names(n), AfterBlock(t, n));
    OwnFields(names, t, parent, n);
    FieldsJoin(kids, Generated([BlockOf(names, t, parent, n)], TextOf(names, t, n), n), kids.next);
    hide FieldsExact; hide GenerateForest;
  }

  lemma {:induction false} ForestFields(names: Names, ts: seq<Tree>, parent: Id, n: nat)
    ensures FieldsExact(GenerateForest(names, ts, parent, n))
    decreases ts, 0
  {
    if ts != [] {
      var first := Generate(names, ts[0], parent, n);
      var rest := GenerateForest(names, ts[1..], parent, first.next);
      GeneratedFields(names, ts[0], parent, n);
      ForestFields(names, ts[1..], parent, first.next);
      FieldsJoin(first, rest, rest.next);
      hide FieldsExact; hide Generate;
    }
  }

  lemma {:induction false} TextTableDomain(texts: seq<(Id, string)>, k: Id)
    ensures k in TextTable(texts) <==> HasText(texts, k)
  {
    if texts != [] {
      var last := |texts| - 1;
      TextTableDomain(texts[..last], k);
      assert texts == texts[..last] + [texts[last]];
    }
  }

  lemma {:induction false} BlockTableKeyed(blocks: seq<Block>, id: Id)
    requires id in BlockTable(blocks)
    ensures BlockTable(blocks)[id].id == id && BlockTable(blocks)[id] in blocks
  {
    var last := |blocks| - 1;
    if id != blocks[last].id {
      BlockTableKeyed(blocks[..last], id);
      assert BlockTable(blocks)[id] == BlockTable(blocks[..last])[id];
    }
  }

  lemma {:induction false} ForestIdsEmpty(names: Names, ts: seq<Tree>, parent: Id, n: nat)
    ensures ForestIds(names, ts, parent, n) == [] <==> ts == []
  {
  }

  /** The table's blocks are the generated ones, and all but the page have a parent. */
  lemma TableIsGenerated(names: Names, root: Tree, id: Id)
    requires Fresh(names)
    ensures var doc, all := Document(names, root), Generate(names, root, "", 0).blocks;
            && (forall b <- all :: b.id in doc.blocks && doc.blocks[b.id] == b)
            && (id in doc.blocks ==>
                  && doc.blocks[id].id == id && doc.blocks[id] in all
                  && (doc.blocks[id].parent == "" <==> id == doc.pageId))
  {
    var doc, all := Document(names, root), Generate(names, root, "", 0).blocks;
    DocumentHolds(names, root);
    RootBlock(names, root);
    ParentIsGenerated(names, root, "", 0);
    hide Generate; hide ChildrenMap; hide TextTable; hide ChildrenOf; hide BlockOf;
    if id in doc.blocks {
      BlockTableKeyed(all, id);
      hide BlockTable;
      var b := doc.blocks[id];
      if b != BlockOf(names, root, "", 0) { var p :| p in all && p.id == b.parent; }
    }
  }

  /** A block has a children list exactly if it is not a page without children. */
  lemma ListExists(names: Names, root: Tree, b: Block)
    requires Fresh(names) && b in Generate(names, root, "", 0).blocks
    ensures b.children in Document(names, root).childrenMap <==> b.id != names(0) || root.children != []
    ensures b.children in Document(names, root).childrenMap ==>
              Document(names, root).childrenMap[b.children] == ChildrenOf(Generate(names, root, "", 0).blocks, b.id)
  {
    var all := Generate(names, root, "", 0).blocks;
    DocumentHolds(names, root);
    TableIsGenerated(names, root, b.id);
    ParentIsGenerated(names, root, "", 0);
    RootBlock(names, root);
    RootChildren(names, root);
    hide Generate; hide ChildrenMap; hide BlockTable; hide TextTable; hide ChildrenOf; hide BlockOf; hide Holds;
    hide Keyed;
    ChildMapDomain(all, all, b);
  }

  /** The tables of a compiled document hold what belongs in them and nothing more: each block under its own
      id, the lists of all blocks but a page without children, each with the ids of the block's children in
      order, and the texts of exactly the blocks that had a delta. */
  lemma DocumentIsExact(names: Names, root: Tree)
    requires Fresh(names)
    ensures var doc := Document(names, root);
            && doc.pageId in doc.blocks
            && (forall id <- doc.blocks ::
                  && doc.blocks[id].id == id && WellFormed(doc.blocks[id])
                  && (doc.blocks[id].parent == "" <==> id == doc.pageId))
            && (forall k :: k in doc.childrenMap <==>
                  exists id <- doc.blocks :: doc.blocks[id].children == k && (id != doc.pageId || root.children != []))
            && (forall id <- doc.blocks | doc.blocks[id].children in doc.childrenMap ::
                  doc.childrenMap[doc.blocks[id].children] == ChildrenOf(Generate(names, root, "", 0).blocks, id))
            && (forall k :: k in doc.textMap <==> exists id <- doc.blocks :: doc.blocks[id].externalId == Some(k))
  {
    var doc, g := Document(names, root), Generate(names, root, "", 0);
    var all := g.blocks;
    GeneratedFields(names, root, "", 0);
    RootBlock(names, root);
    forall id { TableIsGenerated(names, root, id); }
    ListsExact(names, root);
    assert forall b <- all :: b.id in doc.blocks && doc.blocks[b.id] == b;
    hide Generate; hide BlockTable; hide BlockOf; hide TextTable; hide ChildrenMap; hide WellFormed; hide ChildrenOf;
    assert doc.textMap == TextTable(g.texts);
    forall k ensures k in doc.textMap <==> exists id <- doc.blocks :: doc.blocks[id].externalId == Some(k) {
      TextTableDomain(g.texts, k);
      if NamesText(all, k) {
        var b :| b in all && b.externalId == Some(k);
        assert b.id in doc.blocks;
      }
    }
  }

  lemma ListsExact(names: Names, root: Tree)
    requires Fresh(names)
    ensures var doc := Document(names, root);
            && (forall k :: k in doc.childrenMap <==>
                  exists id <- doc.blocks :: doc.blocks[id].children == k && (id != doc.pageId || root.children != []))
            && (forall id <- doc.blocks | doc.blocks[id].children in doc.childrenMap ::
                  doc.childrenMap[doc.blocks[id].children] == ChildrenOf(Generate(names, root, "", 0).blocks, id))
  {
    var doc, all := Document(names, root), Generate(names, root, "", 0).blocks;
    forall id { TableIsGenerated(names, root, id); }
    forall b <- all
      ensures b.children in doc.childrenMap <==> b.id != names(0) || root.children != []
      ensures b.children in doc.childrenMap ==> doc.childrenMap[b.children] == ChildrenOf(all, b.id)
    {
      ListExists(names, root, b);
    }
    assert doc.childrenMap == ChildrenMap(all, all) && doc.pageId == names(0);
    hide Generate; hide BlockTable; hide TextTable; hide ChildrenMap; hide Document; hide ChildrenOf;
    forall k ensures k in doc.childrenMap <==>
        exists id <- doc.blocks :: doc.blocks[id].children == k && (id != doc.pageId || root.children != [])
    {
      if k in doc.childrenMap {
        ChildMapKeys(all, all, k);
        var b :| b in all && b.children == k;
        assert b.id in doc.blocks && doc.blocks[b.id].children == k;
      }
    }
  }

  lemma RootChildren(names: Names, root: Tree)
    requires Fresh(names)
    ensures ChildrenOf(Generate(names, root, "", 0).blocks, names(0)) == [] <==> root.children == []
  {
    var doc, g := Document(names, root), Generate(names, root, "", 0);
    DocumentHolds(names, root);
    TreeToKids(names, doc, g.blocks, root, "", 0);
    ForestIdsEmpty(names, root.children, names(0), AfterBlock(root, 0));
  }

  // ---------------------------------------------------------------- the compiler's loops

  /** IndexMap::insert on the map's entries in insertion order: a key already there keeps its place. */
  function Put<V>(entries: seq<V>, key: V -> Id, v: V): seq<V> {
    if entries == [] then [v]
    else if key(entries[0]) == key(v) then [v] + entries[1..]
    else [entries[0]] + Put(entries[1..], key, v)
  }

  /** IndexMap::extend. */
  function PutAll<V>(entries: seq<V>, key: V -> Id, vs: seq<V>): seq<V>
    decreases |vs|
  {
    if vs == [] then entries else PutAll(Put(entries, key, vs[0]), key, vs[1..])
  }

  function BlockKey(b: Block): Id { b.id }

  function TextKey(e: (Id, string)): Id { e.0 }

  /** A map whose keys are all new and distinct is appended as it is. */
  lemma {:induction false} PutAllAppends<V>(entries: seq<V>, key: V -> Id, vs: seq<V>)
    requires forall i, j | 0 <= i < j < |vs| :: key(vs[i]) != key(vs[j])
    requires forall e <- entries, v <- vs :: key(e) != key(v)
    ensures PutAll(entries, key, vs) == entries + vs
    decreases |vs|
  {
    if vs == [] {
      assert entries + vs == entries;
    } else {
      PutAppends(entries, key, vs[0]);
      assert entries + vs == (entries + [vs[0]]) + vs[1..];
      PutAllAppends(entries + [vs[0]], key, vs[1..]);
    }
  }

  lemma {:induction false} PutAppends<V>(entries: seq<V>, key: V -> Id, v: V)
    requires forall e <- entries :: key(e) != key(v)
    ensures Put(entries, key, v) == entries + [v]
  {
    if entries != [] {
      PutAppends(entries[1..], key, v);
      assert entries == [entries[0]] + entries[1..];
    }
  }

  /** The children's maps are appended to what came before. */
  lemma ExtendAppends(names: Names, before: Generated, p: Id, lo: nat, mid: nat, h: Generated, q: Id, hi: nat)
    requires Fresh(names) && Distinct(h)
    requires AllInRange(names, before, p, lo, mid) && AllInRange(names, h, q, mid, hi)
    ensures PutAll(before.blocks, BlockKey, h.blocks) == before.blocks + h.blocks
    ensures PutAll(before.texts, TextKey, h.texts) == before.texts + h.texts
  {
    forall b <- before.blocks, c <- h.blocks ensures BlockKey(b) != BlockKey(c) {
      assert InRange(names, b, p, lo, mid) && InRange(names, c, q, mid, hi);
    }
    forall d <- before.texts, e <- h.texts ensures TextKey(d) != TextKey(e) {
      assert Drawn(names, lo, mid, d.0) && Drawn(names, mid, hi, e.0);
    }
    PutAllAppends(before.blocks, BlockKey, h.blocks);
    PutAllAppends(before.texts, TextKey, h.texts);
  }

  /** What the loop of generate_blocks keeps: the maps so far, followed by what the remaining
      children will add, are what the whole list of children generates. */
  ghost predicate Sofar(names: Names, ts: seq<Tree>, i: nat, own: Id, m: nat, g: Generated) {
    && i <= |ts| && m <= g.next
    && AllInRange(names, g, own, m, g.next)
    && var rest := GenerateForest(names, ts[i..], own, g.next);
       GenerateForest(names, ts, own, m) == Generated(g.blocks + rest.blocks, g.texts + rest.texts, rest.next)
  }

  lemma SofarStep(names: Names, ts: seq<Tree>, i: nat, own: Id, m: nat, g: Generated)
    requires Fresh(names) && Sofar(names, ts, i, own, m, g) && i < |ts|
    ensures var h := Generate(names, ts[i], own, g.next);
            Sofar(names, ts, i + 1, own, m,
              Generated(PutAll(g.blocks, BlockKey, h.blocks), PutAll(g.texts, TextKey, h.texts), h.next))
  {
    hide Generate; hide PutAll; hide InRange; hide Distinct;
    var h := Generate(names, ts[i], own, g.next);
    GeneratedInRange(names, ts[i], own, g.next);
    GeneratedDistinct(names, ts[i], own, g.next);
    ExtendAppends(names, g, own, m, g.next, h, own, h.next);
    Widen(names, g, own, m, g.next, own, m, h.next);
    Widen(names, h, own, g.next, h.next, own, m, h.next);
    assert ts[i..][0] == ts[i] && ts[i..][1..] == ts[i + 1..];
    var rest := GenerateForest(names, ts[i + 1..], own, h.next);
    assert g.blocks + (h.blocks + rest.blocks) == (g.blocks + h.blocks) + rest.blocks;
    assert g.texts + (h.texts + rest.texts) == (g.texts + h.texts) + rest.texts;
  }

  /** generate_blocks. The names drawn so far are counted; the page's id is drawn by the caller. */
  method GenerateBlocks(names: Names, block: Tree, id: Option<Id>, parent: Id, drawn: nat)
    returns (blocks: seq<Block>, texts: seq<(Id, string)>, next: nat)
    requires Fresh(names)
    requires id.Some? ==> drawn > 0 && id.value == names(drawn - 1)
    ensures Generated(blocks, texts, next) == Generate(names, block, parent, if id.Some? then drawn - 1 else drawn)
    decreases block
  {
    hide Fresh; hide PutAll; hide GenerateForest; hide Sofar;
    ghost var n: nat := if id.Some? then drawn - 1 else drawn;
    var pb: Block, delta: Option<string>;
    pb, delta, next := BlockToPb(names, block, id, parent, drawn);
    blocks, texts := [], [];
    ghost var m := next;
    SofarStart(names, block.children, pb.id, m);
    var i := 0;
    while i < |block.children|
      invariant 0 <= i <= |block.children|
      invariant Sofar(names, block.children, i, pb.id, m, Generated(blocks, texts, next))
    {
      var childBlocks, childTexts, after := GenerateBlocks(names, block.children[i], None, pb.id, next);
      SofarStep(names, block.children, i, pb.id, m, Generated(blocks, texts, next));
      blocks := PutAll(blocks, BlockKey, childBlocks);
      texts := PutAll(texts, TextKey, childTexts);
      next := after;
      i := i + 1;
    }
    SofarEnd(names, block.children, pb.id, m, Generated(blocks, texts, next));
    OwnIsNew(names, block, parent, n);
    var externalId := pb.externalId;
    PutAppends(blocks, BlockKey, pb);
    blocks := Put(blocks, BlockKey, pb);
    if delta.Some? && externalId.Some? {
      PutAppends(texts, TextKey, (externalId.value, delta.value));
      texts := Put(texts, TextKey, (externalId.value, delta.value));
    }
  }

  method BlockToPb(names: Names, block: Tree, id: Option<Id>, parent: Id, drawn: nat)
    returns (pb: Block, delta: Option<string>, next: nat)
    requires id.Some? ==> drawn > 0 && id.value == names(drawn - 1)
    ensures var n: nat := if id.Some? then drawn - 1 else drawn;
            pb == BlockOf(names, block, parent, n) && next == AfterBlock(block, n)
    ensures delta == DeltaOf(block)
    ensures delta == (if "delta" in block.data then Some(block.data["delta"]) else None)
    ensures pb.ty == block.ty && pb.parent == parent && pb.data == block.data - {"delta"}
    ensures pb.id == (if id.Some? then id.value else names(drawn))
    ensures var rest: nat := if id.Some? then drawn else drawn + 1;
            && pb.externalId == (if delta.Some? then Some(names(rest)) else None)
            && pb.externalType == (if delta.Some? then Some("text") else None)
            && pb.children == names(if delta.Some? then rest + 1 else rest)
            && next == rest + (if delta.Some? then 2 else 1)
  {
    next := drawn;
    var own: Id;
    if id.Some? {
      own := id.value;
    } else {
      own := names(next);
      next := next + 1;
    }
    delta := if DELTA in block.data then Some(block.data[DELTA]) else None;
    var data := block.data - {DELTA};
    var externalId, externalType: Option<string> := None, None;
    if delta.Some? {
      externalId, externalType := Some(names(next)), Some(TEXT_EXTERNAL_TYPE);
      next := next + 1;
    }
    pb := Block(own, block.ty, data, parent, names(next), externalId, externalType);
    next := next + 1;
  }

  lemma SofarStart(names: Names, ts: seq<Tree>, own: Id, m: nat)
    ensures Sofar(names, ts, 0, own, m, Generated([], [], m))
  {
    var all := GenerateForest(names, ts, own, m);
    assert ts[0..] == ts && [] + all.blocks == all.blocks && [] + all.texts == all.texts;
  }

  lemma SofarEnd(names: Names, ts: seq<Tree>, own: Id, m: nat, g: Generated)
    requires Sofar(names, ts, |ts|, own, m, g)
    ensures g == GenerateForest(names, ts, own, m)
  {
    assert ts[|ts|..] == [] && g.blocks + [] == g.blocks && g.texts + [] == g.texts;
  }

  lemma OwnIsNew(names: Names, t: Tree, parent: Id, n: nat)
    requires Fresh(names)
    ensures var kids := GenerateForest(names, t.children, names(n), AfterBlock(t, n));
            && (forall b <- kids.blocks :: b.id != names(n))
            && (forall e <- kids.texts :: e.0 != names(n + 1))
  {
    var m := AfterBlock(t, n);
    var kids := GenerateForest(names, t.children, names(n), m);
    ForestInRange(names, t.children, names(n), m);
    forall b <- kids.blocks ensures b.id != names(n) {
      assert InRange(names, b, names(n), m, kids.next);
    }
  }

  method GenerateChildrenMap(blocks: seq<Block>) returns (childrenMap: map<Id, seq<Id>>)
    ensures childrenMap == ChildrenMap(blocks, blocks)
  {
    childrenMap := map[];
    var i := 0;
    while i < |blocks|
      invariant 0 <= i <= |blocks|
      invariant childrenMap == ChildrenMap(blocks, blocks[..i])
    {
      var block := blocks[i];
      assert blocks[..i + 1][..i] == blocks[..i];
      i := i + 1;
      if block.parent == "" {
        continue;
      }
      var parentBlock := Find(blocks, block.parent);
      if parentBlock.Some? {
        var children := parentBlock.value.children;
        if children !in childrenMap {
          childrenMap := childrenMap[children := []];
        }
        childrenMap := childrenMap[children := childrenMap[children] + [block.id]];
        if block.children !in childrenMap {
          childrenMap := childrenMap[block.children := []];
        }
      }
    }
    assert blocks[..i] == blocks;
  }

  /** json_str_to_document on a parsed template: what it returns reads back as the template. */
  method JsonToDocument(names: Names, root: Tree) returns (doc: DocumentData)
    requires Fresh(names)
    ensures doc == Document(names, root)
    ensures forall depth: nat | depth >= Height(root) :: Rebuild(doc, doc.pageId, depth) == Some(root)
  {
    hide Rebuild; hide RebuildAll; hide Generate; hide ChildrenMap;
    var pageId := names(0);
    var blocks, texts, next := GenerateBlocks(names, root, Some(pageId), "", 1);
    var childrenMap := GenerateChildrenMap(blocks);
    doc := DocumentData(pageId, BlockTable(blocks), childrenMap, TextTable(texts));
    forall depth: nat | depth >= Height(root) ensures Rebuild(doc, doc.pageId, depth) == Some(root) {
      CompilationPreservesTree(names, root, depth);
    }
  }
}
