/** The views of a workspace: built as a tree, stored as a flat list in which each view names its
    parent and its children. */
module ViewHierarchy {
  type Id = string

  /** What a caller asks the builders for: a view and, in order, its child views. `info` stands for
      the name, the description, the layout and the icon. */
  datatype Plan = Plan(id: Id, info: string, children: seq<Plan>)

  datatype View = View(id: Id, parent: Id, info: string, children: seq<Id>)

  datatype ParentChildViews = ParentChildViews(parentView: View, childViews: seq<ParentChildViews>)

  function PlanIds(plans: seq<Plan>): seq<Id> {
    seq(|plans|, i requires 0 <= i < |plans| => plans[i].id)
  }

  function ViewOf(p: Plan, parent: Id): View {
    View(p.id, parent, p.info, PlanIds(p.children))
  }

  /** ViewBuilder::build: a child builder is made with its parent's id. */
  function Build(p: Plan, parent: Id): ParentChildViews
    decreases p, 1
  {
    ParentChildViews(ViewOf(p, parent), BuildAll(p.children, p.id))
  }

  function BuildAll(plans: seq<Plan>, parent: Id): seq<ParentChildViews>
    decreases plans, 0
  {
    if plans == [] then [] else [Build(plans[0], parent)] + BuildAll(plans[1..], parent)
  }

  function Flatten(views: seq<ParentChildViews>): seq<View> {
    if views == [] then []
    else [views[0].parentView] + Flatten(views[0].childViews) + Flatten(views[1..])
  }

  /** The ids of the planned views, each before its children and these in order. */
  function PreOrder(plans: seq<Plan>): seq<Id> {
    if plans == [] then [] else [plans[0].id] + PreOrder(plans[0].children) + PreOrder(plans[1..])
  }

  /** The flat list of a workspace. */
  function Flat(plans: seq<Plan>, workspace: Id): seq<View> {
    Flatten(BuildAll(plans, workspace))
  }

  lemma FlatUnfolds(plans: seq<Plan>, parent: Id)
    requires plans != []
    ensures Flat(plans, parent) == [ViewOf(plans[0], parent)] + Flat(plans[0].children, plans[0].id)
        + Flat(plans[1..], parent)
  {
    assert BuildAll(plans, parent)[1..] == BuildAll(plans[1..], parent);
  }

  ghost predicate NoDuplicate(ids: seq<Id>) {
    forall i, j | 0 <= i < j < |ids| :: ids[i] != ids[j]
  }

  function IdsOf(views: seq<View>): seq<Id> {
    seq(|views|, i requires 0 <= i < |views| => views[i].id)
  }

  /** Every planned view is listed once, in pre-order. */
  lemma {:induction false} FlatListsPreOrder(plans: seq<Plan>, parent: Id)
    ensures IdsOf(Flat(plans, parent)) == PreOrder(plans)
    decreases plans
  {
    if plans != [] {
      FlatUnfolds(plans, parent);
      FlatListsPreOrder(plans[0].children, plans[0].id);
      FlatListsPreOrder(plans[1..], parent);
      var first := [ViewOf(plans[0], parent)];
      assert IdsOf(first + Flat(plans[0].children, plans[0].id) + Flat(plans[1..], parent))
          == IdsOf(first) + IdsOf(Flat(plans[0].children, plans[0].id)) + IdsOf(Flat(plans[1..], parent));
    }
  }

  /** A view's parent is the given one, or the id of a view listed before it. */
  lemma {:induction false} ParentPrecedes(plans: seq<Plan>, parent: Id)
    ensures var all := Flat(plans, parent);
            forall i | 0 <= i < |all| :: all[i].parent == parent || exists j | 0 <= j < i :: all[j].id == all[i].parent
    decreases plans
  {
    if plans != [] {
      FlatUnfolds(plans, parent);
      var p := plans[0];
      var all, kids, rest := Flat(plans, parent), Flat(p.children, p.id), Flat(plans[1..], parent);
      ParentPrecedes(p.children, p.id);
      ParentPrecedes(plans[1..], parent);
      forall i | 0 <= i < |all| ensures all[i].parent == parent || exists j | 0 <= j < i :: all[j].id == all[i].parent {
        if 1 <= i <= |kids| {
          assert all[i] == kids[i - 1] && all[0].id == p.id;
          if kids[i - 1].parent != p.id {
            var j :| 0 <= j < i - 1 && kids[j].id == kids[i - 1].parent;
            assert all[j + 1] == kids[j];
          }
        } else if i > |kids| {
          var k := i - 1 - |kids|;
          assert all[i] == rest[k];
          if rest[k].parent != parent {
            var j :| 0 <= j < k && rest[j].id == rest[k].parent;
            assert all[j + 1 + |kids|] == rest[j];
          }
        }
      }
    }
  }

  // ---------------------------------------------------------------- the children of a view

  function ChildrenOf(views: seq<View>, x: Id): seq<View> {
    if views == [] then []
    else (if views[0].parent == x then [views[0]] else []) + ChildrenOf(views[1..], x)
  }

  lemma {:induction false} ChildrenOfConcat(a: seq<View>, b: seq<View>, x: Id)
    ensures ChildrenOf(a + b, x) == ChildrenOf(a, x) + ChildrenOf(b, x)
  {
    if a == [] {
      assert a + b == b;
    } else {
      assert (a + b)[0] == a[0] && (a + b)[1..] == a[1..] + b;
      ChildrenOfConcat(a[1..], b, x);
    }
  }

  /** No view of a forest has a parent from outside it, but for the given one. */
  lemma {:induction false} NoChildrenOutside(plans: seq<Plan>, parent: Id, x: Id)
    requires x != parent && x !in PreOrder(plans)
    ensures ChildrenOf(Flat(plans, parent), x) == []
    decreases plans
  {
    hide ChildrenOf; hide Flat;
    if plans != [] {
      var p := plans[0];
      assert p.id in PreOrder(plans);
      assert forall i :: i in PreOrder(p.children) || i in PreOrder(plans[1..]) ==> i in PreOrder(plans);
      FlatUnfolds(plans, parent);
      NoChildrenOutside(p.children, p.id, x);
      NoChildrenOutside(plans[1..], parent, x);
      SplitChildren(plans, parent, x);
    } else {
      NoViews(parent);
      assert ChildrenOf(Flat(plans, parent), x) == [] by { NoChildren(x); }
    }
  }

  lemma NoChildren(x: Id)
    ensures ChildrenOf([], x) == []
  {
  }

  lemma SplitChildren(plans: seq<Plan>, parent: Id, x: Id)
    requires plans != []
    ensures ChildrenOf(Flat(plans, parent), x) ==
            (if parent == x then [ViewOf(plans[0], parent)] else [])
            + ChildrenOf(Flat(plans[0].children, plans[0].id), x) + ChildrenOf(Flat(plans[1..], parent), x)
  {
    var first := [ViewOf(plans[0], parent)];
    FlatUnfolds(plans, parent);
    ChildrenOfConcat(first + Flat(plans[0].children, plans[0].id), Flat(plans[1..], parent), x);
    ChildrenOfConcat(first, Flat(plans[0].children, plans[0].id), x);
  }

  /** The views of the forest's own roots. */
  function Tops(plans: seq<Plan>, parent: Id): seq<View> {
    if plans == [] then [] else [ViewOf(plans[0], parent)] + Tops(plans[1..], parent)
  }

  ghost predicate Fresh(plans: seq<Plan>, parent: Id) {
    NoDuplicate(PreOrder(plans)) && parent !in PreOrder(plans)
  }

  lemma FreshParts(plans: seq<Plan>, parent: Id)
    requires plans != [] && Fresh(plans, parent)
    ensures Fresh(plans[0].children, plans[0].id) && Fresh(plans[1..], parent)
    ensures parent != plans[0].id && parent !in PreOrder(plans[0].children)
    ensures forall i :: !(i in [plans[0].id] + PreOrder(plans[0].children) && i in PreOrder(plans[1..]))
  {
    var own, kids, rest := [plans[0].id], PreOrder(plans[0].children), PreOrder(plans[1..]);
    var all := own + kids + rest;
    assert PreOrder(plans) == all;
    assert all[0] == plans[0].id;
    assert forall i | 0 <= i < |kids| :: all[i + 1] == kids[i];
    assert forall i | 0 <= i < |rest| :: all[i + 1 + |kids|] == rest[i];
  }

  lemma {:induction false} RootsInOrder(plans: seq<Plan>, parent: Id)
    requires Fresh(plans, parent)
    ensures ChildrenOf(Flat(plans, parent), parent) == Tops(plans, parent)
    decreases plans
  {
    hide ChildrenOf; hide Flat; hide PreOrder; hide Fresh;
    if plans == [] {
      NoViews(parent);
    } else {
      FreshParts(plans, parent);
      SplitChildren(plans, parent, parent);
      NoChildrenOutside(plans[0].children, plans[0].id, parent);
      RootsInOrder(plans[1..], parent);
    }
  }

  lemma NoViews(parent: Id)
    ensures Flat([], parent) == [] && ChildrenOf([], parent) == []
  {
  }

  // ---------------------------------------------------------------- growing the tree back

  function GrowAll(all: seq<View>, roots: seq<View>, depth: nat): seq<Plan>
    decreases depth, |roots|
  {
    if roots == [] || depth == 0 then []
    else
      [Plan(roots[0].id, roots[0].info, GrowAll(all, ChildrenOf(all, roots[0].id), depth - 1))]
      + GrowAll(all, roots[1..], depth)
  }

  function Height(plans: seq<Plan>): nat {
    if plans == [] then 0
    else
      var first, rest := 1 + Height(plans[0].children), Height(plans[1..]);
      if first > rest then first else rest
  }

  /** Nothing outside the forest has one of its views for parent. */
  ghost predicate Local(all: seq<View>, plans: seq<Plan>, parent: Id) {
    forall x <- PreOrder(plans) :: ChildrenOf(all, x) == ChildrenOf(Flat(plans, parent), x)
  }

  lemma LocalParts(all: seq<View>, plans: seq<Plan>, parent: Id)
    requires plans != [] && Fresh(plans, parent) && Local(all, plans, parent)
    ensures Local(all, plans[0].children, plans[0].id) && Local(all, plans[1..], parent)
    ensures ChildrenOf(all, plans[0].id) == Tops(plans[0].children, plans[0].id)
  {
    hide ChildrenOf; hide Flat;
    var p := plans[0];
    FreshParts(plans, parent);
    assert PreOrder(plans) == [p.id] + PreOrder(p.children) + PreOrder(plans[1..]);
    forall x | x == p.id || x in PreOrder(p.children)
      ensures ChildrenOf(all, x) == ChildrenOf(Flat(p.children, p.id), x)
    {
      SplitChildren(plans, parent, x);
      assert x in [p.id] + PreOrder(p.children);
      NoChildrenOutside(plans[1..], parent, x);
      assert x in PreOrder(plans);
    }
    forall x | x in PreOrder(plans[1..]) ensures ChildrenOf(all, x) == ChildrenOf(Flat(plans[1..], parent), x) {
      SplitChildren(plans, parent, x);
      assert x != p.id && x !in PreOrder(p.children) by { assert x !in [p.id] + PreOrder(p.children); }
      NoChildrenOutside(p.children, p.id, x);
      assert x in PreOrder(plans);
    }
    RootsInOrder(p.children, p.id);
  }

  lemma {:induction false} GrowsBack(all: seq<View>, plans: seq<Plan>, parent: Id, depth: nat)
    requires Fresh(plans, parent) && Local(all, plans, parent) && depth >= Height(plans)
    ensures GrowAll(all, Tops(plans, parent), depth) == plans
    decreases plans
  {
    hide Fresh; hide Local; hide ChildrenOf; hide PreOrder;
    if plans != [] {
      LocalParts(all, plans, parent);
      FreshParts(plans, parent);
      GrowsBack(all, plans[0].children, plans[0].id, depth - 1);
      GrowsBack(all, plans[1..], parent, depth);
      var roots := Tops(plans, parent);
      assert roots[0] == ViewOf(plans[0], parent) && roots[1..] == Tops(plans[1..], parent);
      assert plans == [plans[0]] + plans[1..];
    }
  }

  /** The flat list loses nothing: selecting views by parent, from the workspace down, gives back the
      planned trees, with every sibling in its place. */
  lemma FlatteningPreservesTrees(plans: seq<Plan>, workspace: Id, depth: nat)
    requires Fresh(plans, workspace) && depth >= Height(plans)
    ensures var all := Flat(plans, workspace);
            GrowAll(all, ChildrenOf(all, workspace), depth) == plans
  {
    RootsInOrder(plans, workspace);
    GrowsBack(Flat(plans, workspace), plans, workspace, depth);
  }

  /** Each listed view's `children` are, in order, the ids of the views that name it as parent. */
  lemma {:induction false} ChildrenFieldAgrees(all: seq<View>, plans: seq<Plan>, parent: Id, v: View)
    requires Fresh(plans, parent) && Local(all, plans, parent) && v in Flat(plans, parent)
    ensures v.children == IdsOf(ChildrenOf(all, v.id))
    decreases plans
  {
    hide Fresh; hide Local; hide ChildrenOf; hide PreOrder;
    if plans != [] {
      var p := plans[0];
      LocalParts(all, plans, parent);
      FreshParts(plans, parent);
      FlatUnfolds(plans, parent);
      if v == ViewOf(p, parent) {
        TopIds(p.children, p.id);
      } else if v in Flat(p.children, p.id) {
        ChildrenFieldAgrees(all, p.children, p.id, v);
      } else {
        ChildrenFieldAgrees(all, plans[1..], parent, v);
      }
    }
  }

  lemma {:induction false} TopIds(plans: seq<Plan>, parent: Id)
    ensures IdsOf(Tops(plans, parent)) == PlanIds(plans)
  {
    if plans != [] {
      TopIds(plans[1..], parent);
      assert PlanIds(plans) == [plans[0].id] + PlanIds(plans[1..]);
      assert IdsOf(Tops(plans, parent)) == [plans[0].id] + IdsOf(Tops(plans[1..], parent));
    }
  }

  // ---------------------------------------------------------------- the loop

  method FlattenViews(views: seq<ParentChildViews>) returns (result: seq<View>)
    ensures result == Flatten(views)
    decreases views
  {
    result := [];
    var i := 0;
    while i < |views|
      invariant 0 <= i <= |views| && result + Flatten(views[i..]) == Flatten(views)
    {
      var view := views[i];
      assert views[i..][0] == view && views[i..][1..] == views[i + 1..];
      result := result + [view.parentView];
      var below := FlattenViews(view.childViews);
      result := result + below;
      i := i + 1;
    }
    assert views[i..] == [];
  }
}
