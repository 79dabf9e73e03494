/** The member tables, the policies loaded from them, and the change log that keeps the enforcer
    level with them. */
module PolicyLog {
  import opened Common
  import opened PolicyCache
  import opened PolicyEnforcer
  import opened CachedEnforcer

  // ---------------------------------------------------------------- tables and what they grant

  datatype WorkspaceRow = WorkspaceRow(uid: int, roleId: int, workspaceId: string)

  datatype CollabRow = CollabRow(uid: int, oid: string, permissionId: int)

  /** af_workspace_member and af_collab_member by primary key. */
  datatype Tables = Tables(workspace: map<(int, string), int>, collab: map<(int, string), int>)

  /** af_permissions: the level of each permission id. */
  type Permissions = map<int, AFAccessLevel>

  function WorkspaceGrants(t: Tables): Grants {
    map k <- t.workspace :: (k.0, Workspace(k.1)) := Role(RoleOfCode(t.workspace[k]))
  }

  function CollabGrants(perms: Permissions, t: Tables): Grants {
    map k <- t.collab | t.collab[k] in perms :: (k.0, Collab(k.1)) := Level(perms[t.collab[k]])
  }

  function GrantsFrom(perms: Permissions, t: Tables): Grants {
    WorkspaceGrants(t) + CollabGrants(perms, t)
  }

  lemma WorkspaceGrantsMeaning(t: Tables, uid: int, id: string)
    ensures var g := WorkspaceGrants(t);
            && (uid, Collab(id)) !in g
            && ((uid, Workspace(id)) in g <==> (uid, id) in t.workspace)
            && ((uid, id) in t.workspace ==> g[(uid, Workspace(id))] == Role(RoleOfCode(t.workspace[(uid, id)])))
  {
    hide RoleOfCode;
  }

  lemma CollabGrantsMeaning(perms: Permissions, t: Tables, uid: int, id: string)
    ensures var g := CollabGrants(perms, t);
            && (uid, Workspace(id)) !in g
            && ((uid, Collab(id)) in g <==> (uid, id) in t.collab && t.collab[(uid, id)] in perms)
            && ((uid, id) in t.collab && t.collab[(uid, id)] in perms ==>
              g[(uid, Collab(id))] == Level(perms[t.collab[(uid, id)]]))
  {
  }

  lemma GrantsFromMeaning(perms: Permissions, t: Tables, uid: int, id: string)
    ensures var g := GrantsFrom(perms, t);
            && ((uid, Workspace(id)) in g <==> (uid, id) in t.workspace)
            && ((uid, id) in t.workspace ==> g[(uid, Workspace(id))] == Role(RoleOfCode(t.workspace[(uid, id)])))
            && ((uid, Collab(id)) in g <==> (uid, id) in t.collab && t.collab[(uid, id)] in perms)
            && ((uid, id) in t.collab && t.collab[(uid, id)] in perms ==>
              g[(uid, Collab(id))] == Level(perms[t.collab[(uid, id)]]))
  {
    hide WorkspaceGrants; hide CollabGrants; hide RoleOfCode;
    WorkspaceGrantsMeaning(t, uid, id);
    CollabGrantsMeaning(perms, t, uid, id);
  }

  // ---------------------------------------------------------------- loading

  /** The rows of select_workspace_member_perm_stream: every row once, in some order. */
  ghost predicate ListsWorkspace(rows: seq<WorkspaceRow>, t: Tables) {
    && (forall i, j | 0 <= i < j < |rows| :: (rows[i].uid, rows[i].workspaceId) != (rows[j].uid, rows[j].workspaceId))
    && (forall r <- rows :: (r.uid, r.workspaceId) in t.workspace && t.workspace[(r.uid, r.workspaceId)] == r.roleId)
    && (forall k <- t.workspace :: WorkspaceRow(k.0, t.workspace[k], k.1) in rows)
  }

  /** The rows of select_collab_member_access_level, an inner join with the permissions. */
  ghost predicate ListsCollab(rows: seq<CollabRow>, perms: Permissions, t: Tables) {
    && (forall i, j | 0 <= i < j < |rows| :: (rows[i].uid, rows[i].oid) != (rows[j].uid, rows[j].oid))
    && (forall r <- rows ::
          (r.uid, r.oid) in t.collab && t.collab[(r.uid, r.oid)] == r.permissionId && r.permissionId in perms)
    && (forall k <- t.collab | t.collab[k] in perms :: CollabRow(k.0, k.1, t.collab[k]) in rows)
  }

  function WorkspacePolicy(r: WorkspaceRow): Policy {
    PolicyOf(r.uid, Workspace(r.workspaceId), Role(RoleOfCode(r.roleId)))
  }

  function CollabPolicy(perms: Permissions, r: CollabRow): Policy
    requires r.permissionId in perms
  {
    PolicyOf(r.uid, Collab(r.oid), Level(perms[r.permissionId]))
  }

  /** What load_policy makes of the rows it reads. */
  function Reloaded(perms: Permissions, ws: seq<WorkspaceRow>, cs: seq<CollabRow>): State
    requires forall r <- cs :: r.permissionId in perms
  {
    State(seq(|ws|, i requires 0 <= i < |ws| => WorkspacePolicy(ws[i]))
          + seq(|cs|, i requires 0 <= i < |cs| => assert cs[i] in cs; CollabPolicy(perms, cs[i])),
          map[], map[])
  }

  method CreateWorkspacePolicies(rows: seq<WorkspaceRow>) returns (policies: seq<Policy>)
    ensures |policies| == |rows| && forall i | 0 <= i < |rows| :: policies[i] == WorkspacePolicy(rows[i])
  {
    hide Decimal; hide ObjectId; hide StoredName; hide RoleOfCode;
    policies := [];
    for i := 0 to |rows|
      invariant |policies| == i && forall j | 0 <= j < i :: policies[j] == WorkspacePolicy(rows[j])
    {
      policies := policies + [Policy(Decimal(rows[i].uid), ObjectId(Workspace(rows[i].workspaceId)),
        StoredName(Role(RoleOfCode(rows[i].roleId))))];
    }
  }

  method CreateCollabPolicies(perms: Permissions, rows: seq<CollabRow>) returns (policies: seq<Policy>)
    requires forall r <- rows :: r.permissionId in perms
    ensures |policies| == |rows| && forall i | 0 <= i < |rows| :: policies[i] == CollabPolicy(perms, rows[i])
  {
    hide Decimal; hide ObjectId; hide StoredName;
    policies := [];
    for i := 0 to |rows|
      invariant |policies| == i && forall j | 0 <= j < i :: policies[j] == CollabPolicy(perms, rows[j])
    {
      policies := policies + [Policy(Decimal(rows[i].uid), ObjectId(Collab(rows[i].oid)),
        StoredName(Level(perms[rows[i].permissionId])))];
    }
  }

  /** load_policy: an enforcer that lists exactly what the tables grant, with one policy for each
      user and object. */
  method LoadPolicy(perms: Permissions, ghost t: Tables, ws: seq<WorkspaceRow>, cs: seq<CollabRow>)
    returns (policies: seq<Policy>)
    requires ListsWorkspace(ws, t) && ListsCollab(cs, perms, t)
    ensures State(policies, map[], map[]) == Reloaded(perms, ws, cs)
    ensures Agrees(State(policies, map[], map[]), GrantsFrom(perms, t))
    ensures OnlyActionsCached(State(policies, map[], map[]))
  {
    hide WorkspacePolicy; hide CollabPolicy; hide GrantsFrom; hide Agrees;
    var workspacePolicies := CreateWorkspacePolicies(ws);
    var collabPolicies := CreateCollabPolicies(perms, cs);
    policies := workspacePolicies + collabPolicies;
    assert policies == Reloaded(perms, ws, cs).policies;
    ReloadedAgrees(perms, t, ws, cs);
  }

  lemma LoadedAgrees(perms: Permissions, t: Tables, ws: seq<WorkspaceRow>, cs: seq<CollabRow>, policies: seq<Policy>)
    requires ListsWorkspace(ws, t) && ListsCollab(cs, perms, t)
    requires |policies| == |ws| + |cs|
    requires forall i | 0 <= i < |ws| :: policies[i] == WorkspacePolicy(ws[i])
    requires forall i | 0 <= i < |cs| :: policies[|ws| + i] == CollabPolicy(perms, cs[i])
    ensures Agrees(State(policies, map[], map[]), GrantsFrom(perms, t))
  {
    hide Decimal; hide ObjectId; hide StoredName; hide RoleOfCode; hide ObjectKey; hide GrantsFrom;
    var g := GrantsFrom(perms, t);
    forall i | 0 <= i < |policies|
      ensures var k := KeyAt(ws, cs, i); k in g && policies[i] == PolicyOf(k.0, k.1, g[k])
    {
      if i < |ws| {
        assert ws[i] in ws;
        GrantsFromMeaning(perms, t, ws[i].uid, ws[i].workspaceId);
      } else {
        assert cs[i - |ws|] in cs;
        assert policies[|ws| + (i - |ws|)] == CollabPolicy(perms, cs[i - |ws|]);
        GrantsFromMeaning(perms, t, cs[i - |ws|].uid, cs[i - |ws|].oid);
      }
    }
    forall i, j | 0 <= i < j < |policies| ensures policies[i] != policies[j] {
      var k, l := KeyAt(ws, cs, i), KeyAt(ws, cs, j);
      assert k != l;
      if policies[i] == policies[j] { SameKey(k.0, k.1, l, g[l]); }
    }
    forall k <- g ensures PolicyOf(k.0, k.1, g[k]) in policies {
      match k.1
      case Workspace(id) =>
        GrantsFromMeaning(perms, t, k.0, id);
        var i :| 0 <= i < |ws| && ws[i] == WorkspaceRow(k.0, t.workspace[(k.0, id)], id);
        assert policies[i] in policies;
      case Collab(id) =>
        GrantsFromMeaning(perms, t, k.0, id);
        var i :| 0 <= i < |cs| && cs[i] == CollabRow(k.0, id, t.collab[(k.0, id)]);
        assert policies[|ws| + i] in policies;
    }
  }

  /** Whose policy stands at a position of the loaded list. */
  function KeyAt(ws: seq<WorkspaceRow>, cs: seq<CollabRow>, i: nat): Key
    requires i < |ws| + |cs|
  {
    if i < |ws| then (ws[i].uid, Workspace(ws[i].workspaceId)) else (cs[i - |ws|].uid, Collab(cs[i - |ws|].oid))
  }

  // ---------------------------------------------------------------- the change log

  datatype Trigger = Inserted | Updated | Deleted

  datatype WorkspaceChange = WorkspaceChange(trigger: Trigger, before: Option<WorkspaceRow>,
    after: Option<WorkspaceRow>)

  datatype CollabChange = CollabChange(trigger: Trigger, before: Option<CollabRow>, after: Option<CollabRow>)

  /** What the consumers do with a change; a malformed one is dropped. */
  function ConsumeWorkspace(s: State, c: WorkspaceChange): State {
    if c.trigger.Deleted? then
      match c.before
      case None => s
      case Some(row) => Remove(s, row.uid, Workspace(row.workspaceId))
    else
      match c.after
      case None => s
      case Some(row) => Update(s, row.uid, Workspace(row.workspaceId), Role(RoleOfCode(row.roleId))).0
  }

  function ConsumeCollab(s: State, perms: Permissions, c: CollabChange): State {
    if c.trigger.Deleted? then
      match c.before
      case None => s
      case Some(row) => Remove(s, row.uid, Collab(row.oid))
    else
      match c.after
      case Some(row) =>
        if row.permissionId in perms then Update(s, row.uid, Collab(row.oid), Level(perms[row.permissionId])).0 else s
      case None => s
  }

  /** A change the database reports: the row's trigger fires after the row has changed. */
  ghost predicate ReportedWorkspace(t: Tables, c: WorkspaceChange) {
    && (c.trigger.Inserted? <==> c.before.None?) && (c.trigger.Deleted? <==> c.after.None?)
    && (c.before.Some? ==> (c.before.value.uid, c.before.value.workspaceId) in t.workspace)
  }

  ghost predicate ReportedCollab(t: Tables, c: CollabChange) {
    && (c.trigger.Inserted? <==> c.before.None?) && (c.trigger.Deleted? <==> c.after.None?)
    && (c.before.Some? ==> (c.before.value.uid, c.before.value.oid) in t.collab)
  }

  function WorkspaceKey(r: WorkspaceRow): (int, string) { (r.uid, r.workspaceId) }

  function CollabKey(r: CollabRow): (int, string) { (r.uid, r.oid) }

  /** The tables after the change. */
  function WorkspaceChanged(t: Tables, c: WorkspaceChange): Tables {
    var without := if c.before.Some? then t.workspace - {WorkspaceKey(c.before.value)} else t.workspace;
    t.(workspace := if c.after.Some? then without[WorkspaceKey(c.after.value) := c.after.value.roleId] else without)
  }

  function CollabChanged(t: Tables, c: CollabChange): Tables {
    var without := if c.before.Some? then t.collab - {CollabKey(c.before.value)} else t.collab;
    t.(collab := if c.after.Some? then without[CollabKey(c.after.value) := c.after.value.permissionId] else without)
  }

  /** What happens to a running server: rows change and are consumed, and questions are asked. */
  datatype Event =
    | OnWorkspace(w: WorkspaceChange)
    | OnCollab(c: CollabChange)
    | OnEnforce(uid: int, o: ObjectType, action: Action)
    | OnGetAction(uid: int, o: ObjectType)

  function TablesAfter(t: Tables, e: Event): Tables {
    match e
    case OnWorkspace(w) => WorkspaceChanged(t, w)
    case OnCollab(c) => CollabChanged(t, c)
    case _ => t
  }

  function Consume(s: State, perms: Permissions, e: Event): State {
    match e
    case OnWorkspace(w) => ConsumeWorkspace(s, w)
    case OnCollab(c) => ConsumeCollab(s, perms, c)
    case OnEnforce(uid, o, a) => Enforce(s, uid, o, Do(a)).0
    case OnGetAction(uid, o) => GetAction(s, uid, o).0
  }

  function TablesRun(t: Tables, es: seq<Event>): Tables
    decreases |es|
  {
    if es == [] then t else TablesRun(TablesAfter(t, es[0]), es[1..])
  }

  function ConsumeAll(s: State, perms: Permissions, es: seq<Event>): State
    decreases |es|
  {
    if es == [] then s else ConsumeAll(Consume(s, perms, es[0]), perms, es[1..])
  }

  /** A change the tables allow: reported by a trigger, its permission known (a foreign key). */
  ghost predicate Legal(perms: Permissions, t: Tables, e: Event) {
    match e
    case OnWorkspace(w) => ReportedWorkspace(t, w)
    case OnCollab(c) => ReportedCollab(t, c) && (c.after.Some? ==> c.after.value.permissionId in perms)
    case _ => true
  }

  /** An update leaves the row's key as it was. */
  predicate KeepsKey(e: Event) {
    match e
    case OnWorkspace(w) => w.before.Some? && w.after.Some? ==>
      WorkspaceKey(w.before.value) == WorkspaceKey(w.after.value)
    case OnCollab(c) => c.before.Some? && c.after.Some? ==> CollabKey(c.before.value) == CollabKey(c.after.value)
    case _ => true
  }

  ghost predicate LegalRun(perms: Permissions, t: Tables, es: seq<Event>)
    decreases |es|
  {
    es != [] ==> Legal(perms, t, es[0]) && KeepsKey(es[0]) && LegalRun(perms, TablesAfter(t, es[0]), es[1..])
  }

  /** The enforcer's operation for an event, if it has one. */
  function OpOf(perms: Permissions, e: Event): Option<Op> {
    match e
    case OnWorkspace(w) =>
      if w.trigger.Deleted? then
        (if w.before.Some? then Some(DoRemove(w.before.value.uid, Workspace(w.before.value.workspaceId))) else None)
      else if w.after.Some? then
        Some(DoUpdate(w.after.value.uid, Workspace(w.after.value.workspaceId), Role(RoleOfCode(w.after.value.roleId))))
      else None
    case OnCollab(c) =>
      if c.trigger.Deleted? then
        (if c.before.Some? then Some(DoRemove(c.before.value.uid, Collab(c.before.value.oid))) else None)
      else if c.after.Some? && c.after.value.permissionId in perms then
        Some(DoUpdate(c.after.value.uid, Collab(c.after.value.oid), Level(perms[c.after.value.permissionId])))
      else None
    case OnEnforce(uid, o, a) => Some(DoEnforce(uid, o, Do(a)))
    case OnGetAction(uid, o) => Some(DoGetAction(uid, o))
  }

  lemma ConsumeIsStep(s: State, perms: Permissions, e: Event)
    ensures Consume(s, perms, e) == match OpOf(perms, e) case Some(op) => Step(s, op) case None => s
  {
  }

  /** What the listeners drop: a delete without the row it deleted, any other change without the row it
      left, and a collab change to an unknown permission. */
  lemma MalformedIsDropped(s: State, perms: Permissions, w: WorkspaceChange, c: CollabChange)
    ensures (if w.trigger.Deleted? then w.before.None? else w.after.None?) ==> ConsumeWorkspace(s, w) == s
    ensures (if c.trigger.Deleted? then c.before.None? else c.after.None?) ==> ConsumeCollab(s, perms, c) == s
    ensures !c.trigger.Deleted? && c.after.Some? && c.after.value.permissionId !in perms ==>
              ConsumeCollab(s, perms, c) == s
  {
    hide Remove; hide Update;
  }

  /** On the tables' side, a legal change of an unmoved row is the same single change of grants. */
  lemma TablesStep(perms: Permissions, t: Tables, e: Event)
    requires Legal(perms, t, e) && KeepsKey(e)
    ensures OpOf(perms, e).Some?
    ensures GrantsFrom(perms, TablesAfter(t, e)) == GrantsStep(GrantsFrom(perms, t), OpOf(perms, e).value)
  {
    hide RoleOfCode; hide GrantsFrom;
    var g, g' := GrantsFrom(perms, t), GrantsFrom(perms, TablesAfter(t, e));
    var h := GrantsStep(g, OpOf(perms, e).value);
    forall k: Key
      ensures k in g' <==> k in h
      ensures k in g' ==> g'[k] == h[k]
    {
      var id := match k.1 case Workspace(id) => id case Collab(id) => id;
      assert k == (k.0, Workspace(id)) || k == (k.0, Collab(id));
      GrantsFromMeaning(perms, t, k.0, id);
      GrantsFromMeaning(perms, TablesAfter(t, e), k.0, id);
    }
  }

  /** Replaying the change log keeps the enforcer in agreement with the tables. */
  lemma {:induction false} ReplayKeepsAgreement(s: State, perms: Permissions, t: Tables, es: seq<Event>)
    requires Agrees(s, GrantsFrom(perms, t)) && OnlyActionsCached(s) && LegalRun(perms, t, es)
    ensures Agrees(ConsumeAll(s, perms, es), GrantsFrom(perms, TablesRun(t, es)))
    ensures OnlyActionsCached(ConsumeAll(s, perms, es))
    decreases |es|
  {
    hide Agrees; hide OnlyActionsCached; hide GrantsFrom; hide Step; hide GrantsStep; hide Legal; hide TablesAfter;
    hide OpOf; hide Consume;
    if es != [] {
      ConsumeIsStep(s, perms, es[0]);
      TablesStep(perms, t, es[0]);
      var op := OpOf(perms, es[0]).value;
      OnlyPlain(perms, es[0]);
      PlainRunAgrees(s, GrantsFrom(perms, t), [op]);
      assert [op][1..] == [];
      assert Run(s, [op]) == Run(Step(s, op), []);
      assert GrantsRun(GrantsFrom(perms, t), [op]) == GrantsRun(GrantsStep(GrantsFrom(perms, t), op), []);
      ReplayKeepsAgreement(Consume(s, perms, es[0]), perms, TablesAfter(t, es[0]), es[1..]);
    }
  }

  lemma OnlyPlain(perms: Permissions, e: Event)
    requires OpOf(perms, e).Some?
    ensures Plain([OpOf(perms, e).value])
  {
  }

  /** The two sides agree on who holds what: equal sets of policies for equal grants. */
  lemma SamePolicies(s: State, r: State, g: Grants)
    requires Agrees(s, g) && Agrees(r, g)
    ensures forall p :: p in s.policies <==> p in r.policies
  {
    hide Decimal; hide ObjectId; hide StoredName;
  }

  lemma {:induction false} OnceEach(policies: seq<Policy>)
    requires NoDuplicate(policies)
    ensures forall p :: multiset(policies)[p] == if p in policies then 1 else 0
  {
    if policies != [] {
      OnceEach(policies[1..]);
      assert policies == [policies[0]] + policies[1..];
      assert policies[0] !in policies[1..];
    }
  }

  lemma GetActionMeaning(s: State, g: Grants, uid: int, o: ObjectType)
    requires Agrees(s, g)
    ensures GetAction(s, uid, o).1 == if (uid, o) in g then Some(StoredName(g[(uid, o)])) else None
  {
    hide Decimal; hide ObjectId; hide StoredName; hide ObjectKey; hide Scan;
    ScanMeaning(s, g, uid, o);
  }

  lemma ReloadedAgrees(perms: Permissions, t: Tables, ws: seq<WorkspaceRow>, cs: seq<CollabRow>)
    requires ListsWorkspace(ws, t) && ListsCollab(cs, perms, t)
    ensures Agrees(Reloaded(perms, ws, cs), GrantsFrom(perms, t))
  {
    hide GrantsFrom; hide Agrees; hide WorkspacePolicy; hide CollabPolicy;
    LoadedAgrees(perms, t, ws, cs, Reloaded(perms, ws, cs).policies);
  }

  /** Two states that agree with the same grants hold the same policies and answer alike. */
  lemma AgreeingAnswerAlike(s: State, r: State, g: Grants)
    requires Agrees(s, g) && Agrees(r, g)
    ensures multiset(s.policies) == multiset(r.policies)
    ensures forall uid, o :: GetAction(s, uid, o).1 == GetAction(r, uid, o).1
  {
    SamePolicies(s, r, g);
    OnceEach(s.policies);
    OnceEach(r.policies);
    hide Agrees; hide GetAction; hide StoredName;
    forall uid, o ensures GetAction(s, uid, o).1 == GetAction(r, uid, o).1 {
      GetActionMeaning(s, g, uid, o);
      GetActionMeaning(r, g, uid, o);
    }
  }

  /** Replaying the change log leaves a running server with what a restart would give it: however the
      final tables list their rows, the policies are the loaded ones, as many times each, and
      get_action answers alike. It takes questions about read, write and delete only, and updates that
      keep the row's key. */
  lemma ReplayEqualsReload(s: State, perms: Permissions, t: Tables, es: seq<Event>, ws: seq<WorkspaceRow>,
                           cs: seq<CollabRow>)
    requires Agrees(s, GrantsFrom(perms, t)) && OnlyActionsCached(s) && LegalRun(perms, t, es)
    requires ListsWorkspace(ws, TablesRun(t, es)) && ListsCollab(cs, perms, TablesRun(t, es))
    ensures var s', reloaded := ConsumeAll(s, perms, es), Reloaded(perms, ws, cs);
            && multiset(s'.policies) == multiset(reloaded.policies)
            && forall uid, o :: GetAction(s', uid, o).1 == GetAction(reloaded, uid, o).1
  {
    var known := forall r <- cs :: r.permissionId in perms;
    assert known;
    hide *;
    ReplayKeepsAgreement(s, perms, t, es);
    ReloadedAgrees(perms, TablesRun(t, es), ws, cs);
    AgreeingAnswerAlike(ConsumeAll(s, perms, es), Reloaded(perms, ws, cs), GrantsFrom(perms, TablesRun(t, es)));
  }

  /** Why the key must stay: an update that moves a row leaves the policy of its old key behind, so
      it agrees with a reload exactly when the key did not move. */
  lemma WorkspaceUpdateAgreesIff(s: State, perms: Permissions, t: Tables, w: WorkspaceChange)
    requires Agrees(s, GrantsFrom(perms, t)) && OnlyActionsCached(s)
    requires w.trigger.Updated? && ReportedWorkspace(t, w)
    ensures Agrees(ConsumeWorkspace(s, w), GrantsFrom(perms, WorkspaceChanged(t, w))) <==> KeepsKey(OnWorkspace(w))
  {
    hide Agrees; hide OnlyActionsCached; hide RoleOfCode; hide Update; hide StoredName; hide GrantsFrom; hide KeyOf;
    var before, after := w.before.value, w.after.value;
    var g := GrantsFrom(perms, t);
    var o, a := Workspace(after.workspaceId), Role(RoleOfCode(after.roleId));
    var g1 := g[(after.uid, o) := a];
    StoredKeyNotCached(s, after.uid, o, a);
    UpdateAgrees(s, g, after.uid, o, a);
    GrantsFromMeaning(perms, t, before.uid, before.workspaceId);
    GrantsFromMeaning(perms, WorkspaceChanged(t, w), before.uid, before.workspaceId);
    if KeepsKey(OnWorkspace(w)) {
      TablesStep(perms, t, OnWorkspace(w));
    } else {
      var s', g' := ConsumeWorkspace(s, w), GrantsFrom(perms, WorkspaceChanged(t, w));
      var k: Key := (before.uid, Workspace(before.workspaceId));
      assert k in g1 && k !in g';
      if Agrees(s', g') {
        ScanMeaning(s', g', k.0, k.1);
        ScanMeaning(s', g1, k.0, k.1);
        assert false;
      }
    }
  }

  /** The same for the collab listener, whose permissions are known. */
  lemma CollabUpdateAgreesIff(s: State, perms: Permissions, t: Tables, c: CollabChange)
    requires Agrees(s, GrantsFrom(perms, t)) && OnlyActionsCached(s)
    requires c.trigger.Updated? && ReportedCollab(t, c)
    requires t.collab[CollabKey(c.before.value)] in perms && c.after.value.permissionId in perms
    ensures Agrees(ConsumeCollab(s, perms, c), GrantsFrom(perms, CollabChanged(t, c))) <==> KeepsKey(OnCollab(c))
  {
    hide Agrees; hide OnlyActionsCached; hide Update; hide StoredName; hide GrantsFrom; hide KeyOf;
    var before, after := c.before.value, c.after.value;
    var g := GrantsFrom(perms, t);
    var o, a := Collab(after.oid), Level(perms[after.permissionId]);
    var g1 := g[(after.uid, o) := a];
    StoredKeyNotCached(s, after.uid, o, a);
    UpdateAgrees(s, g, after.uid, o, a);
    GrantsFromMeaning(perms, t, before.uid, before.oid);
    GrantsFromMeaning(perms, CollabChanged(t, c), before.uid, before.oid);
    if KeepsKey(OnCollab(c)) {
      TablesStep(perms, t, OnCollab(c));
    } else {
      var s', g' := ConsumeCollab(s, perms, c), GrantsFrom(perms, CollabChanged(t, c));
      var k: Key := (before.uid, Collab(before.oid));
      assert k in g1 && k !in g';
      if Agrees(s', g') {
        ScanMeaning(s', g', k.0, k.1);
        ScanMeaning(s', g1, k.0, k.1);
        assert false;
      }
    }
  }

  // ---------------------------------------------------------------- the listeners

  /** spawn_listen_on_collab_member_change, over the changes received. */
  method ListenOnCollabMemberChange(enforcer: AFEnforcer, perms: Permissions, changes: seq<CollabChange>)
    modifies enforcer
    ensures enforcer.State() == ConsumeAll(old(enforcer.State()), perms,
        seq(|changes|, i requires 0 <= i < |changes| => OnCollab(changes[i])))
  {
    hide PolicyEnforcer.Update; hide PolicyEnforcer.Remove; hide PolicyEnforcer.Enforce; hide PolicyEnforcer.GetAction;
    ghost var es := seq(|changes|, i requires 0 <= i < |changes| => OnCollab(changes[i]));
    ghost var start := enforcer.State();
    for i := 0 to |changes|
      invariant ConsumeAll(enforcer.State(), perms, es[i..]) == ConsumeAll(start, perms, es)
    {
      var change := changes[i];
      assert es[i..][0] == OnCollab(change) && es[i..][1..] == es[i + 1..];
      if change.trigger.Inserted? || change.trigger.Updated? {
        if change.after.Some? {
          var row := change.after.value;
          if row.permissionId in perms {
            var _ := enforcer.Update(row.uid, Collab(row.oid), Level(perms[row.permissionId]));
          }
        }
      } else if change.before.Some? {
        var _ := enforcer.Remove(change.before.value.uid, Collab(change.before.value.oid));
      }
    }
    assert es[|changes|..] == [];
  }

  /** spawn_listen_on_workspace_member_change. */
  method ListenOnWorkspaceMemberChange(enforcer: AFEnforcer, perms: Permissions, changes: seq<WorkspaceChange>)
    modifies enforcer
    ensures enforcer.State() == ConsumeAll(old(enforcer.State()), perms,
        seq(|changes|, i requires 0 <= i < |changes| => OnWorkspace(changes[i])))
  {
    hide PolicyEnforcer.Update; hide PolicyEnforcer.Remove; hide PolicyEnforcer.Enforce; hide PolicyEnforcer.GetAction;
    ghost var es := seq(|changes|, i requires 0 <= i < |changes| => OnWorkspace(changes[i]));
    ghost var start := enforcer.State();
    for i := 0 to |changes|
      invariant ConsumeAll(enforcer.State(), perms, es[i..]) == ConsumeAll(start, perms, es)
    {
      var change := changes[i];
      assert es[i..][0] == OnWorkspace(change) && es[i..][1..] == es[i + 1..];
      if change.trigger.Inserted? || change.trigger.Updated? {
        if change.after.Some? {
          var row := change.after.value;
          var _ := enforcer.Update(row.uid, Workspace(row.workspaceId), Role(RoleOfCode(row.roleId)));
        }
      } else if change.before.Some? {
        var _ := enforcer.Remove(change.before.value.uid, Workspace(change.before.value.workspaceId));
      }
    }
    assert es[|changes|..] == [];
  }
}
