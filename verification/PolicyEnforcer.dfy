/** The enforcer: policies, the result cache and the action cache, over every run of updates,
    removals and questions. */
module PolicyEnforcer {
  import opened Common
  import opened PolicyCache

  datatype State = State(policies: seq<Policy>, results: map<string, bool>, actions: map<string, string>)

  type Key = (int, ObjectType)

  // ---------------------------------------------------------------- the operations, on values

  function Related(policies: seq<Policy>, user: string, obj: string): seq<Policy> {
    if policies == [] then []
    else
      (if policies[0].obj == obj && policies[0].user == user then [policies[0]] else [])
      + Related(policies[1..], user, obj)
  }

  /** remove_policies. */
  function Without(policies: seq<Policy>, gone: seq<Policy>): seq<Policy> {
    if policies == [] then []
    else (if policies[0] in gone then [] else [policies[0]]) + Without(policies[1..], gone)
  }

  /** add_policy: false if it was there. */
  function Adding(policies: seq<Policy>, p: Policy): seq<Policy> {
    if p in policies then policies else policies + [p]
  }

  function KeyOf(p: Policy): string {
    PolicyKey(p.user, p.obj, p.action)
  }

  function Remove(s: State, uid: int, o: ObjectType): State {
    var gone := Related(s.policies, Decimal(uid), ObjectId(o));
    if gone == [] then s
    else State(Without(s.policies, gone), s.results - (set p <- gone :: KeyOf(p)), s.actions - {ObjectKey(uid, o)})
  }

  /** validate_obj_action. */
  predicate ValidPair(o: ObjectType, a: ActionType) {
    (o.Workspace? && a.Role?) || (o.Collab? && a.Level?)
  }

  const INVALID := "invalid object type and action type combination"

  function PolicyOf(uid: int, o: ObjectType, a: ActionType): Policy {
    Policy(Decimal(uid), ObjectId(o), StoredName(a))
  }

  function Update(s: State, uid: int, o: ObjectType, a: ActionType): (State, Result<bool, string>) {
    var p := PolicyOf(uid, o, a);
    if !ValidPair(o, a) then (s, Failure(INVALID))
    else if KeyOf(p) in s.results then (s, Success(s.results[KeyOf(p)]))
    else
      var s1 := Remove(s, uid, o);
      (State(Adding(s1.policies, p), s1.results, s1.actions[ObjectKey(uid, o) := StoredName(a)]),
        Success(p !in s1.policies))
  }

  function Verdict(s: State, uid: int, o: ObjectType, r: Request): bool {
    Matches(s.policies, Decimal(uid), ObjectId(o), RequestName(r))
  }

  function Enforce(s: State, uid: int, o: ObjectType, r: Request): (State, bool) {
    var key := PolicyKey(Decimal(uid), ObjectId(o), RequestName(r));
    if key in s.results then (s, s.results[key])
    else (s.(results := s.results[key := Verdict(s, uid, o, r)]), Verdict(s, uid, o, r))
  }

  /** The first policy of the user on the object, without any cache. */
  function Scan(policies: seq<Policy>, uid: int, o: ObjectType): Option<string> {
    var found := Related(policies, Decimal(uid), ObjectId(o));
    if found == [] then None else Some(found[0].action)
  }

  function GetAction(s: State, uid: int, o: ObjectType): (State, Option<string>) {
    var key := ObjectKey(uid, o);
    if key in s.actions then (s, Some(s.actions[key]))
    else
      match Scan(s.policies, uid, o)
      case None => (s, None)
      case Some(action) => (s.(actions := s.actions[key := action]), Some(action))
  }

  datatype Op =
    | DoUpdate(uid: int, o: ObjectType, act: ActionType)
    | DoRemove(uid: int, o: ObjectType)
    | DoEnforce(uid: int, o: ObjectType, request: Request)
    | DoGetAction(uid: int, o: ObjectType)

  function Step(s: State, op: Op): State {
    match op
    case DoUpdate(uid, o, a) => Update(s, uid, o, a).0
    case DoRemove(uid, o) => Remove(s, uid, o)
    case DoEnforce(uid, o, r) => Enforce(s, uid, o, r).0
    case DoGetAction(uid, o) => GetAction(s, uid, o).0
  }

  function Run(s: State, ops: seq<Op>): State
    decreases |ops|
  {
    if ops == [] then s else Run(Step(s, ops[0]), ops[1..])
  }

  // ---------------------------------------------------------------- what the policies grant

  /** Who holds what, with no policy list, no strings and no cache. */
  type Grants = map<Key, ActionType>

  ghost predicate NoDuplicate(policies: seq<Policy>) {
    forall i, j | 0 <= i < j < |policies| :: policies[i] != policies[j]
  }

  /** The policies are exactly the grants, each once, and the action cache agrees with them. */
  ghost predicate Agrees(s: State, g: Grants) {
    && NoDuplicate(s.policies)
    && (forall k <- g :: PolicyOf(k.0, k.1, g[k]) in s.policies)
    && (forall p <- s.policies :: exists k <- g :: p == PolicyOf(k.0, k.1, g[k]))
    && (forall uid, o :: ObjectKey(uid, o) in s.actions ==>
          (uid, o) in g && s.actions[ObjectKey(uid, o)] == StoredName(g[(uid, o)]))
  }

  /** Only questions about read, write and delete have been cached. */
  ghost predicate OnlyActionsCached(s: State) {
    forall key <- s.results :: exists uid, o, a: Action :: key == PolicyKey(Decimal(uid), ObjectId(o), ActionName(a))
  }

  lemma {:induction false} RelatedMeaning(policies: seq<Policy>, user: string, obj: string)
    ensures forall p :: p in Related(policies, user, obj) <==> p in policies && p.user == user && p.obj == obj
    ensures NoDuplicate(policies) ==> NoDuplicate(Related(policies, user, obj))
  {
    if policies != [] {
      RelatedMeaning(policies[1..], user, obj);
      assert policies == [policies[0]] + policies[1..];
    }
  }

  lemma {:induction false} WithoutMeaning(policies: seq<Policy>, gone: seq<Policy>)
    ensures forall p :: p in Without(policies, gone) <==> p in policies && p !in gone
    ensures NoDuplicate(policies) ==> NoDuplicate(Without(policies, gone))
  {
    if policies != [] {
      WithoutMeaning(policies[1..], gone);
      assert policies == [policies[0]] + policies[1..];
    }
  }

  lemma SameKey(uid: int, o: ObjectType, k: Key, a: ActionType)
    requires PolicyOf(k.0, k.1, a).user == Decimal(uid) && PolicyOf(k.0, k.1, a).obj == ObjectId(o)
    ensures k == (uid, o)
  {
    DecimalInjective(uid, k.0);
    ObjectIdInjective(o, k.1);
  }

  /** The policies of a user on an object: the granted one, or none. */
  lemma PolicyMeaning(s: State, g: Grants, uid: int, o: ObjectType, p: Policy)
    requires Agrees(s, g)
    ensures p in s.policies && p.user == Decimal(uid) && p.obj == ObjectId(o) <==>
            (uid, o) in g && p == PolicyOf(uid, o, g[(uid, o)])
  {
    hide Decimal; hide ObjectId; hide StoredName;
    if p in s.policies && p.user == Decimal(uid) && p.obj == ObjectId(o) {
      var k :| k in g && p == PolicyOf(k.0, k.1, g[k]);
      SameKey(uid, o, k, g[k]);
    }
  }

  lemma ScanMeaning(s: State, g: Grants, uid: int, o: ObjectType)
    requires Agrees(s, g)
    ensures Scan(s.policies, uid, o) == if (uid, o) in g then Some(StoredName(g[(uid, o)])) else None
  {
    hide Agrees; hide Decimal; hide ObjectId; hide StoredName; hide Related;
    var found := Related(s.policies, Decimal(uid), ObjectId(o));
    RelatedMeaning(s.policies, Decimal(uid), ObjectId(o));
    if found != [] {
      assert found[0] in found;
      PolicyMeaning(s, g, uid, o, found[0]);
    } else if (uid, o) in g {
      PolicyMeaning(s, g, uid, o, PolicyOf(uid, o, g[(uid, o)]));
    }
  }

  ghost predicate Permits(g: Grants, uid: int, o: ObjectType, r: Request) {
    (uid, o) in g && Linked(StoredName(g[(uid, o)]), RequestName(r))
  }

  lemma VerdictMeaning(s: State, g: Grants, uid: int, o: ObjectType, r: Request)
    requires Agrees(s, g)
    ensures Verdict(s, uid, o, r) == Permits(g, uid, o, r)
  {
    hide Agrees; hide Decimal; hide ObjectId; hide StoredName; hide Linked; hide RequestName;
    if Verdict(s, uid, o, r) {
      var p :| p in s.policies && p.user == Decimal(uid) && p.obj == ObjectId(o) && Linked(p.action, RequestName(r));
      PolicyMeaning(s, g, uid, o, p);
    }
    if Permits(g, uid, o, r) {
      PolicyMeaning(s, g, uid, o, PolicyOf(uid, o, g[(uid, o)]));
    }
  }

  /** What the matcher says of a user who holds something on an object, by the names of the levels. */
  lemma VerdictByGrant(s: State, g: Grants, uid: int, o: ObjectType)
    requires Agrees(s, g)
    ensures Verdict(s, uid, o, Do(Read)) <==> (uid, o) in g && g[(uid, o)].Level?
    ensures Verdict(s, uid, o, Do(Write)) <==>
            (uid, o) in g && (g[(uid, o)] == Level(ReadAndWrite) || g[(uid, o)] == Level(FullAccess))
    ensures Verdict(s, uid, o, Do(Delete)) <==> (uid, o) in g && g[(uid, o)] == Level(FullAccess)
    ensures forall a :: Verdict(s, uid, o, Hold(a)) <==> (uid, o) in g && g[(uid, o)] == a
  {
    hide Agrees; hide Verdict; hide Linked; hide StoredName; hide RequestName;
    forall r ensures Verdict(s, uid, o, r) == Permits(g, uid, o, r) { VerdictMeaning(s, g, uid, o, r); }
    if (uid, o) in g {
      forall r { LinkedMeaning(g[(uid, o)], r); }
    }
  }

  // ---------------------------------------------------------------- each operation

  lemma RemoveAgrees(s: State, g: Grants, uid: int, o: ObjectType)
    requires Agrees(s, g)
    ensures Agrees(Remove(s, uid, o), g - {(uid, o)})
  {
    hide Decimal; hide ObjectId; hide StoredName; hide Related; hide Without; hide ObjectKey;
    var gone := Related(s.policies, Decimal(uid), ObjectId(o));
    var s', g' := Remove(s, uid, o), g - {(uid, o)};
    RelatedMeaning(s.policies, Decimal(uid), ObjectId(o));
    WithoutMeaning(s.policies, gone);
    RelatedIsGranted(s, g, uid, o);
    if gone == [] {
      assert g' == g;
    } else {
      assert gone[0] in gone;
      forall k <- g' ensures PolicyOf(k.0, k.1, g'[k]) in s'.policies {
        if PolicyOf(k.0, k.1, g[k]) in gone { SameKey(uid, o, k, g[k]); }
      }
      forall uid', o' | ObjectKey(uid', o') in s'.actions
        ensures (uid', o') in g' && s'.actions[ObjectKey(uid', o')] == StoredName(g'[(uid', o')])
      {
        assert ObjectKey(uid', o') != ObjectKey(uid, o);
      }
    }
  }

  lemma RelatedIsGranted(s: State, g: Grants, uid: int, o: ObjectType)
    requires Agrees(s, g)
    ensures var gone := Related(s.policies, Decimal(uid), ObjectId(o));
            && (forall p :: p in gone <==> (uid, o) in g && p == PolicyOf(uid, o, g[(uid, o)]))
            && ((uid, o) in g ==> gone != []) && ((uid, o) !in g ==> gone == [])
  {
    hide Agrees; hide Decimal; hide ObjectId; hide StoredName; hide Related;
    var gone := Related(s.policies, Decimal(uid), ObjectId(o));
    RelatedMeaning(s.policies, Decimal(uid), ObjectId(o));
    forall p ensures p in gone <==> (uid, o) in g && p == PolicyOf(uid, o, g[(uid, o)]) {
      PolicyMeaning(s, g, uid, o, p);
    }
    assert gone != [] ==> gone[0] in gone;
    assert (uid, o) in g ==> PolicyOf(uid, o, g[(uid, o)]) in gone;
  }

  /** What a removal forgets of the caches: the cached answer about what the pair held, under its very
      name, and the pair's action; all other answers stay. */
  lemma RemoveForgets(s: State, g: Grants, uid: int, o: ObjectType)
    requires Agrees(s, g)
    ensures Remove(s, uid, o).results ==
            if (uid, o) in g then s.results - {KeyOf(PolicyOf(uid, o, g[(uid, o)]))} else s.results
    ensures Remove(s, uid, o).actions == if (uid, o) in g then s.actions - {ObjectKey(uid, o)} else s.actions
  {
    RelatedIsGranted(s, g, uid, o);
    hide Agrees; hide Decimal; hide ObjectId; hide StoredName; hide Related; hide Without; hide ObjectKey; hide KeyOf;
    var gone := Related(s.policies, Decimal(uid), ObjectId(o));
    if (uid, o) in g {
      var p := PolicyOf(uid, o, g[(uid, o)]);
      assert p in gone && (set q <- gone :: KeyOf(q)) == {KeyOf(p)};
    }
  }

  /** Removing a policy forgets no cached answer about an action. */
  lemma RemoveKeepsAnswers(s: State, g: Grants, uid: int, o: ObjectType)
    requires Agrees(s, g)
    ensures OnlyActionsCached(s) ==> Remove(s, uid, o).results == s.results
  {
    hide Decimal; hide ObjectId; hide StoredName; hide ActionName; hide Related; hide Without; hide ObjectKey;
    hide PolicyKey; hide Agrees;
    var gone := Related(s.policies, Decimal(uid), ObjectId(o));
    RelatedMeaning(s.policies, Decimal(uid), ObjectId(o));
    if OnlyActionsCached(s) {
      forall p <- gone ensures KeyOf(p) !in s.results {
        PolicyMeaning(s, g, uid, o, p);
        StoredKeyNotCached(s, uid, o, g[(uid, o)]);
      }
    }
  }

  lemma StoredKeyNotCached(s: State, uid: int, o: ObjectType, a: ActionType)
    requires OnlyActionsCached(s)
    ensures KeyOf(PolicyOf(uid, o, a)) !in s.results
  {
    hide Decimal; hide ObjectId; hide StoredName; hide ActionName; hide PolicyKey;
    if KeyOf(PolicyOf(uid, o, a)) in s.results {
      var uid', o', b: Action :| KeyOf(PolicyOf(uid, o, a)) == PolicyKey(Decimal(uid'), ObjectId(o'), ActionName(b));
      NoColonInRequest(Hold(a));
      NoColonInRequest(Do(b));
      PolicyKeyInjective(uid, o, StoredName(a), uid', o', ActionName(b));
      StoredIsNoAction(Hold(a));
      assert false;
    }
  }

  /** Past its checks, update leaves exactly one policy for the user and the object: the new one. */
  lemma UpdateAgrees(s: State, g: Grants, uid: int, o: ObjectType, a: ActionType)
    requires Agrees(s, g) && ValidPair(o, a) && KeyOf(PolicyOf(uid, o, a)) !in s.results
    ensures Agrees(Update(s, uid, o, a).0, g[(uid, o) := a]) && Update(s, uid, o, a).1 == Success(true)
  {
    hide Decimal; hide ObjectId; hide StoredName; hide ObjectKey; hide Remove; hide KeyOf;
    var s1, g1, p := Remove(s, uid, o), g - {(uid, o)}, PolicyOf(uid, o, a);
    RemoveAgrees(s, g, uid, o);
    PolicyMeaning(s1, g1, uid, o, p);
    var s', g' := Update(s, uid, o, a).0, g[(uid, o) := a];
    assert s'.policies == s1.policies + [p];
    forall q <- s'.policies ensures exists k <- g' :: q == PolicyOf(k.0, k.1, g'[k]) {
      if q == p {
        assert g'[(uid, o)] == a;
      } else {
        var k :| k in g1 && q == PolicyOf(k.0, k.1, g1[k]);
        assert k in g' && g'[k] == g1[k];
      }
    }
    forall uid', o' | ObjectKey(uid', o') in s'.actions
      ensures (uid', o') in g' && s'.actions[ObjectKey(uid', o')] == StoredName(g'[(uid', o')])
    {
      if ObjectKey(uid', o') == ObjectKey(uid, o) { ObjectKeyInjective(uid, o, uid', o'); }
    }
  }

  /** What update answers and leaves of the caches: a role on a collab or a level on a workspace is refused,
      an update whose key has a cached answer gives that answer, both changing nothing; any other forgets
      the answer about what was held and knows the new action. */
  lemma UpdateAnswers(s: State, g: Grants, uid: int, o: ObjectType, a: ActionType)
    requires Agrees(s, g)
    ensures var out, key := Update(s, uid, o, a), KeyOf(PolicyOf(uid, o, a));
            && (o.Workspace? != a.Role? ==>
                  out == (s, Failure("invalid object type and action type combination")))
            && (o.Workspace? == a.Role? && key in s.results ==> out == (s, Success(s.results[key])))
            && (o.Workspace? == a.Role? && key !in s.results ==>
                  && out.1 == Success(true) && out.0.actions == s.actions[ObjectKey(uid, o) := StoredName(a)]
                  && out.0.results ==
                       if (uid, o) in g then s.results - {KeyOf(PolicyOf(uid, o, g[(uid, o)]))} else s.results)
  {
    hide Agrees; hide Decimal; hide ObjectId; hide StoredName; hide ObjectKey; hide Remove; hide KeyOf;
    RemoveForgets(s, g, uid, o);
    if ValidPair(o, a) && KeyOf(PolicyOf(uid, o, a)) !in s.results {
      UpdateAgrees(s, g, uid, o, a);
      assert (s.actions - {ObjectKey(uid, o)})[ObjectKey(uid, o) := StoredName(a)]
          == s.actions[ObjectKey(uid, o) := StoredName(a)];
    }
  }

  /** A question leaves its answer in the cache and changes nothing else. */
  lemma QuestionsAreCached(s: State, uid: int, o: ObjectType, r: Request)
    ensures var s', key := Enforce(s, uid, o, r).0, PolicyKey(Decimal(uid), ObjectId(o), RequestName(r));
            && key in s'.results && s'.results[key] == Enforce(s, uid, o, r).1
            && s' == s.(results := s.results[key := s'.results[key]]) && (key in s.results ==> s' == s)
    ensures var s', action := GetAction(s, uid, o).0, GetAction(s, uid, o).1;
            && (action.None? ==> s' == s)
            && (action.Some? ==> s' == s.(actions := s.actions[ObjectKey(uid, o) := action.value]))
  {
    hide Decimal; hide ObjectId; hide RequestName; hide PolicyKey; hide ObjectKey; hide Verdict; hide Scan;
    var key := PolicyKey(Decimal(uid), ObjectId(o), RequestName(r));
    if key in s.results { assert s.results[key := s.results[key]] == s.results; }
    if ObjectKey(uid, o) in s.actions {
      assert s.actions[ObjectKey(uid, o) := s.actions[ObjectKey(uid, o)]] == s.actions;
    }
  }

  /** What an operation does to the grants. An update whose very key is in the result cache is lost. */
  function GrantsAfter(s: State, g: Grants, op: Op): Grants {
    match op
    case DoUpdate(uid, o, a) =>
      if ValidPair(o, a) && KeyOf(PolicyOf(uid, o, a)) !in s.results then g[(uid, o) := a] else g
    case DoRemove(uid, o) => g - {(uid, o)}
    case _ => g
  }

  lemma StepAgrees(s: State, g: Grants, op: Op)
    requires Agrees(s, g)
    ensures Agrees(Step(s, op), GrantsAfter(s, g, op))
  {
    hide Decimal; hide ObjectId; hide StoredName; hide ObjectKey; hide Remove; hide Scan; hide KeyOf; hide Verdict;
    match op
    case DoUpdate(uid, o, a) =>
      if ValidPair(o, a) && KeyOf(PolicyOf(uid, o, a)) !in s.results { UpdateAgrees(s, g, uid, o, a); }
    case DoRemove(uid, o) => RemoveAgrees(s, g, uid, o);
    case DoEnforce(uid, o, r) =>
    case DoGetAction(uid, o) =>
      ScanMeaning(s, g, uid, o);
      var s' := GetAction(s, uid, o).0;
      forall uid', o' | ObjectKey(uid', o') in s'.actions
        ensures (uid', o') in g && s'.actions[ObjectKey(uid', o')] == StoredName(g[(uid', o')])
      {
        if ObjectKey(uid', o') == ObjectKey(uid, o) { ObjectKeyInjective(uid, o, uid', o'); }
      }
  }

  // ---------------------------------------------------------------- every run

  ghost predicate Consistent(s: State) {
    exists g :: Agrees(s, g)
  }

  lemma {:induction false} RunKeepsConsistent(s: State, ops: seq<Op>)
    requires Consistent(s)
    ensures Consistent(Run(s, ops))
    decreases |ops|
  {
    hide Step; hide GrantsAfter; hide Agrees;
    if ops != [] {
      var g :| Agrees(s, g);
      StepAgrees(s, g, ops[0]);
      RunKeepsConsistent(Step(s, ops[0]), ops[1..]);
    }
  }

  /** In every run, whatever was asked and however updates were lost, there is at most one policy
      for a user on an object, and get_action answers what an uncached scan would. */
  lemma GetActionIsNeverStale(s: State, ops: seq<Op>, uid: int, o: ObjectType)
    requires Consistent(s)
    ensures var s' := Run(s, ops);
            && |Related(s'.policies, Decimal(uid), ObjectId(o))| <= 1
            && GetAction(s', uid, o).1 == Scan(s'.policies, uid, o)
  {
    hide Decimal; hide ObjectId; hide StoredName; hide ObjectKey; hide Related; hide Run;
    RunKeepsConsistent(s, ops);
    var s' := Run(s, ops);
    var g :| Agrees(s', g);
    ScanMeaning(s', g, uid, o);
    var found := Related(s'.policies, Decimal(uid), ObjectId(o));
    if |found| > 1 {
      RelatedMeaning(s'.policies, Decimal(uid), ObjectId(o));
      assert found[0] in found && found[1] in found;
      PolicyMeaning(s', g, uid, o, found[0]);
      PolicyMeaning(s', g, uid, o, found[1]);
      assert false;
    }
  }

  // ---------------------------------------------------------------- runs that ask only about actions

  ghost predicate Plain(ops: seq<Op>) {
    forall op <- ops :: op.DoEnforce? ==> op.request.Do?
  }

  function GrantsStep(g: Grants, op: Op): Grants {
    match op
    case DoUpdate(uid, o, a) => if ValidPair(o, a) then g[(uid, o) := a] else g
    case DoRemove(uid, o) => g - {(uid, o)}
    case _ => g
  }

  /** The grants after a run, by the operations alone. */
  function GrantsRun(g: Grants, ops: seq<Op>): Grants
    decreases |ops|
  {
    if ops == [] then g else GrantsRun(GrantsStep(g, ops[0]), ops[1..])
  }

  lemma PlainStep(s: State, g: Grants, op: Op)
    requires Agrees(s, g) && OnlyActionsCached(s) && Plain([op])
    ensures OnlyActionsCached(Step(s, op))
    ensures forall key <- s.results :: key in Step(s, op).results && Step(s, op).results[key] == s.results[key]
  {
    hide Decimal; hide ObjectId; hide StoredName; hide ObjectKey; hide PolicyKey; hide Remove; hide Scan;
    hide Verdict; hide Agrees; hide ActionName;
    assert op in [op];
    match op
    case DoUpdate(uid, o, a) => RemoveKeepsAnswers(s, g, uid, o);
    case DoRemove(uid, o) => RemoveKeepsAnswers(s, g, uid, o);
    case DoEnforce(uid, o, r) =>
    case DoGetAction(uid, o) =>
  }

  /** When enforce is only asked about read, write and delete, no update is ever lost to the cache:
      the policies are what the operations alone say, and every cached answer stays for good. */
  lemma {:induction false} PlainRunAgrees(s: State, g: Grants, ops: seq<Op>)
    requires Agrees(s, g) && OnlyActionsCached(s) && Plain(ops)
    ensures Agrees(Run(s, ops), GrantsRun(g, ops)) && OnlyActionsCached(Run(s, ops))
    ensures forall key <- s.results :: key in Run(s, ops).results && Run(s, ops).results[key] == s.results[key]
    decreases |ops|
  {
    hide Step; hide Agrees; hide OnlyActionsCached; hide KeyOf;
    if ops != [] {
      StepAgrees(s, g, ops[0]);
      PlainStep(s, g, ops[0]);
      if ops[0].DoUpdate? { StoredKeyNotCached(s, ops[0].uid, ops[0].o, ops[0].act); }
      PlainRunAgrees(Step(s, ops[0]), GrantsAfter(s, g, ops[0]), ops[1..]);
    }
  }

  // ---------------------------------------------------------------- cached answers, in every run

  /** What a run leaves everyone holding: an update whose very key is cached when it comes is lost. */
  function GrantsReached(s: State, g: Grants, ops: seq<Op>): Grants
    decreases |ops|
  {
    if ops == [] then g else GrantsReached(Step(s, ops[0]), GrantsAfter(s, g, ops[0]), ops[1..])
  }

  lemma {:induction false} RunAgrees(s: State, g: Grants, ops: seq<Op>)
    requires Agrees(s, g)
    ensures Agrees(Run(s, ops), GrantsReached(s, g, ops))
    decreases |ops|
  {
    hide Step; hide Agrees; hide GrantsAfter;
    if ops != [] {
      StepAgrees(s, g, ops[0]);
      RunAgrees(Step(s, ops[0]), GrantsAfter(s, g, ops[0]), ops[1..]);
    }
  }

  function AnswerKey(uid: int, o: ObjectType, r: Request): string {
    PolicyKey(Decimal(uid), ObjectId(o), RequestName(r))
  }

  /** If the request has a cached answer, it is the matcher's. */
  predicate FreshAnswer(s: State, uid: int, o: ObjectType, r: Request) {
    AnswerKey(uid, o, r) in s.results ==> s.results[AnswerKey(uid, o, r)] == Verdict(s, uid, o, r)
  }

  lemma AnswerKeyInjective(uid: int, o: ObjectType, r: Request, uid': int, o': ObjectType, r': Request)
    requires AnswerKey(uid, o, r) == AnswerKey(uid', o', r')
    ensures uid == uid' && o == o' && RequestName(r) == RequestName(r')
  {
    hide PolicyKey; hide Decimal; hide ObjectId; hide RequestName;
    NoColonInRequest(r);
    NoColonInRequest(r');
    PolicyKeyInjective(uid, o, RequestName(r), uid', o', RequestName(r'));
  }

  /** The only answer an operation adds is the matcher's to the question it asks. */
  lemma StepAddsVerdicts(s: State, op: Op, key: string)
    requires key in Step(s, op).results
    ensures || (key in s.results && Step(s, op).results[key] == s.results[key])
            || (&& op.DoEnforce? && key == AnswerKey(op.uid, op.o, op.request)
                && Step(s, op).results[key] == Verdict(s, op.uid, op.o, op.request))
  {
    hide PolicyKey; hide Decimal; hide ObjectId; hide RequestName; hide StoredName; hide ObjectKey; hide Verdict;
    hide Related; hide Without; hide Scan;
  }

  lemma StepKeepsFresh(s: State, g: Grants, op: Op, uid: int, o: ObjectType, r: Request)
    requires Agrees(s, g) && FreshAnswer(s, uid, o, r)
    requires op.DoUpdate? || op.DoRemove? ==> (op.uid, op.o) != (uid, o)
    ensures FreshAnswer(Step(s, op), uid, o, r)
  {
    hide Agrees; hide Step; hide AnswerKey; hide Verdict; hide KeyOf; hide Linked; hide StoredName; hide RequestName;
    var s', key := Step(s, op), AnswerKey(uid, o, r);
    StepAgrees(s, g, op);
    VerdictMeaning(s, g, uid, o, r);
    VerdictMeaning(s', GrantsAfter(s, g, op), uid, o, r);
    if key in s'.results {
      StepAddsVerdicts(s, op, key);
      if op.DoEnforce? && key == AnswerKey(op.uid, op.o, op.request) {
        AnswerKeyInjective(uid, o, r, op.uid, op.o, op.request);
        VerdictMeaning(s, g, op.uid, op.o, op.request);
      }
    }
  }

  lemma {:induction false} RunKeepsFresh(s: State, g: Grants, ops: seq<Op>, uid: int, o: ObjectType, r: Request)
    requires Agrees(s, g) && FreshAnswer(s, uid, o, r)
    requires forall op <- ops | op.DoUpdate? || op.DoRemove? :: (op.uid, op.o) != (uid, o)
    ensures FreshAnswer(Run(s, ops), uid, o, r)
    decreases |ops|
  {
    hide Agrees; hide Step; hide FreshAnswer; hide GrantsAfter;
    if ops != [] {
      assert ops[0] in ops;
      StepAgrees(s, g, ops[0]);
      StepKeepsFresh(s, g, ops[0], uid, o, r);
      RunKeepsFresh(Step(s, ops[0]), GrantsAfter(s, g, ops[0]), ops[1..], uid, o, r);
    }
  }

  /** For a pair that no later update or removal names, enforce answers any request, about an action, a
      role or a level, as the bare matcher would, whatever else is asked and changed. */
  lemma UntouchedPairStaysFresh(s: State, g: Grants, uid: int, o: ObjectType, r: Request, ops: seq<Op>)
    requires Agrees(s, g) && AnswerKey(uid, o, r) !in s.results
    requires forall op <- ops | op.DoUpdate? || op.DoRemove? :: (op.uid, op.o) != (uid, o)
    ensures var s' := Run(Enforce(s, uid, o, r).0, ops);
            Enforce(s', uid, o, r).1 == Verdict(s', uid, o, r)
  {
    hide Agrees; hide Run; hide Verdict; hide PolicyKey; hide Decimal; hide ObjectId; hide RequestName;
    StepKeepsFresh(s, g, DoEnforce(uid, o, r), uid, o, r);
    StepAgrees(s, g, DoEnforce(uid, o, r));
    RunKeepsFresh(Enforce(s, uid, o, r).0, g, ops, uid, o, r);
  }

  /** No operation drops a cached answer about an action: only stored names are dropped. */
  lemma StepKeepsActionAnswer(s: State, g: Grants, op: Op, uid: int, o: ObjectType, a: Action)
    requires Agrees(s, g) && AnswerKey(uid, o, Do(a)) in s.results
    ensures var key := AnswerKey(uid, o, Do(a));
            key in Step(s, op).results && Step(s, op).results[key] == s.results[key]
  {
    hide Decimal; hide ObjectId; hide StoredName; hide ActionName; hide ObjectKey; hide PolicyKey; hide Scan;
    hide Verdict; hide Agrees; hide Related; hide Without; hide AnswerKey;
    if op.DoUpdate? || op.DoRemove? {
      RemoveDropsStoredNames(s, g, op.uid, op.o, uid, o, a);
    }
  }

  lemma RemoveDropsStoredNames(s: State, g: Grants, uid: int, o: ObjectType, uid': int, o': ObjectType, a: Action)
    requires Agrees(s, g) && AnswerKey(uid', o', Do(a)) in s.results
    ensures var key := AnswerKey(uid', o', Do(a));
            key in Remove(s, uid, o).results && Remove(s, uid, o).results[key] == s.results[key]
  {
    hide Decimal; hide ObjectId; hide StoredName; hide ActionName; hide ObjectKey; hide PolicyKey; hide Agrees;
    hide Related; hide Without;
    var gone := Related(s.policies, Decimal(uid), ObjectId(o));
    RelatedMeaning(s.policies, Decimal(uid), ObjectId(o));
    forall p <- gone ensures KeyOf(p) != AnswerKey(uid', o', Do(a)) {
      PolicyMeaning(s, g, uid, o, p);
      if KeyOf(p) == AnswerKey(uid', o', Do(a)) {
        AnswerKeyInjective(uid, o, Hold(g[(uid, o)]), uid', o', Do(a));
        StoredIsNoAction(Hold(g[(uid, o)]));
        assert false;
      }
    }
  }

  lemma {:induction false} RunKeepsActionAnswer(s: State, g: Grants, ops: seq<Op>, uid: int, o: ObjectType, a: Action)
    requires Agrees(s, g) && AnswerKey(uid, o, Do(a)) in s.results
    ensures var key := AnswerKey(uid, o, Do(a));
            key in Run(s, ops).results && Run(s, ops).results[key] == s.results[key]
    decreases |ops|
  {
    hide Agrees; hide Step; hide AnswerKey; hide GrantsAfter;
    if ops != [] {
      StepAgrees(s, g, ops[0]);
      StepKeepsActionAnswer(s, g, ops[0], uid, o, a);
      RunKeepsActionAnswer(Step(s, ops[0]), GrantsAfter(s, g, ops[0]), ops[1..], uid, o, a);
    }
  }

  /** Once an action has been asked about, enforce gives that first answer for ever, in every run; it is
      what the matcher now says exactly if what the user holds now permits the action as it did then. */
  lemma CachedAnswerIsFreshIff(s: State, g: Grants, uid: int, o: ObjectType, a: Action, ops: seq<Op>)
    requires Agrees(s, g) && AnswerKey(uid, o, Do(a)) !in s.results
    ensures var s1 := Enforce(s, uid, o, Do(a)).0;
            var s' := Run(s1, ops);
            && Enforce(s', uid, o, Do(a)).1 == Permits(g, uid, o, Do(a))
            && (Enforce(s', uid, o, Do(a)).1 == Verdict(s', uid, o, Do(a)) <==>
                Permits(g, uid, o, Do(a)) == Permits(GrantsReached(s1, g, ops), uid, o, Do(a)))
  {
    hide Decimal; hide ObjectId; hide ObjectKey; hide PolicyKey; hide Verdict; hide Permits; hide Run;
    hide ActionName; hide Agrees; hide GrantsReached;
    var s1 := Enforce(s, uid, o, Do(a)).0;
    StepAgrees(s, g, DoEnforce(uid, o, Do(a)));
    VerdictMeaning(s, g, uid, o, Do(a));
    RunKeepsActionAnswer(s1, g, ops, uid, o, a);
    RunAgrees(s1, g, ops);
    VerdictMeaning(Run(s1, ops), GrantsReached(s1, g, ops), uid, o, Do(a));
  }

  /** Asking about an action does not stand in an update's way. */
  lemma UpdateAfterAction(s: State, g: Grants, uid: int, o: ObjectType, a: Action, held: ActionType)
    requires ValidPair(o, held) && AnswerKey(uid, o, Hold(held)) !in s.results
    ensures var s1 := Enforce(s, uid, o, Do(a)).0;
            GrantsReached(s1, g, [DoUpdate(uid, o, held)]) == g[(uid, o) := held]
  {
    var s1, up := Enforce(s, uid, o, Do(a)).0, DoUpdate(uid, o, held);
    assert KeyOf(PolicyOf(uid, o, held)) == AnswerKey(uid, o, Hold(held));
    hide PolicyKey; hide Decimal; hide ObjectId; hide StoredName; hide ActionName; hide Step; hide Verdict;
    if AnswerKey(uid, o, Hold(held)) in s1.results {
      AnswerKeyInjective(uid, o, Hold(held), uid, o, Do(a));
      StoredIsNoAction(Hold(held));
      assert false;
    }
    assert [up][1..] == [];
    assert GrantsReached(Step(s1, up), GrantsAfter(s1, g, up), []) == GrantsAfter(s1, g, up);
  }

  /** The family where the answer is stale: a reader is refused a write, is then given full access,
      and is still refused. */
  lemma UpgradeIsNotSeen(s: State, g: Grants, uid: int, oid: string)
    requires Agrees(s, g) && AnswerKey(uid, Collab(oid), Do(Write)) !in s.results
    requires AnswerKey(uid, Collab(oid), Hold(Level(FullAccess))) !in s.results
    requires (uid, Collab(oid)) in g && g[(uid, Collab(oid))] == Level(ReadOnly)
    ensures var s' := Run(Enforce(s, uid, Collab(oid), Do(Write)).0, [DoUpdate(uid, Collab(oid), Level(FullAccess))]);
            !Enforce(s', uid, Collab(oid), Do(Write)).1 && Verdict(s', uid, Collab(oid), Do(Write))
  {
    hide Agrees; hide Run; hide Verdict; hide AnswerKey; hide Enforce; hide GrantsReached; hide Linked; hide StoredName;
    hide RequestName;
    var o := Collab(oid);
    CachedAnswerIsFreshIff(s, g, uid, o, Write, [DoUpdate(uid, o, Level(FullAccess))]);
    UpdateAfterAction(s, g, uid, o, Write, Level(FullAccess));
    LinkedMeaning(Level(ReadOnly), Do(Write));
    LinkedMeaning(Level(FullAccess), Do(Write));
  }

  /** Why only actions may be asked: an update to a role or level that the pair does not hold yet takes
      effect exactly when that very role or level has no cached answer, and asking about it caches one. */
  lemma UpdateTakesEffectIff(s: State, g: Grants, uid: int, o: ObjectType, a: ActionType)
    requires Agrees(s, g) && ValidPair(o, a) && !((uid, o) in g && g[(uid, o)] == a)
    ensures Scan(Update(s, uid, o, a).0.policies, uid, o) == Some(StoredName(a)) <==>
            KeyOf(PolicyOf(uid, o, a)) !in s.results
    ensures KeyOf(PolicyOf(uid, o, a)) in Enforce(s, uid, o, Hold(a)).0.results
  {
    hide Agrees; hide Scan; hide StoredName; hide Remove; hide PolicyKey; hide ObjectKey; hide Decimal; hide ObjectId;
    if KeyOf(PolicyOf(uid, o, a)) !in s.results {
      UpdateAgrees(s, g, uid, o, a);
      ScanMeaning(Update(s, uid, o, a).0, g[(uid, o) := a], uid, o);
    } else {
      ScanMeaning(s, g, uid, o);
      if (uid, o) in g && StoredName(g[(uid, o)]) == StoredName(a) { CodesInjective(g[(uid, o)], a); }
    }
  }
}
