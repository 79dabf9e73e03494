/** The enforcer object: its methods change the policies and both caches in place. */
module CachedEnforcer {
  import opened Common
  import opened PolicyCache
  import opened PolicyEnforcer
  import E = PolicyEnforcer

  class AFEnforcer {
    var policies: seq<Policy>
    var resultByPolicyCache: map<string, bool>
    var actionByObjectCache: map<string, string>

    /** A loaded enforcer, with empty caches. */
    constructor (loaded: seq<Policy>)
      ensures State() == E.State(loaded, map[], map[])
    {
      policies, resultByPolicyCache, actionByObjectCache := loaded, map[], map[];
    }

    ghost function State(): State
      reads this
    {
      E.State(policies, resultByPolicyCache, actionByObjectCache)
    }

    method Update(uid: int, o: ObjectType, act: ActionType) returns (r: Result<bool, string>)
      modifies this
      ensures (State(), r) == E.Update(old(State()), uid, o, act)
    {
      if !ValidPair(o, act) {
        return Failure(INVALID);
      }
      var policy := PolicyOf(uid, o, act);
      var policyKey := KeyOf(policy);
      if policyKey in resultByPolicyCache {
        return Success(resultByPolicyCache[policyKey]);
      }
      var _ := Remove(uid, o);
      var added := policy !in policies;
      policies := Adding(policies, policy);
      actionByObjectCache := actionByObjectCache[ObjectKey(uid, o) := StoredName(act)];
      r := Success(added);
    }

    method Remove(uid: int, o: ObjectType) returns (gone: seq<Policy>)
      modifies this
      ensures State() == E.Remove(old(State()), uid, o)
      ensures gone == Related(old(policies), Decimal(uid), ObjectId(o))
    {
      gone := Related(policies, Decimal(uid), ObjectId(o));
      if gone == [] {
        return;
      }
      policies := Without(policies, gone);
      actionByObjectCache := actionByObjectCache - {ObjectKey(uid, o)};
      for i := 0 to |gone|
        invariant policies == Without(old(policies), gone)
        invariant actionByObjectCache == old(actionByObjectCache) - {ObjectKey(uid, o)}
        invariant resultByPolicyCache == old(resultByPolicyCache) - (set p <- gone[..i] :: KeyOf(p))
      {
        resultByPolicyCache := resultByPolicyCache - {KeyOf(gone[i])};
        assert gone[..i + 1] == gone[..i] + [gone[i]];
      }
      assert gone[..|gone|] == gone;
    }

    method Enforce(uid: int, o: ObjectType, act: Request) returns (allowed: bool)
      modifies this
      ensures (State(), allowed) == E.Enforce(old(State()), uid, o, act)
    {
      var policyKey := PolicyKey(Decimal(uid), ObjectId(o), RequestName(act));
      if policyKey in resultByPolicyCache {
        return resultByPolicyCache[policyKey];
      }
      allowed := Matches(policies, Decimal(uid), ObjectId(o), RequestName(act));
      resultByPolicyCache := resultByPolicyCache[policyKey := allowed];
    }

    method GetAction(uid: int, o: ObjectType) returns (action: Option<string>)
      modifies this
      ensures (State(), action) == E.GetAction(old(State()), uid, o)
    {
      var objectKey := ObjectKey(uid, o);
      if objectKey in actionByObjectCache {
        return Some(actionByObjectCache[objectKey]);
      }
      var found := Related(policies, Decimal(uid), ObjectId(o));
      if found == [] {
        return None;
      }
      action := Some(found[0].action);
      actionByObjectCache := actionByObjectCache[objectKey := found[0].action];
    }
  }
}
