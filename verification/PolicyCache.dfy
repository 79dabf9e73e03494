/** Access control: a policy set behind two caches keyed by joined strings, kept up to date by the
    change log of the member tables. */
module PolicyCache {
  // ---------------------------------------------------------------- what is stored and asked

  datatype ObjectType = Workspace(id: string) | Collab(oid: string)

  datatype AFRole = Owner | Member | Guest

  datatype AFAccessLevel = ReadOnly | ReadAndComment | ReadAndWrite | FullAccess {
    predicate CanWrite() { ReadAndWrite? || FullAccess? }
    predicate CanDelete() { FullAccess? }
  }

  /** What a policy grants: a role on a workspace, a level on a collab. */
  datatype ActionType = Role(role: AFRole) | Level(level: AFAccessLevel)

  datatype Action = Read | Write | Delete

  /** What enforce may be asked about. */
  datatype Request = Do(action: Action) | Hold(stored: ActionType)

  function RoleCode(r: AFRole): int {
    match r case Owner => 1 case Member => 2 case Guest => 3
  }

  /** AFRole::from(i32): an unknown id is a guest. */
  function RoleOfCode(code: int): AFRole {
    if code == 1 then Owner else if code == 2 then Member else Guest
  }

  function LevelCode(l: AFAccessLevel): int {
    match l case ReadOnly => 10 case ReadAndComment => 20 case ReadAndWrite => 30 case FullAccess => 50
  }

  function Digits(n: nat): (s: string)
    ensures s != []
  {
    (if n < 10 then [] else Digits(n / 10)) + ["0123456789"[n % 10]]
  }

  /** to_string of an integer. */
  function Decimal(n: int): string {
    if n < 0 then "-" + Digits(-n) else Digits(n)
  }

  function ObjectId(o: ObjectType): string {
    match o
    case Collab(oid) => "collab::" + oid
    case Workspace(id) => "workspace::" + id
  }

  function ActionName(a: Action): string {
    match a case Read => "read" case Write => "write" case Delete => "delete"
  }

  function StoredName(a: ActionType): string {
    match a
    case Role(role) => Decimal(RoleCode(role))
    case Level(level) => Decimal(LevelCode(level))
  }

  function RequestName(r: Request): string {
    match r
    case Do(a) => ActionName(a)
    case Hold(a) => StoredName(a)
  }

  // ---------------------------------------------------------------- keys

  function PolicyKey(user: string, obj: string, action: string): string {
    user + ":" + obj + ":" + action
  }

  function ObjectKey(uid: int, o: ObjectType): string {
    Decimal(uid) + ":" + ObjectId(o)
  }

  lemma {:induction false} DigitsAreDigits(n: nat)
    ensures forall c <- Digits(n) :: c in "0123456789"
  {
    if n >= 10 {
      DigitsAreDigits(n / 10);
    }
  }

  lemma NoColonInDecimal(n: int)
    ensures ':' !in Decimal(n)
    ensures forall a: Action :: Decimal(n) != ActionName(a)
  {
    DigitsAreDigits(if n < 0 then -n else n);
    forall a: Action ensures Decimal(n) != ActionName(a) {
      assert Decimal(n)[0] == '-' || Decimal(n)[0] in "0123456789";
    }
  }

  /** The number a string of digits stands for. */
  function ValueOf(s: string): int {
    if s == [] then 0 else 10 * ValueOf(s[..|s| - 1]) + (s[|s| - 1] as int - '0' as int)
  }

  lemma DigitValue(d: nat)
    requires d < 10
    ensures "0123456789"[d] as int - '0' as int == d
  {
  }

  /** A number is spelled in decimal, without a leading zero. */
  lemma {:induction false} DigitsReadBack(n: nat)
    ensures ValueOf(Digits(n)) == n && (Digits(n)[0] == '0' <==> n == 0)
  {
    DigitValue(n % 10);
    var s := Digits(n);
    if n < 10 {
      assert s[..|s| - 1] == [];
    } else {
      DigitsReadBack(n / 10);
      assert s[..|s| - 1] == Digits(n / 10);
    }
  }

  lemma DigitsInjective(m: nat, n: nat)
    requires Digits(m) == Digits(n)
    ensures m == n
  {
    DigitsReadBack(m);
    DigitsReadBack(n);
  }

  lemma SignOfDecimal(n: int)
    ensures n < 0 <==> Decimal(n)[0] == '-'
  {
    if n >= 0 {
      DigitsAreDigits(n);
      assert Decimal(n)[0] in Digits(n);
    }
  }

  lemma DecimalInjective(m: int, n: int)
    requires Decimal(m) == Decimal(n)
    ensures m == n
  {
    SignOfDecimal(m);
    SignOfDecimal(n);
    if m < 0 {
      assert Decimal(m)[1..] == Digits(-m) && Decimal(n)[1..] == Digits(-n);
      DigitsInjective(-m, -n);
    } else {
      DigitsInjective(m, n);
    }
  }

  lemma ObjectIdInjective(o: ObjectType, p: ObjectType)
    requires ObjectId(o) == ObjectId(p)
    ensures o == p
  {
    var a, b := ObjectId(o), ObjectId(p);
    assert a[0] == (if o.Collab? then 'c' else 'w') && b[0] == (if p.Collab? then 'c' else 'w');
    var n := if o.Collab? then |"collab::"| else |"workspace::"|;
    assert a[n..] == (if o.Collab? then o.oid else o.id);
    assert b[n..] == (if p.Collab? then p.oid else p.id);
  }

  /** What comes before the first colon decides where it is. */
  lemma FirstColon(u: string, x: string, v: string, y: string)
    requires ':' !in u && ':' !in v && u + ":" + x == v + ":" + y
    ensures u == v && x == y
  {
    var s := u + ":" + x;
    assert s[|u|] == ':' && s[|v|] == ':';
    assert forall k | 0 <= k < |u| :: s[k] == u[k] && u[k] in u;
    assert forall k | 0 <= k < |v| :: s[k] == v[k] && v[k] in v;
    assert |u| == |v|;
    assert s[..|u|] == u && s[..|v|] == v && s[|u| + 1..] == x && s[|v| + 1..] == y;
  }

  lemma NoColonAfter(x: string, a: string)
    requires ':' !in a
    ensures forall k | |x| < k <= |x| + |a| :: (x + ":" + a)[k] != ':'
  {
    assert forall k | |x| < k <= |x| + |a| :: (x + ":" + a)[k] == a[k - |x| - 1];
  }

  lemma LastColon(x: string, a: string, y: string, b: string)
    requires ':' !in a && ':' !in b && x + ":" + a == y + ":" + b
    ensures x == y && a == b
  {
    var s := x + ":" + a;
    assert s[|x|] == ':' && s[|y|] == ':';
    NoColonAfter(x, a);
    NoColonAfter(y, b);
    assert s[..|x|] == x && s[..|y|] == y && s[|x| + 1..] == a && s[|y| + 1..] == b;
  }

  /** The object key tells every (user, object) apart, whatever colons the object's id holds. */
  lemma ObjectKeyInjective(uid: int, o: ObjectType, uid': int, o': ObjectType)
    requires ObjectKey(uid, o) == ObjectKey(uid', o')
    ensures uid == uid' && o == o'
  {
    NoColonInDecimal(uid);
    NoColonInDecimal(uid');
    FirstColon(Decimal(uid), ObjectId(o), Decimal(uid'), ObjectId(o'));
    DecimalInjective(uid, uid');
    ObjectIdInjective(o, o');
  }

  lemma NoColonInRequest(r: Request)
    ensures ':' !in RequestName(r)
  {
    match r
    case Do(a) =>
    case Hold(Role(role)) => NoColonInDecimal(RoleCode(role));
    case Hold(Level(level)) => NoColonInDecimal(LevelCode(level));
  }

  /** So does the policy key, for every (user, object, action). */
  lemma PolicyKeyInjective(uid: int, o: ObjectType, a: string, uid': int, o': ObjectType, a': string)
    requires ':' !in a && ':' !in a'
    requires PolicyKey(Decimal(uid), ObjectId(o), a) == PolicyKey(Decimal(uid'), ObjectId(o'), a')
    ensures uid == uid' && o == o' && a == a'
  {
    LastColon(Decimal(uid) + ":" + ObjectId(o), a, Decimal(uid') + ":" + ObjectId(o'), a');
    ObjectKeyInjective(uid, o, uid', o');
  }

  // ---------------------------------------------------------------- the matcher

  datatype Policy = Policy(user: string, obj: string, action: string)

  const LEVELS := [ReadOnly, ReadAndComment, ReadAndWrite, FullAccess]

  /** The grouping rules load_policy adds for one level. */
  function GroupingsOf(l: AFAccessLevel): seq<(string, string)> {
    [(StoredName(Level(l)), "read")]
    + (if l.CanWrite() then [(StoredName(Level(l)), "write")] else [])
    + (if l.CanDelete() then [(StoredName(Level(l)), "delete")] else [])
  }

  /** g(held, asked): equal, or grouped. No grouping leads on from an action, so links do not chain. */
  predicate Linked(held: string, asked: string) {
    held == asked || exists l <- LEVELS :: (held, asked) in GroupingsOf(l)
  }

  /** r.sub == p.sub && g2(p.obj, r.obj) && g(p.act, r.act) for some policy; g2 has no rules, so it
      is equality. */
  predicate Matches(policies: seq<Policy>, user: string, obj: string, asked: string) {
    exists p <- policies :: p.user == user && p.obj == obj && Linked(p.action, asked)
  }

  lemma CodesInjective(a: ActionType, b: ActionType)
    requires StoredName(a) == StoredName(b)
    ensures a == b
  {
    hide Decimal;
    DecimalInjective(if a.Role? then RoleCode(a.role) else LevelCode(a.level),
                     if b.Role? then RoleCode(b.role) else LevelCode(b.level));
  }

  lemma GroupingsMeaning(held: ActionType, l: AFAccessLevel, asked: string)
    ensures (StoredName(held), asked) in GroupingsOf(l) <==>
            && held == Level(l)
            && (asked == "read" || (asked == "write" && l.CanWrite()) || (asked == "delete" && l.CanDelete()))
  {
    hide StoredName;
    if StoredName(held) == StoredName(Level(l)) {
      CodesInjective(held, Level(l));
    }
  }

  /** What a stored permission allows: every level reads, read-and-write and full access write, full access
      alone deletes; a role permits no action; and a role or level is only itself. */
  lemma LinkedMeaning(held: ActionType, asked: Request)
    ensures Linked(StoredName(held), RequestName(asked)) <==>
            match asked
            case Do(Read) => held.Level?
            case Do(Write) => held == Level(ReadAndWrite) || held == Level(FullAccess)
            case Do(Delete) => held == Level(FullAccess)
            case Hold(a) => held == a
  {
    hide StoredName; hide GroupingsOf;
    forall l: AFAccessLevel
      ensures l in LEVELS
      ensures (StoredName(held), RequestName(asked)) in GroupingsOf(l) <==>
              && held == Level(l) && asked.Do?
              && (asked.action.Read? || (asked.action.Write? && l.CanWrite())
                  || (asked.action.Delete? && l.CanDelete()))
    {
      assert l == LEVELS[0] || l == LEVELS[1] || l == LEVELS[2] || l == LEVELS[3];
      GroupingsMeaning(held, l, RequestName(asked));
      StoredIsNoAction(asked);
      assert ActionName(Read) == "read" && ActionName(Write) == "write" && ActionName(Delete) == "delete";
    }
    StoredIsNoAction(Hold(held));
    match asked {
      case Do(_) =>
      case Hold(a) => if StoredName(a) == StoredName(held) { CodesInjective(a, held); }
    }
  }

  /** A stored role or level is never spelled like an action. */
  lemma StoredIsNoAction(r: Request)
    ensures forall a: Action :: RequestName(r) == ActionName(a) <==> r == Do(a)
  {
    match r
    case Do(a) =>
    case Hold(Role(role)) => NoColonInDecimal(RoleCode(role));
    case Hold(Level(level)) => NoColonInDecimal(LevelCode(level));
  }

  /** How actions, roles, levels and objects are spelled in policies and requests. */
  lemma Spelling()
    ensures ActionName(Read) == "read" && ActionName(Write) == "write" && ActionName(Delete) == "delete"
    ensures StoredName(Role(Owner)) == "1" && StoredName(Role(Member)) == "2" && StoredName(Role(Guest)) == "3"
    ensures StoredName(Level(ReadOnly)) == "10" && StoredName(Level(ReadAndComment)) == "20"
    ensures StoredName(Level(ReadAndWrite)) == "30" && StoredName(Level(FullAccess)) == "50"
    ensures forall id :: ObjectId(Workspace(id)) == "workspace::" + id && ObjectId(Collab(id)) == "collab::" + id
    ensures forall n: int | n < 0 :: Decimal(n) == "-" + Digits(-n)
  {
    assert Digits(1) == "1" && Digits(2) == "2" && Digits(3) == "3" && Digits(5) == "5" && Digits(0) == "0";
    assert Digits(10) == Digits(1) + "0" && Digits(20) == Digits(2) + "0";
    assert Digits(30) == Digits(3) + "0" && Digits(50) == Digits(5) + "0";
  }

  /** A role's id reads back as the role, and every other id as a guest. */
  lemma RoleOfCodeMeaning(code: int, r: AFRole)
    ensures RoleOfCode(RoleCode(r)) == r
    ensures (forall q: AFRole :: RoleCode(q) != code) ==> RoleOfCode(code) == Guest
  {
    if forall q: AFRole :: RoleCode(q) != code {
      assert RoleCode(Owner) != code && RoleCode(Member) != code;
    }
  }
}
