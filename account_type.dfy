// Account levels of the current bot (bot/.../AccountType.java): an enum
// compared by declaration order, with titles that name the chat roles.
module AccountType {

  datatype AccountType = None | Registered | Vip | Moderator | Admin

  /** The declaration order of the enum constants. */
  const Values: seq<AccountType> := [None, Registered, Vip, Moderator, Admin]

  function Ordinal(t: AccountType): nat
  {
    match t
    case None => 0
    case Registered => 1
    case Vip => 2
    case Moderator => 3
    case Admin => 4
  }

  function Title(t: AccountType): string
  {
    match t
    case None => ""
    case Registered => "ZBot user"
    case Vip => "ZBot superuser"
    case Moderator => "ZBot moderator"
    case Admin => "ZBot administrator"
  }

  lemma ValuesInOrder()
    ensures |Values| == 5
    ensures forall i :: 0 <= i < |Values| ==> Ordinal(Values[i]) == i
    ensures forall t: AccountType :: t in Values
  {
    forall t: AccountType
      ensures t in Values
    {
      assert Values[Ordinal(t)] == t;
    }
  }

  /** The first constant of `candidates` whose title equals `s`, or None. */
  function FirstWithTitle(candidates: seq<AccountType>, s: string): (r: AccountType)
    ensures r == None || (r in candidates && Title(r) == s)
    ensures (forall t :: t in candidates ==> Title(t) != s) ==> r == None
    ensures (exists t :: t in candidates && Title(t) == s) ==> Title(r) == s
  {
    if |candidates| == 0 then None
    else if Title(candidates[0]) == s then candidates[0]
    else FirstWithTitle(candidates[1..], s)
  }

  /** fromString: the constant whose title is exactly `s`, else NONE. */
  function FromString(s: string): (r: AccountType)
    ensures r == None || Title(r) == s
    ensures (forall t :: Title(t) != s) ==> r == None
    ensures (exists t :: Title(t) == s) ==> Title(r) == s
  {
    ValuesInOrder();
    FirstWithTitle(Values, s)
  }

  /** Titles are distinct, so every role's title reads back as that role. */
  lemma FromStringTitle(t: AccountType)
    ensures FromString(Title(t)) == t
  {
    var r := FromString(Title(t));
    assert Title(r) == Title(t);
  }

  /** isAccountTypeOf: the user's level is at or above the minimum. */
  predicate IsAccountTypeOf(userRole: AccountType, minimumLevel: AccountType)
  {
    Ordinal(userRole) >= Ordinal(minimumLevel)
  }

  /** The check is a total preorder: reflexive, transitive and total. */
  lemma IsAccountTypeOfOrders(a: AccountType, b: AccountType, c: AccountType)
    ensures IsAccountTypeOf(a, a)
    ensures IsAccountTypeOf(a, b) && IsAccountTypeOf(b, c) ==> IsAccountTypeOf(a, c)
    ensures IsAccountTypeOf(a, b) || IsAccountTypeOf(b, a)
    ensures IsAccountTypeOf(a, b) && IsAccountTypeOf(b, a) ==> a == b
  {
  }

  /** ADMIN passes every minimum; NONE passes only the NONE minimum. */
  lemma Extremes(m: AccountType)
    ensures IsAccountTypeOf(Admin, m)
    ensures IsAccountTypeOf(None, m) <==> m == None
  {
  }
}

// Account levels of the earlier bot (src/org/.../AccountType.java): plain
// integers compared with >=.
module LegacyAccountType {

  const Guest: int := -1
  const Banned: int := 0
  const Registered: int := 1
  const Rcon: int := 2
  const Moderator: int := 3
  const Admin: int := 4
  const Operator: int := 5

  const Levels: seq<int> := [Guest, Banned, Registered, Rcon, Moderator, Admin, Operator]

  /** isAccountTypeOf: the account's level is at or above the minimum. */
  predicate IsAccountTypeOf(accountType: int, minimumLevel: int)
  {
    accountType >= minimumLevel
  }

  /** The listed levels are strictly increasing from GUEST to OPERATOR. */
  lemma LevelsAscend()
    ensures forall i, j :: 0 <= i < j < |Levels| ==> Levels[i] < Levels[j]
  {
  }

  lemma IsAccountTypeOfOrders(a: int, b: int, c: int)
    ensures IsAccountTypeOf(a, a)
    ensures IsAccountTypeOf(a, b) && IsAccountTypeOf(b, c) ==> IsAccountTypeOf(a, c)
  {
  }

  /** Raising an account's level never loses a permission. */
  lemma IsAccountTypeOfMonotone(a: int, a': int, m: int)
    requires IsAccountTypeOf(a, m) && a <= a'
    ensures IsAccountTypeOf(a', m)
  {
  }

  /** OPERATOR passes every listed level; GUEST passes only GUEST. */
  lemma Extremes(m: int)
    requires m in Levels
    ensures IsAccountTypeOf(Operator, m)
    ensures IsAccountTypeOf(Guest, m) <==> m == Guest
  {
  }
}
