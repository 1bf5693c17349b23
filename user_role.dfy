/**
 * The role context: the active role (farmer or buyer), restored from and
 * written back to browser storage, with the two flags derived from it.
 */
module UserRole {
  import opened Wrappers

  datatype Role = Farmer | Buyer

  /** The storage key the role is kept under. */
  const RoleKey: string := "smartkrishi-role"

  /** The text a role is stored as: `"farmer"` or `"buyer"`, one per role. */
  function RoleName(r: Role): (n: string)
    ensures n == "farmer" || n == "buyer"
    ensures n == "farmer" <==> r == Farmer
  {
    match r
    case Farmer => "farmer"
    case Buyer => "buyer"
  }

  /** `localStorage.getItem`: the stored text, or nothing when the key is absent. */
  function Lookup(storage: map<string, string>, key: string): (v: Option<string>)
    ensures v.Some? <==> key in storage
    ensures v.Some? ==> v.value == storage[key]
  {
    if key in storage then Some(storage[key]) else None
  }

  /**
   * The initial role: a stored `"farmer"` or `"buyer"` is taken as it is;
   * anything else, an absent key included, gives a buyer.
   */
  function InitialRole(saved: Option<string>): (r: Role)
    ensures r == Farmer <==> saved == Some("farmer")
    ensures r == Buyer <==> saved != Some("farmer")
  {
    if saved == Some("farmer") || saved == Some("buyer") then
      (if saved.value == "farmer" then Farmer else Buyer)
    else Buyer
  }

  /** A stored role is restored as itself. */
  lemma RestoreStoredRole(r: Role)
    ensures InitialRole(Some(RoleName(r))) == r
  {
  }

  /** A corrupt value such as `"admin"`, and a missing one, fall back to buyer. */
  lemma CorruptFallsBackToBuyer()
    ensures InitialRole(Some("admin")) == Buyer
    ensures InitialRole(Some("Farmer")) == Buyer
    ensures InitialRole(None) == Buyer
  {
  }

  predicate IsFarmer(r: Role) { r == Farmer }
  predicate IsBuyer(r: Role) { r == Buyer }

  /** Exactly one of the two flags holds for every role. */
  lemma ExactlyOneFlag(r: Role)
    ensures IsFarmer(r) != IsBuyer(r)
  {
  }

  /** What the provider hands to its consumers. */
  datatype ContextValue = ContextValue(role: Role, isFarmer: bool, isBuyer: bool)

  function ValueOf(r: Role): (v: ContextValue)
    ensures v.role == r && v.isFarmer == IsFarmer(r) && v.isBuyer == IsBuyer(r)
    ensures v.isFarmer != v.isBuyer
  {
    ContextValue(r, r == Farmer, r == Buyer)
  }

  /** `useUserRole`: outside a provider there is no value and the hook fails with this message. */
  function UseUserRole(context: Option<ContextValue>): (r: Result<ContextValue, string>)
    ensures context.None? <==> r.Err?
    ensures r.Err? ==> r.error == "useUserRole must be used within UserRoleProvider"
    ensures r.Ok? ==> r.value == context.value
  {
    match context
    case None => Err("useUserRole must be used within UserRoleProvider")
    case Some(v) => Ok(v)
  }

  /** Writing a role and reading it back at the next start gives the same role. */
  lemma {:induction false} SaveThenRestore(storage: map<string, string>, r: Role)
    ensures InitialRole(Lookup(storage[RoleKey := RoleName(r)], RoleKey)) == r
  {
    assert Lookup(storage[RoleKey := RoleName(r)], RoleKey) == Some(RoleName(r));
    RestoreStoredRole(r);
  }

  /** The provider: the role in memory and the browser storage it mirrors. */
  class RoleProvider {
    var role: Role
    var storage: map<string, string>

    /** The stored value always equals the role in memory. */
    ghost predicate Valid()
      reads this
    {
      RoleKey in storage && storage[RoleKey] == RoleName(role)
    }

    /**
     * Mounting: the role is read from storage once, and the effect that runs
     * after every role change writes it back under the role key.
     */
    constructor (stored: map<string, string>)
      ensures role == InitialRole(Lookup(stored, RoleKey))
      ensures storage == stored[RoleKey := RoleName(role)]
      ensures Valid()
    {
      role := InitialRole(Lookup(stored, RoleKey));
      storage := stored[RoleKey := RoleName(InitialRole(Lookup(stored, RoleKey)))];
    }

    /** `setRole`: sets the role and writes it to storage; nothing else in storage changes. */
    method SetRole(r: Role)
      modifies this
      ensures role == r
      ensures storage == old(storage)[RoleKey := RoleName(r)]
      ensures Valid()
    {
      role := r;
      storage := storage[RoleKey := RoleName(r)];
    }

    /** The value consumers see. */
    function Value(): (v: ContextValue)
      reads this
      ensures v.role == role && (v.isFarmer <==> role == Farmer) && (v.isBuyer <==> role == Buyer)
    {
      ValueOf(role)
    }
  }
}
