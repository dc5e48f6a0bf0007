/** The permission classes of store/permissions.py and the framework checks
    they are built from: the safe methods, `is_staff`, `has_perm` and the
    method-to-permission map of the model-permission class. */
module Permissions {
  import opened Tables

  /** The HTTP methods a request can carry. */
  datatype Method = Get | Head | Options | Post | Put | Patch | Delete | Trace

  /** The methods that only read. */
  const SafeMethods: set<Method> := {Get, Head, Options}

  /** The request's user. An anonymous visitor is a user that is neither
      authenticated, active, staff nor superuser and holds no permission. */
  datatype User = User(id: UserId, isAuthenticated: bool, isActive: bool, isStaff: bool,
                       isSuperuser: bool, perms: set<string>)

  predicate Anonymous(user: User) {
    !user.isAuthenticated && !user.isActive && !user.isStaff && !user.isSuperuser && user.perms == {}
  }

  /** `IsAuthenticated`: the request carries a logged-in user. */
  predicate IsAuthenticated(user: User) {
    user.isAuthenticated
  }

  /** `IsAdminUser`: the request carries a staff user. */
  predicate IsAdminUser(user: User) {
    user.isStaff
  }

  // ---------------------------------------------------------------------
  // IsAdminOrReadOnly

  /** Anyone may read; only staff may write. */
  function IsAdminOrReadOnly(m: Method, user: User): (allowed: bool)
    ensures m in SafeMethods ==> allowed
    ensures !user.isStaff ==> (allowed <==> m in SafeMethods)
    ensures user.isStaff ==> allowed
  {
    if m in SafeMethods then true else user.isStaff
  }

  /** The class is the union of read-only access and the admin-user check. */
  lemma AdminOrReadOnlyIsUnion(m: Method, user: User)
    ensures IsAdminOrReadOnly(m, user) <==> m in SafeMethods || IsAdminUser(user)
  {
  }

  /** An anonymous visitor can only read. */
  lemma AnonymousOnlyReads(m: Method, user: User)
    requires Anonymous(user)
    ensures IsAdminOrReadOnly(m, user) <==> m in SafeMethods
  {
  }

  // ---------------------------------------------------------------------
  // has_perm and ViewCustomerHistoryPermission

  /** The user model's `has_perm`: an active superuser holds every
      permission, an active user the ones granted to them, an inactive user none. */
  function HasPerm(user: User, perm: string): (held: bool)
    ensures !user.isActive ==> !held
    ensures user.isActive && user.isSuperuser ==> held
    ensures user.isActive && !user.isSuperuser ==> (held <==> perm in user.perms)
  {
    user.isActive && (user.isSuperuser || perm in user.perms)
  }

  /** The codename the history action asks for. */
  const ViewHistoryPerm := "store.view_history"

  /** Only a user holding `store.view_history` may see a customer's history. */
  function ViewCustomerHistoryPermission(user: User): (allowed: bool)
    ensures allowed ==> user.isActive
    ensures allowed <==> user.isActive && (user.isSuperuser || ViewHistoryPerm in user.perms)
  {
    HasPerm(user, ViewHistoryPerm)
  }

  /** Being staff does not grant the history permission, and an anonymous
      visitor never has it. */
  lemma HistoryNeedsGrant(user: User)
    ensures Anonymous(user) ==> !ViewCustomerHistoryPermission(user)
    ensures user.isStaff && user.isActive && !user.isSuperuser && ViewHistoryPerm !in user.perms
            ==> !ViewCustomerHistoryPermission(user)
  {
  }

  // ---------------------------------------------------------------------
  // Model permissions

  /** The permission templates `%(app_label)s.<action>_%(model_name)s`. */
  datatype PermAction = AddPerm | ChangePerm | DeletePerm

  function ActionName(a: PermAction): string {
    match a
    case AddPerm => "add"
    case ChangePerm => "change"
    case DeletePerm => "delete"
  }

  /** A template filled in for one model. */
  function Codename(a: PermAction, app: string, model: string): string {
    app + "." + ActionName(a) + "_" + model
  }

  /** Different actions give different codenames for the same model, so
      holding one never stands in for another. */
  lemma CodenamesDiffer(a: PermAction, b: PermAction, app: string, model: string)
    requires a != b
    ensures Codename(a, app, model) != Codename(b, app, model)
  {
    var i := |app| + 1;
    assert Codename(a, app, model)[i] == ActionName(a)[0];
    assert Codename(b, app, model)[i] == ActionName(b)[0];
  }

  /** The framework's default map: reading needs nothing, creating needs
      `add`, updating `change`, deleting `delete`; TRACE has no entry. */
  function DefaultPermsMap(): map<Method, seq<PermAction>> {
    map[Get := [], Options := [], Head := [], Post := [AddPerm], Put := [ChangePerm],
        Patch := [ChangePerm], Delete := [DeletePerm]]
  }

  /** The codenames a method needs under `entries`, or None when the map has
      no entry for the method (the request is then answered 405). */
  function RequiredPermissions(entries: map<Method, seq<PermAction>>, m: Method, app: string, model: string)
    : (r: Option<seq<string>>)
    ensures r.None? <==> m !in entries
    ensures r.Some? ==> |r.value| == |entries[m]|
    ensures r.Some? ==> forall j :: 0 <= j < |r.value| ==> r.value[j] == Codename(entries[m][j], app, model)
  {
    if m !in entries then None
    else Some(seq(|entries[m]|, j requires 0 <= j < |entries[m]| => Codename(entries[m][j], app, model)))
  }

  /** `has_perms`: every one of `perms` is held. */
  predicate HasPerms(user: User, perms: seq<string>) {
    forall j :: 0 <= j < |perms| ==> HasPerm(user, perms[j])
  }

  /** What a model-permission check answers. */
  datatype Verdict = Allow | Refuse | UnknownMethod

  /** The model-permission check: anonymous requests are refused, a method
      without an entry is unknown, otherwise the user must hold every
      codename the entry names. */
  function HasModelPermission(entries: map<Method, seq<PermAction>>, m: Method, user: User,
                              app: string, model: string): (v: Verdict)
    ensures !user.isAuthenticated ==> v == Refuse
    ensures user.isAuthenticated && m !in entries ==> v == UnknownMethod
    ensures v == Allow <==> user.isAuthenticated && m in entries
                            && forall j :: 0 <= j < |entries[m]| ==> HasPerm(user, Codename(entries[m][j], app, model))
  {
    if !user.isAuthenticated then Refuse
    else match RequiredPermissions(entries, m, app, model)
      case None => UnknownMethod
      case Some(perms) => if HasPerms(user, perms) then Allow else Refuse
  }

  /** Under the default map every logged-in user may read. */
  lemma DefaultLetsUsersRead(m: Method, user: User, app: string, model: string)
    requires m in SafeMethods && user.isAuthenticated
    ensures HasModelPermission(DefaultPermsMap(), m, user, app, model) == Allow
  {
  }

  /** The map of the full-permission class: reading a model needs the
      model's `add` permission; every other method keeps its default entry. */
  function FullPermsMap(entries: map<Method, seq<PermAction>>): (full: map<Method, seq<PermAction>>)
    ensures Get in full && full[Get] == [AddPerm]
    ensures forall m :: m != Get ==> (m in full <==> m in entries)
    ensures forall m :: m != Get && m in entries ==> full[m] == entries[m]
  {
    entries[Get := [AddPerm]]
  }

  /** With the full map a GET is allowed exactly for logged-in users holding
      the model's `add` permission, and every other method is judged as before. */
  lemma FullMapReadNeedsAdd(user: User, app: string, model: string)
    ensures HasModelPermission(FullPermsMap(DefaultPermsMap()), Get, user, app, model) == Allow
            <==> user.isAuthenticated && HasPerm(user, Codename(AddPerm, app, model))
  {
    var full := FullPermsMap(DefaultPermsMap());
    assert full[Get] == [AddPerm] && full[Get][0] == AddPerm;
    if user.isAuthenticated && HasPerm(user, Codename(AddPerm, app, model)) {
      assert forall j :: 0 <= j < |full[Get]| ==> HasPerm(user, Codename(full[Get][j], app, model));
    }
  }

  /** The full map judges every method other than GET as the map it was
      made from. */
  lemma FullMapKeepsOtherMethods(entries: map<Method, seq<PermAction>>, m: Method, user: User, app: string, model: string)
    requires m != Get
    ensures HasModelPermission(FullPermsMap(entries), m, user, app, model) == HasModelPermission(entries, m, user, app, model)
  {
    var full := FullPermsMap(entries);
    if m in entries {
      assert full[m] == entries[m];
    }
  }

  /** The method-to-permission map, an object every model-permission check
      reads: as a class attribute it is one object shared by the class and
      every subclass that does not declare a map of its own. */
  class PermsMap {
    var entries: map<Method, seq<PermAction>>

    constructor ()
      ensures entries == DefaultPermsMap()
    {
      entries := DefaultPermsMap();
    }
  }

  /** The framework's model-permission class: it reads the shared map. */
  class DjangoModelPermissions {
    const permsMap: PermsMap

    constructor (shared: PermsMap)
      ensures permsMap == shared
    {
      permsMap := shared;
    }

    function Check(m: Method, user: User, app: string, model: string): (v: Verdict)
      reads permsMap
      ensures v == Allow ==> user.isAuthenticated && m in permsMap.entries
      ensures v == UnknownMethod <==> user.isAuthenticated && m !in permsMap.entries
    {
      HasModelPermission(permsMap.entries, m, user, app, model)
    }
  }

  /** `FullDjangoModelPermissions` as written: `self.perms_map` finds the
      shared map and its constructor overwrites the GET entry of that map. */
  class FullDjangoModelPermissionsAsWritten {
    const permsMap: PermsMap

    constructor (shared: PermsMap)
      modifies shared
      ensures permsMap == shared
      ensures shared.entries == FullPermsMap(old(shared.entries))
    {
      permsMap := shared;
      new;
      shared.entries := shared.entries[Get := [AddPerm]];
    }
  }

  /** Once one full-permission check has been built, the plain
      model-permission check refuses a GET to a logged-in user who holds
      every permission except `add`, a GET the default map lets through. */
  method SharedMapLeaks() returns (before: Verdict, after: Verdict)
    ensures before == Allow && after == Refuse
  {
    var user := User(1, true, true, false, false, {"store.change_product", "store.delete_product"});
    var shared := new PermsMap();
    var plain := new DjangoModelPermissions(shared);
    before := plain.Check(Get, user, "store", "product");
    var full := new FullDjangoModelPermissionsAsWritten(shared);
    after := plain.Check(Get, user, "store", "product");
    assert Codename(AddPerm, "store", "product") == "store.add_product";
    assert !HasPerm(user, "store.add_product");
    assert shared.entries[Get][0] == AddPerm;
  }

  /** The full-permission check with a map of its own: built from the shared
      map, it changes only its own copy. */
  class FullDjangoModelPermissions {
    const entries: map<Method, seq<PermAction>>

    constructor (shared: PermsMap)
      ensures entries == FullPermsMap(shared.entries)
    {
      entries := shared.entries[Get := [AddPerm]];
    }

    function Check(m: Method, user: User, app: string, model: string): (v: Verdict)
      reads this
      ensures v == Allow ==> user.isAuthenticated && m in entries
      ensures v == UnknownMethod <==> user.isAuthenticated && m !in entries
    {
      HasModelPermission(entries, m, user, app, model)
    }
  }

  /** With the corrected class the plain check still lets the same user read,
      while the full check refuses them. */
  method SharedMapKept() returns (plainAfter: Verdict, fullVerdict: Verdict)
    ensures plainAfter == Allow && fullVerdict == Refuse
  {
    var user := User(1, true, true, false, false, {"store.change_product", "store.delete_product"});
    var shared := new PermsMap();
    var plain := new DjangoModelPermissions(shared);
    var full := new FullDjangoModelPermissions(shared);
    plainAfter := plain.Check(Get, user, "store", "product");
    fullVerdict := full.Check(Get, user, "store", "product");
    assert Codename(AddPerm, "store", "product") == "store.add_product";
    assert !HasPerm(user, "store.add_product");
    assert full.entries[Get][0] == AddPerm;
  }
}
