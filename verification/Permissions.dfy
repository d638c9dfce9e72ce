/** The permission tables (permissions.interface.ts) and the cached check over them (permission.service.ts). */
module Permissions {
  import opened Strings
  import opened Credentials

  type Permission = string

  datatype PermissionGroup = ListingGroup | ProfileGroup | ChatGroup | PaymentGroup | BookingGroup | AdminGroup

  function GroupPermissions(group: PermissionGroup): seq<Permission> {
    match group
    case ListingGroup =>
      ["create:listing", "update:listing", "delete:listing", "upload:listing:media", "update:listing:status",
       "view:listing"]
    case ProfileGroup => ["update:profile:full", "update:profile:basic", "view:profile", "update:avatar"]
    case ChatGroup => ["create:chat", "send:message", "view:chat:history"]
    case PaymentGroup => ["view:payment:history", "create:payment", "manage:payment:methods"]
    case BookingGroup =>
      ["create:booking", "update:booking", "cancel:booking", "view:booking", "view:booking:calendar",
       "upload:booking:document", "update:booking:status", "update:booking:payout:status",
       "request:booking:cancellation"]
    case AdminGroup => ["manage:users", "view:system:stats"]
  }

  function BasePermissions(): seq<Permission> {
    ["view:profile", "update:avatar", "update:profile:basic", "view:payment:history", "view:chat:history",
     "create:chat", "send:message", "create:booking", "view:booking", "cancel:booking", "upload:booking:document",
     "request:booking:cancellation", "create:payment"]
  }

  function ManagerPermissions(): seq<Permission> {
    BasePermissions() +
    ["view:listing", "create:listing", "update:listing", "delete:listing", "upload:listing:media",
     "update:listing:status", "update:profile:full", "manage:payment:methods", "view:booking:calendar",
     "update:booking:status", "update:booking:payout:status"]
  }

  function RolePermissions(role: UserType): seq<Permission> {
    if role == Customer then BasePermissions() else ManagerPermissions()
  }

  predicate Has(role: UserType, permission: Permission) {
    permission in RolePermissions(role)
  }

  // What each role holds.
  lemma RoleContents(p: Permission)
    ensures Has(Customer, p) <==>
            p in {"view:profile", "update:profile:basic", "update:avatar", "create:chat", "send:message",
                  "view:chat:history", "create:payment", "view:payment:history", "create:booking", "view:booking",
                  "cancel:booking", "request:booking:cancellation", "upload:booking:document"}
    ensures Has(Landlord, p) <==> Has(RealEstateAgent, p)
    ensures Has(Landlord, p) <==>
            Has(Customer, p) ||
            p in {"create:listing", "update:listing", "delete:listing", "view:listing", "upload:listing:media",
                  "update:listing:status", "update:profile:full", "manage:payment:methods", "view:booking:calendar",
                  "update:booking:status", "update:booking:payout:status"}
  {
  }

  // The role tables against the group tables: a landlord and an agent hold everything in the five
  // ordinary groups but updating a booking.
  lemma ManagersAgainstGroups(p: Permission)
    requires p != "update:booking"
    ensures Has(Landlord, p) <==>
            p in GroupPermissions(ListingGroup) || p in GroupPermissions(ProfileGroup) ||
            p in GroupPermissions(ChatGroup) || p in GroupPermissions(PaymentGroup) ||
                p in GroupPermissions(BookingGroup)
  {
  }

  // And nobody may update a booking or do what an administrator may.
  lemma NobodyMay(role: UserType)
    ensures !Has(role, "update:booking") && !Has(role, "manage:users") && !Has(role, "view:system:stats")
  {
  }

  // What each group holds.
  lemma GroupContents(p: Permission)
    ensures p in GroupPermissions(ListingGroup) <==>
            p in {"create:listing", "update:listing", "delete:listing", "view:listing", "upload:listing:media",
                  "update:listing:status"}
    ensures p in GroupPermissions(ProfileGroup) <==>
            p in {"view:profile", "update:avatar", "update:profile:basic", "update:profile:full"}
    ensures p in GroupPermissions(ChatGroup) <==> p in {"create:chat", "send:message", "view:chat:history"}
    ensures p in GroupPermissions(PaymentGroup) <==>
            p in {"create:payment", "view:payment:history", "manage:payment:methods"}
    ensures p in GroupPermissions(BookingGroup) <==>
            p in {"create:booking", "view:booking", "update:booking", "cancel:booking", "view:booking:calendar",
                  "upload:booking:document", "update:booking:status", "update:booking:payout:status",
                  "request:booking:cancellation"}
    ensures p in GroupPermissions(AdminGroup) <==> p in {"manage:users", "view:system:stats"}
  {
  }

  predicate HasAll(role: UserType, permissions: seq<Permission>) {
    forall i :: 0 <= i < |permissions| ==> Has(role, permissions[i])
  }

  predicate HasAny(role: UserType, permissions: seq<Permission>) {
    exists i :: 0 <= i < |permissions| && Has(role, permissions[i])
  }

  // The manager table extends the customer table, so a landlord or an agent may do whatever
  // a customer may.
  lemma ManagersCanDoMore(permissions: seq<Permission>, role: UserType)
    ensures HasAll(Customer, permissions) ==> HasAll(role, permissions)
    ensures HasAny(Customer, permissions) ==> HasAny(role, permissions)
  {
    forall p | Has(Customer, p) ensures Has(role, p) {
      hide BasePermissions;
    }
    hide Has;
  }

  function RoleName(role: UserType): string {
    match role
    case Landlord => "landlord"
    case RealEstateAgent => "real_estate_agent"
    case Customer => "customer"
  }

  function CacheKey(role: UserType, permission: Permission): string {
    RoleName(role) + ":" + permission
  }

  // Permission names hold colons, role names do not: the first colon splits the key.
  lemma CacheKeyInjective(r: UserType, p: Permission, r': UserType, p': Permission)
    ensures CacheKey(r, p) == CacheKey(r', p') <==> r == r' && p == p'
  {
    PrefixedInjective(RoleName(r), p, RoleName(r'), p', ':');
  }

  // The texts of the keys.
  lemma CacheKeyTexts(p: Permission)
    ensures CacheKey(Landlord, p) == "landlord:" + p && CacheKey(Customer, p) == "customer:" + p
    ensures CacheKey(RealEstateAgent, p) == "real_estate_agent:" + p
  {
    assert "landlord" + ":" == "landlord:" && "customer" + ":" == "customer:";
    assert "real_estate_agent" + ":" == "real_estate_agent:";
  }

  /** `PermissionService`: a memo over the tables. */
  class PermissionService {
    var permissionCache: map<string, bool>

    // Whatever has been asked before, no cached answer differs from the tables.
    ghost predicate Valid()
      reads this
    {
      forall r, p {:trigger CacheKey(r, p)} :: CacheKey(r, p) in permissionCache ==>
          permissionCache[CacheKey(r, p)] == Has(r, p)
    }

    constructor ()
      ensures Valid()
    {
      permissionCache := map[];
    }

    method HasPermission(role: UserType, permission: Permission) returns (ok: bool)
      requires Valid()
      modifies this
      ensures Valid() && (ok <==> Has(role, permission))
    {
      var key := CacheKey(role, permission);
      if key in permissionCache {
        return permissionCache[key];
      }
      ok := permission in RolePermissions(role);
      forall r, p ensures CacheKey(r, p) == key <==> r == role && p == permission {
        CacheKeyInjective(r, p, role, permission);
      }
      hide CacheKey, Has;
      permissionCache := permissionCache[key := ok];
    }

    method HasAllPermissions(role: UserType, permissions: seq<Permission>) returns (ok: bool)
      requires Valid()
      modifies this
      ensures Valid() && (ok <==> HasAll(role, permissions))
    {
      hide Has;
      for i := 0 to |permissions|
        invariant Valid() && forall j :: 0 <= j < i ==> Has(role, permissions[j])
      {
        var has := HasPermission(role, permissions[i]);
        if !has {
          return false;
        }
      }
      ok := true;
    }

    method HasAnyPermission(role: UserType, permissions: seq<Permission>) returns (ok: bool)
      requires Valid()
      modifies this
      ensures Valid() && (ok <==> HasAny(role, permissions))
    {
      hide Has;
      for i := 0 to |permissions|
        invariant Valid() && forall j :: 0 <= j < i ==> !Has(role, permissions[j])
      {
        var has := HasPermission(role, permissions[i]);
        if has {
          return true;
        }
      }
      ok := false;
    }

    method ClearCache()
      modifies this
      ensures Valid() && permissionCache == map[]
    {
      permissionCache := map[];
    }
  }
}
