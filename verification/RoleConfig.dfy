/**
 * Run-time role configuration (role-config.service.ts): a map of insertion-ordered sets over an
 * arbitrary static table, proved to replay each role's own operations over its defaults.
 */
module RoleConfig {
  import opened Permissions

  type Role = string
  type Statics = map<Role, seq<Permission>>

  // ROLE_PERMISSIONS[role] || []
  function Defaults(statics: Statics, role: Role): seq<Permission> {
    if role in statics then statics[role] else []
  }

  // A JavaScript Set: its elements in insertion order, each once.
  type Ordered = s: seq<Permission> | forall i, j :: 0 <= i < j < |s| ==> s[i] != s[j]

  function Insert(s: Ordered, p: Permission): (r: Ordered)
    ensures forall q :: q in r <==> q in s || q == p
  {
    if p in s then s else s + [p]
  }

  function Without(s: seq<Permission>, p: Permission): (r: seq<Permission>)
    ensures forall q :: q in r <==> q in s && q != p
    ensures |r| <= |s|
  {
    if s == [] then [] else (if s[0] == p then [] else [s[0]]) + Without(s[1..], p)
  }

  lemma {:induction false} WithoutOrdered(s: Ordered, p: Permission)
    ensures forall i, j :: 0 <= i < j < |Without(s, p)| ==> Without(s, p)[i] != Without(s, p)[j]
  {
    if s != [] {
      WithoutOrdered(s[1..], p);
      assert s[0] !in s[1..];
    }
  }

  function Delete(s: Ordered, p: Permission): (r: Ordered)
    ensures forall q :: q in r <==> q in s && q != p
  {
    WithoutOrdered(s, p);
    Without(s, p)
  }

  // new Set(ps)
  function SetOf(ps: seq<Permission>): (r: Ordered)
    ensures forall q :: q in r <==> q in ps
  {
    if ps == [] then [] else Insert(SetOf(ps[..|ps| - 1]), ps[|ps| - 1])
  }

  datatype Op =
    | Add(role: Role, permission: Permission)
    | Remove(role: Role, permission: Permission)
    | ResetRole(role: Role)
    | ResetAll

  // One operation as seen by one role.
  function Effect(statics: Statics, role: Role, current: Ordered, op: Op): Ordered {
    match op
    case Add(r, p) => if r == role then Insert(current, p) else current
    case Remove(r, p) => if r == role then Delete(current, p) else current
    case ResetRole(r) => if r == role then SetOf(Defaults(statics, role)) else current
    case ResetAll => SetOf(Defaults(statics, role))
  }

  // The role's permissions after a history: its operations folded over its defaults.
  function Replay(statics: Statics, role: Role, history: seq<Op>): Ordered {
    if |history| == 0 then SetOf(Defaults(statics, role))
    else Effect(statics, role, Replay(statics, role, history[..|history| - 1]), history[|history| - 1])
  }

  predicate Resets(op: Op, role: Role) {
    op == ResetAll || op == ResetRole(role)
  }

  // A reset erases all earlier history.
  lemma {:induction false} ResetErases(statics: Statics, role: Role, before: seq<Op>, op: Op, after: seq<Op>)
    requires Resets(op, role)
    ensures Replay(statics, role, before + [op] + after) == Replay(statics, role, after)
    decreases |after|
  {
    var h := before + [op] + after;
    var n := |h| - 1;
    if after == [] {
      assert h[n] == op;
    } else {
      assert h[n] == after[|after| - 1] && h[..n] == before + [op] + after[..|after| - 1];
      ResetErases(statics, role, before, op, after[..|after| - 1]);
    }
  }

  // The operation decides whether the role holds p, whatever came before.
  predicate Settles(op: Op, role: Role, p: Permission) {
    op == Add(role, p) || op == Remove(role, p) || Resets(op, role)
  }

  // The last operation that settles a permission decides it: an addition grants it, a removal
  // withdraws it, a reset makes it what the defaults say.
  lemma {:induction false} LastSettles(statics: Statics, role: Role, history: seq<Op>, p: Permission, i: nat)
    requires i < |history| && Settles(history[i], role, p)
    requires forall k :: i < k < |history| ==> !Settles(history[k], role, p)
    ensures p in Replay(statics, role, history) <==>
            history[i] == Add(role, p) || (Resets(history[i], role) && p in Defaults(statics, role))
  {
    var n := |history| - 1;
    if i < n {
      LastSettles(statics, role, history[..n], p, i);
    }
  }

  lemma {:induction false} NeverSettled(statics: Statics, role: Role, history: seq<Op>, p: Permission)
    requires forall k :: 0 <= k < |history| ==> !Settles(history[k], role, p)
    ensures p in Replay(statics, role, history) <==> p in Defaults(statics, role)
  {
    if |history| > 0 {
      NeverSettled(statics, role, history[..|history| - 1], p);
    }
  }

  // p is listed before q.
  predicate Before(s: seq<Permission>, p: Permission, q: Permission) {
    exists i, j :: 0 <= i < j < |s| && s[i] == p && s[j] == q
  }

  // p occurs before q's first occurrence.
  predicate OccursBefore(s: seq<Permission>, p: Permission, q: Permission) {
    exists i :: 0 <= i < |s| && s[i] == p && q !in s[..i]
  }

  // The order of the list: an operation other than a reset keeps the order of the permissions held
  // before and after it and lists a new one last; a reset lists the defaults by first occurrence.
  lemma ListOrder(statics: Statics, role: Role, history: seq<Op>, op: Op, p: Permission, q: Permission)
    requires var after := Replay(statics, role, history + [op]);
             p in after && q in after && p != q
    ensures var before, after := Replay(statics, role, history), Replay(statics, role, history + [op]);
            if Resets(op, role) then Before(after, p, q) <==> OccursBefore(Defaults(statics, role), p, q)
            else if q in before then p in before ==> (Before(after, p, q) <==> Before(before, p, q))
            else Before(after, p, q)
  {
    assert (history + [op])[..|history|] == history;
    var before := Replay(statics, role, history);
    if Resets(op, role) {
      SetOfOrder(Defaults(statics, role), p, q);
    } else if op.Remove? && op.role == role {
      WithoutOrder(before, op.permission, p, q);
    } else if op.Add? && op.role == role {
      InsertOrder(before, op.permission, p, q);
    }
  }

  lemma BeforeAppend(s: seq<Permission>, x: Permission, p: Permission, q: Permission)
    ensures Before(s + [x], p, q) <==> Before(s, p, q) || (p in s && q == x)
  {
    var t := s + [x];
    if Before(s, p, q) {
      var i, j :| 0 <= i < j < |s| && s[i] == p && s[j] == q;
      assert t[i] == p && t[j] == q;
    }
    if p in s && q == x {
      var i :| 0 <= i < |s| && s[i] == p;
      assert t[i] == p && t[|s|] == q;
    }
  }

  lemma BeforePrepend(x: Permission, s: seq<Permission>, p: Permission, q: Permission)
    ensures Before([x] + s, p, q) <==> Before(s, p, q) || (p == x && q in s)
  {
    var t := [x] + s;
    if Before(s, p, q) {
      var i, j :| 0 <= i < j < |s| && s[i] == p && s[j] == q;
      assert t[i + 1] == p && t[j + 1] == q;
    }
    if p == x && q in s {
      var j :| 0 <= j < |s| && s[j] == q;
      assert t[0] == p && t[j + 1] == q;
    }
    if Before(t, p, q) {
      var i, j :| 0 <= i < j < |t| && t[i] == p && t[j] == q;
      assert s[j - 1] == q && (i > 0 ==> s[i - 1] == p);
    }
  }

  lemma InsertOrder(s: Ordered, added: Permission, p: Permission, q: Permission)
    requires p in Insert(s, added) && p != q
    ensures p in s && q in s ==> (Before(Insert(s, added), p, q) <==> Before(s, p, q))
    ensures q !in s && q in Insert(s, added) ==> Before(Insert(s, added), p, q)
  {
    BeforeAppend(s, added, p, q);
  }

  lemma {:induction false} WithoutOrder(s: seq<Permission>, removed: Permission, p: Permission, q: Permission)
    requires p != removed && q != removed
    ensures Before(Without(s, removed), p, q) <==> Before(s, p, q)
  {
    if s != [] {
      WithoutOrder(s[1..], removed, p, q);
      BeforePrepend(s[0], Without(s[1..], removed), p, q);
      BeforePrepend(s[0], s[1..], p, q);
      assert s == [s[0]] + s[1..];
      assert s[0] == removed ==> Without(s, removed) == Without(s[1..], removed);
    }
  }

  lemma OccursBeforeAppend(s: seq<Permission>, x: Permission, p: Permission, q: Permission)
    requires p != q
    ensures OccursBefore(s + [x], p, q) <==> OccursBefore(s, p, q) || (x == p && q !in s)
  {
    var t := s + [x];
    assert forall i :: 0 <= i <= |s| ==> t[..i] == s[..i];
    if OccursBefore(s, p, q) {
      var i :| 0 <= i < |s| && s[i] == p && q !in s[..i];
      assert t[i] == p && q !in t[..i];
    }
    if x == p && q !in s {
      assert t[|s|] == p && t[..|s|] == s;
    }
  }

  lemma {:induction false} SetOfOrder(ps: seq<Permission>, p: Permission, q: Permission)
    requires p in ps && q in ps && p != q
    ensures Before(SetOf(ps), p, q) <==> OccursBefore(ps, p, q)
  {
    var rest, x := ps[..|ps| - 1], ps[|ps| - 1];
    assert ps == rest + [x];
    BeforeAppend(SetOf(rest), x, p, q);
    OccursBeforeAppend(rest, x, p, q);
    if p in rest && q in rest {
      SetOfOrder(rest, p, q);
    } else if q in rest {
      assert !OccursBefore(rest, p, q);
    } else {
      var i :| 0 <= i < |rest| && rest[i] == p;
      assert q !in rest[..i];
    }
  }

  /** `RoleConfigService`, with the operations performed so far. */
  class RoleConfigService {
    const statics: Statics
    var rolePermissions: map<Role, Ordered>
    ghost var history: seq<Op>

    // Dynamic where there is an entry; elsewhere there are no defaults and nothing was added.
    ghost predicate Valid()
      reads this
    {
      forall role :: if role in rolePermissions then rolePermissions[role] == Replay(statics, role, history)
                     else Defaults(statics, role) == Replay(statics, role, history) == []
    }

    constructor (statics: Statics)
      ensures Valid() && history == [] && this.statics == statics
    {
      this.statics := statics;
      rolePermissions := map role | role in statics :: SetOf(statics[role]);
      history := [];
    }

    method GetPermissionsForRole(role: Role) returns (ps: seq<Permission>)
      requires Valid()
      ensures ps == Replay(statics, role, history)
    {
      ps := if role in rolePermissions then rolePermissions[role] else Defaults(statics, role);
    }

    method HasPermission(role: Role, permission: Permission) returns (ok: bool)
      requires Valid()
      ensures ok <==> permission in Replay(statics, role, history)
    {
      if role in rolePermissions {
        return permission in rolePermissions[role];
      }
      ok := permission in Defaults(statics, role);
    }

    ghost method Log(op: Op)
      modifies this`history
      ensures history == old(history) + [op]
      ensures forall role :: Replay(statics, role, history) ==
                             Effect(statics, role, Replay(statics, role, old(history)), op)
    {
      assert (history + [op])[..|history|] == history;
      history := history + [op];
    }

    method AddPermissionToRole(role: Role, permission: Permission)
      requires Valid()
      modifies this
      ensures Valid() && history == old(history) + [Add(role, permission)]
    {
      hide Replay;
      if role !in rolePermissions {
        rolePermissions := rolePermissions[role := SetOf(Defaults(statics, role))];
      }
      rolePermissions := rolePermissions[role := Insert(rolePermissions[role], permission)];
      Log(Add(role, permission));
    }

    method RemovePermissionFromRole(role: Role, permission: Permission)
      requires Valid()
      modifies this
      ensures Valid() && history == old(history) + [Remove(role, permission)]
    {
      hide Replay;
      if role in rolePermissions {
        rolePermissions := rolePermissions[role := Delete(rolePermissions[role], permission)];
      } else {
        rolePermissions := rolePermissions[role := SetOf(Without(Defaults(statics, role), permission))];
      }
      Log(Remove(role, permission));
    }

    method ResetRoleToDefault(role: Role)
      requires Valid()
      modifies this
      ensures Valid() && history == old(history) + [ResetRole(role)]
    {
      if |Defaults(statics, role)| > 0 {
        rolePermissions := rolePermissions[role := SetOf(Defaults(statics, role))];
      } else {
        rolePermissions := rolePermissions - {role};
      }
      Log(ResetRole(role));
    }

    method ResetAllRolesToDefault()
      requires Valid()
      modifies this
      ensures Valid() && history == old(history) + [ResetAll]
    {
      rolePermissions := map role | role in statics :: SetOf(statics[role]);
      Log(ResetAll);
    }
  }
}
