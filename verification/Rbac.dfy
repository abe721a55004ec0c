/** Role-based access control: the permissions of a principal through inherited roles, cycles included. */
module Rbac {
  import opened Basics

  datatype Role = Role(permissions: seq<string>, inherits: seq<string>)

  datatype Permission = Permission(resource: string, actions: seq<string>, context: map<string, string>)

  // ----- reachability -----

  /** `path` leads from `from` to `to`, each role but the last existing and inheriting from the next. */
  ghost predicate Path(roles: map<string, Role>, from: string, path: seq<string>, to: string) {
    && path != [] && path[0] == from && Last(path) == to
    && forall i :: 0 <= i < |path| - 1 ==> path[i] in roles && path[i + 1] in roles[path[i]].inherits
  }

  ghost predicate Reachable(roles: map<string, Role>, from: string, to: string) {
    exists path :: Path(roles, from, path, to)
  }

  lemma ReachSelf(roles: map<string, Role>, r: string)
    ensures Reachable(roles, r, r)
  {
    assert Path(roles, r, [r], r);
  }

  lemma ReachVia(roles: map<string, Role>, from: string, mid: string, to: string)
    requires from in roles && mid in roles[from].inherits && Reachable(roles, mid, to)
    ensures Reachable(roles, from, to)
  {
    var path :| Path(roles, mid, path, to);
    var longer := [from] + path;
    forall i | 0 <= i < |longer| - 1
      ensures longer[i] in roles && longer[i + 1] in roles[longer[i]].inherits
    {
      if i > 0 {
        assert longer[i] == path[i - 1] && longer[i + 1] == path[i - 1 + 1];
      }
    }
    assert Path(roles, from, longer, to);
  }

  /** Whatever is inherited from a role in `s` is in `s`. */
  ghost predicate Closed(roles: map<string, Role>, s: set<string>) {
    forall r, q :: r in s && r in roles && q in roles[r].inherits ==> q in s
  }

  lemma {:induction false} ClosedReaches(
    roles: map<string, Role>, s: set<string>, from: string, path: seq<string>, to: string)
    requires Closed(roles, s) && from in s && Path(roles, from, path, to)
    ensures to in s
    decreases path
  {
    if |path| > 1 {
      assert path[0] in roles && path[0 + 1] in roles[path[0]].inherits;
      assert Last(path[1..]) == Last(path);
      forall i | 0 <= i < |path[1..]| - 1
        ensures path[1..][i] in roles && path[1..][i + 1] in roles[path[1..][i]].inherits
      {
        assert path[1..][i] == path[i + 1] && path[1..][i + 1] == path[i + 1 + 1];
      }
      ClosedReaches(roles, s, path[1], path[1..], to);
    }
  }

  // ----- collection -----

  /** The existing permissions listed by the roles in `s`. */
  ghost predicate PermissionsOf(
    roles: map<string, Role>, permissions: map<string, Permission>, s: set<string>, got: map<string, Permission>)
  {
    && (forall id :: id in got <==> id in permissions && exists r :: r in s && r in roles && id in roles[r].permissions)
    && (forall id :: id in got ==> got[id] == permissions[id])
  }

  /** What one collection call does to the visited roles: it adds reachable ones and leaves no inherited role out. */
  ghost predicate Explores(roles: map<string, Role>, from: string, before: set<string>, after: set<string>) {
    && before <= after && from in after
    && (forall r :: r in after && r !in before ==> Reachable(roles, from, r))
    && (forall r, q :: r in after && r !in before && r in roles && q in roles[r].inherits ==> q in after)
  }

  // ----- matching -----

  /** Equality, or a pattern that ends in a star and whose rest is a prefix. */
  predicate PatternMatches(pattern: string, requested: string) {
    || pattern == requested
    || pattern == "*"
    || (pattern != "" && Last(pattern) == '*' && Front(pattern) <= requested)
  }

  /** A pattern matches what it equals and, if it ends in a star, what starts with the rest of it. */
  lemma PatternMeans(pattern: string, requested: string)
    ensures PatternMatches(pattern, requested) <==>
      pattern == requested || exists prefix, rest :: pattern == prefix + "*" && requested == prefix + rest
  {
    if pattern == "*" {
      assert pattern == "" + "*" && requested == "" + requested;
    } else if pattern != "" && Last(pattern) == '*' && Front(pattern) <= requested {
      FrontLast(pattern);
      assert requested == Front(pattern) + requested[|pattern| - 1..];
      assert pattern == Front(pattern) + "*";
    }
    forall prefix: string, rest: string | pattern == prefix + "*" && requested == prefix + rest
      ensures PatternMatches(pattern, requested)
    {
      SnocParts(prefix, '*');
    }
  }

  /** The comment in the source says that "pin.*" matches "pin"; the code does not. */
  lemma StarNeedsThePrefix()
    ensures !PatternMatches("pin.*", "pin") && PatternMatches("pin.*", "pin.metadata")
  {
    assert Front("pin.*") == "pin." && |"pin."| > |"pin"|;
    assert "pin.metadata" == "pin." + "metadata";
  }

  ghost predicate ContextSatisfied(wanted: map<string, string>, given: map<string, string>) {
    forall k :: k in wanted ==> k in given && (wanted[k] == "*" || given[k] == wanted[k])
  }

  ghost predicate PermissionMatches(p: Permission, resource: string, action: string, context: map<string, string>) {
    && PatternMatches(p.resource, resource)
    && (exists a :: a in p.actions && PatternMatches(a, action))
    && ContextSatisfied(p.context, context)
  }

  method ActionMatches(actions: seq<string>, action: string) returns (r: bool)
    ensures r <==> exists a :: a in actions && PatternMatches(a, action)
  {
    var i := 0;
    while i < |actions|
      invariant 0 <= i <= |actions| && forall j :: 0 <= j < i ==> !PatternMatches(actions[j], action)
    {
      if PatternMatches(actions[i], action) {
        return true;
      }
      i := i + 1;
    }
    return false;
  }

  method ContextMatches(wanted: map<string, string>, given: map<string, string>) returns (r: bool)
    ensures r <==> ContextSatisfied(wanted, given)
  {
    var order := AnyOrder(wanted.Keys);
    var i := 0;
    while i < |order|
      invariant 0 <= i <= |order|
      invariant forall j :: 0 <= j < i ==>
        && order[j] in wanted && order[j] in given
        && (wanted[order[j]] == "*" || given[order[j]] == wanted[order[j]])
    {
      var key := order[i];
      assert key in Elements(order);
      if key !in given || (wanted[key] != "*" && given[key] != wanted[key]) {
        return false;
      }
      i := i + 1;
    }
    forall k | k in wanted
      ensures k in given && (wanted[k] == "*" || given[k] == wanted[k])
    {
      assert k in Elements(order);
    }
    return true;
  }

  method Matches(p: Permission, resource: string, action: string, context: map<string, string>) returns (r: bool)
    ensures r <==> PermissionMatches(p, resource, action, context)
  {
    if !PatternMatches(p.resource, resource) {
      return false;
    }
    var acts := ActionMatches(p.actions, action);
    if !acts {
      return false;
    }
    r := ContextMatches(p.context, context);
  }

  /** A role that some role in `from` reaches. */
  ghost predicate ReachableFrom(roles: map<string, Role>, from: seq<string>, r: string) {
    exists i :: 0 <= i < |from| && Reachable(roles, from[i], r)
  }

  /** `id` is an existing permission of a role that the principal's roles reach. */
  ghost predicate Grants(
    roles: map<string, Role>, permissions: map<string, Permission>, from: seq<string>, id: string)
  {
    id in permissions && exists r :: r in roles && ReachableFrom(roles, from, r) && id in roles[r].permissions
  }

  class RBACAuthorizer {
    var roles: map<string, Role>
    var permissions: map<string, Permission>

    /** Adds the permissions of a role and of the roles it inherits from, skipping visited ones. */
    method CollectRolePermissions(
      role: string, got0: map<string, Permission>, visited0: set<string>, ghost earlier: set<string>)
      returns (got: map<string, Permission>, visited: set<string>)
      requires PermissionsOf(roles, permissions, earlier + visited0, got0)
      ensures PermissionsOf(roles, permissions, earlier + visited, got)
      ensures Explores(roles, role, visited0, visited)
      decreases roles.Keys - visited0, 1
    {
      got, visited := got0, visited0;
      if role in visited {
        return;
      }
      visited := visited + {role};
      ReachSelf(roles, role);
      if role !in roles {
        return;
      }
      got := AddDirect(role, got, earlier + visited0);
      assert earlier + visited0 + {role} == earlier + visited;
      got, visited := CollectInherited(role, got, visited, visited0, earlier);
    }

    /** Adds the existing permissions that one role lists. */
    method AddDirect(
      role: string, got0: map<string, Permission>, ghost visited: set<string>)
      returns (got: map<string, Permission>)
      requires role in roles && PermissionsOf(roles, permissions, visited, got0)
      ensures PermissionsOf(roles, permissions, visited + {role}, got)
    {
      got := got0;
      var ids := roles[role].permissions;
      var i := 0;
      while i < |ids|
        invariant 0 <= i <= |ids|
        invariant forall id :: id in got <==> id in got0 || (id in permissions && id in ids[..i])
        invariant forall id :: id in got ==> got[id] == permissions[id]
      {
        PrefixSnoc(ids, i);
        if ids[i] in permissions {
          got := got[ids[i] := permissions[ids[i]]];
        }
        i := i + 1;
      }
      assert ids[..i] == ids;
    }

    /** Collects from every role that `role` inherits from. */
    method CollectInherited(
      role: string, got0: map<string, Permission>, visited0: set<string>, ghost before: set<string>,
      ghost earlier: set<string>)
      returns (got: map<string, Permission>, visited: set<string>)
      requires role in roles && role !in before && visited0 == before + {role}
      requires PermissionsOf(roles, permissions, earlier + visited0, got0)
      ensures PermissionsOf(roles, permissions, earlier + visited, got)
      ensures Explores(roles, role, before, visited)
      decreases roles.Keys - visited0, 2
    {
      got, visited := got0, visited0;
      ReachSelf(roles, role);
      var inherited := roles[role].inherits;
      var i := 0;
      while i < |inherited|
        invariant 0 <= i <= |inherited| && visited0 <= visited
        invariant PermissionsOf(roles, permissions, earlier + visited, got)
        invariant forall j :: 0 <= j < i ==> inherited[j] in visited
        invariant forall r :: r in visited && r !in before ==> Reachable(roles, role, r)
        invariant forall r, q :: r in visited && r !in visited0 && r in roles && q in roles[r].inherits ==> q in visited
      {
        ghost var seen := visited;
        got, visited := CollectRolePermissions(inherited[i], got, visited, earlier);
        forall r | r in visited && r !in seen
          ensures Reachable(roles, role, r)
        {
          ReachVia(roles, role, inherited[i], r);
        }
        i := i + 1;
      }
    }

    /** The permissions, by name, of all roles that a principal's roles reach. */
    method CollectAll(from: seq<string>) returns (got: map<string, Permission>)
      ensures forall id :: id in got <==> Grants(roles, permissions, from, id)
      ensures forall id :: id in got ==> id in permissions && got[id] == permissions[id]
    {
      got := map[];
      ghost var seen: set<string> := {};
      var i := 0;
      while i < |from|
        invariant 0 <= i <= |from| && PermissionsOf(roles, permissions, seen, got)
        invariant forall r :: r in seen <==> exists j :: 0 <= j < i && Reachable(roles, from[j], r)
      {
        assert seen + {} == seen;
        var visited;
        got, visited := CollectRolePermissions(from[i], got, {}, seen);
        VisitedIsReachable(roles, from[i], visited);
        seen := seen + visited;
        i := i + 1;
      }
      assert forall r :: r in seen <==> ReachableFrom(roles, from, r);
    }

    /** The permissions of a principal, in any order. */
    method GetPermissions(from: seq<string>) returns (perms: seq<Permission>)
      ensures forall p :: p in perms <==> exists id :: Grants(roles, permissions, from, id) && p == permissions[id]
    {
      var got := CollectAll(from);
      var order := AnyOrder(got.Keys);
      perms := [];
      var i := 0;
      while i < |order|
        invariant 0 <= i <= |order|
        invariant forall p :: p in perms <==> exists j :: 0 <= j < i && order[j] in got && p == got[order[j]]
      {
        assert order[i] in Elements(order);
        perms := perms + [got[order[i]]];
        i := i + 1;
      }
      forall id | Grants(roles, permissions, from, id)
        ensures permissions[id] in perms
      {
        assert id in Elements(order);
        var j :| 0 <= j < |order| && order[j] == id;
        assert got[order[j]] == permissions[id];
      }
    }

    /** Grants access exactly when some permission that the principal's roles reach allows the action. */
    method Authorize(
      principal: Option<seq<string>>, resource: string, action: string, context: map<string, string>)
      returns (ok: bool)
      ensures ok <==>
        && principal.Some?
        && exists id ::
             && Grants(roles, permissions, principal.value, id)
             && PermissionMatches(permissions[id], resource, action, context)
    {
      if principal.None? {
        return false;
      }
      var perms := GetPermissions(principal.value);
      var i := 0;
      while i < |perms|
        invariant 0 <= i <= |perms|
        invariant forall j :: 0 <= j < i ==> !PermissionMatches(perms[j], resource, action, context)
      {
        var m := Matches(perms[i], resource, action, context);
        if m {
          assert perms[i] in perms;
          return true;
        }
        i := i + 1;
      }
      forall id | Grants(roles, permissions, principal.value, id)
        ensures !PermissionMatches(permissions[id], resource, action, context)
      {
        assert permissions[id] in perms;
      }
      return false;
    }
  }

  /** A collection from scratch visits exactly the reachable roles. */
  lemma VisitedIsReachable(roles: map<string, Role>, from: string, visited: set<string>)
    requires Explores(roles, from, {}, visited)
    ensures forall r :: r in visited <==> Reachable(roles, from, r)
  {
    assert Closed(roles, visited);
    forall r | Reachable(roles, from, r)
      ensures r in visited
    {
      var path :| Path(roles, from, path, r);
      ClosedReaches(roles, visited, from, path, r);
    }
  }
}
