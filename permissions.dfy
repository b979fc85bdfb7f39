/**
 * Access control lists: principal id -> list of granted permissions
 * (src/ontology_framework/permissions.py).
 */
module Permissions {

  datatype PermissionType = VIEW | EDIT | DELETE | OWNER

  /** The `permissions` dict: principal id -> granted permissions, in grant order. */
  type Grants = map<string, seq<PermissionType>>

  /** The list a principal holds, `[]` when it has none. */
  function Held(g: Grants, p: string): seq<PermissionType>
  {
    if p in g then g[p] else []
  }

  /** The grant table after `grant(p, k)`: create p's list if absent, append k unless already held. */
  function Granted(g: Grants, p: string, k: PermissionType): Grants
  {
    var cur := Held(g, p);
    if k in cur then g[p := cur] else g[p := cur + [k]]
  }

  /** `check(p, k)`. */
  predicate Allows(g: Grants, p: string, k: PermissionType)
  {
    k in Held(g, p)
  }

  /** Number of occurrences of k in p's list. */
  function Occurrences(s: seq<PermissionType>, k: PermissionType): nat
  {
    multiset(s)[k]
  }

  lemma GrantThenCheck(g: Grants, p: string, k: PermissionType)
    ensures Allows(Granted(g, p, k), p, k)
  {
  }

  /** Granting twice is the same as granting once; a list without duplicates keeps exactly one entry. */
  lemma GrantIdempotent(g: Grants, p: string, k: PermissionType)
    ensures Granted(Granted(g, p, k), p, k) == Granted(g, p, k)
    ensures Occurrences(Held(g, p), k) <= 1 ==> Occurrences(Held(Granted(g, p, k), p), k) == 1
  {
    var cur := Held(g, p);
    if k !in cur {
      assert multiset(cur + [k]) == multiset(cur) + multiset{k};
    }
  }

  /** `grant(p, k)` touches only p's list, and only by appending. */
  lemma GrantOnlyTouchesPrincipal(g: Grants, p: string, k: PermissionType)
    ensures forall q :: q != p ==> (q in Granted(g, p, k) <==> q in g)
    ensures forall q :: q != p && q in g ==> Granted(g, p, k)[q] == g[q]
    ensures Held(g, p) <= Held(Granted(g, p, k), p)
    ensures forall k2 :: Allows(g, p, k2) ==> Allows(Granted(g, p, k), p, k2)
  {
  }

  /** The grant table after a series of `grant` calls. */
  function GrantAll(g: Grants, history: seq<(string, PermissionType)>): Grants
    decreases |history|
  {
    if history == [] then g
    else GrantAll(Granted(g, history[0].0, history[0].1), history[1..])
  }

  /** A principal that no grant in the history names stays without permissions. */
  lemma {:induction false} NeverGrantedIsDenied(g: Grants, history: seq<(string, PermissionType)>, p: string, k: PermissionType)
    requires p !in g
    requires forall i :: 0 <= i < |history| ==> history[i].0 != p
    ensures p !in GrantAll(g, history)
    ensures !Allows(GrantAll(g, history), p, k)
    decreases |history|
  {
    if history != [] {
      NeverGrantedIsDenied(Granted(g, history[0].0, history[0].1), history[1..], p, k);
    }
  }

  class AccessControlList {
    var permissions: Grants

    constructor ()
      ensures permissions == map[]
    {
      permissions := map[];
    }

    method Grant(p: string, k: PermissionType)
      modifies this
      ensures permissions == Granted(old(permissions), p, k)
    {
      if p !in permissions {
        permissions := permissions[p := []];
      }
      if k !in permissions[p] {
        permissions := permissions[p := permissions[p] + [k]];
      }
    }

    function Check(p: string, k: PermissionType): bool
      reads this
    {
      Allows(permissions, p, k)
    }
  }
}
