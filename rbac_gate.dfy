/** The request gates of backend/src/middleware/rbac.ts: decisions over the
    evaluator's answers. */
module RbacGate {
  import opened Common
  import opened Rbac

  /** What a gate hands to `next`: nothing (the request proceeds) or an error. */
  datatype Verdict = Pass | Deny(status: int, message: string)

  /** One (resource, action) pair a route asks for. */
  datatype Access = Access(resource: string, action: string)

  const Unauthenticated: Verdict := Deny(401, "Non authentifié")

  function DeniedMessage(resource: string, action: string): string {
    "Accès refusé. Permission requise: " + resource + ":" + action
  }

  /** requirePermission(resource, action) applied to a request whose
      authenticated user id is `user`. */
  function RequirePermission(d: Directory, user: Option<string>, resource: string, action: string): (v: Verdict)
    ensures user.None? ==> v == Unauthenticated
    ensures user.Some? ==> (v == Pass <==> HasPermission(d, user.value, resource, action))
    ensures user.Some? && v != Pass ==> v == Deny(403, DeniedMessage(resource, action))
  {
    if user.None? then Unauthenticated
    else if !HasPermission(d, user.value, resource, action) then Deny(403, DeniedMessage(resource, action))
    else Pass
  }

  /** Position of the first granted pair: the pairs before it were checked and
      denied, and the evaluator is not consulted after it. */
  function FirstGranted(d: Directory, userId: string, pairs: seq<Access>): (k: Option<nat>)
    ensures k.Some? ==> k.value < |pairs| && HasPermission(d, userId, pairs[k.value].resource, pairs[k.value].action)
    ensures k.Some? ==> forall j :: 0 <= j < k.value ==> !HasPermission(d, userId, pairs[j].resource, pairs[j].action)
    ensures k.None? ==> forall j :: 0 <= j < |pairs| ==> !HasPermission(d, userId, pairs[j].resource, pairs[j].action)
  {
    if pairs == [] then None
    else if HasPermission(d, userId, pairs[0].resource, pairs[0].action) then Some(0)
    else match FirstGranted(d, userId, pairs[1..])
      case None => None
      case Some(i) => Some(i + 1)
  }

  /** requireAnyPermission(pairs): passes iff some listed pair is granted. */
  function RequireAnyPermission(d: Directory, user: Option<string>, pairs: seq<Access>): (v: Verdict)
    ensures user.None? ==> v == Unauthenticated
    ensures user.Some? ==> (v == Pass <==>
      exists j :: 0 <= j < |pairs| && HasPermission(d, user.value, pairs[j].resource, pairs[j].action))
    ensures user.Some? && v != Pass ==> v == Deny(403, "Accès refusé. Permissions insuffisantes")
  {
    if user.None? then Unauthenticated
    else match FirstGranted(d, user.value, pairs)
      case Some(_) => Pass
      case None => Deny(403, "Accès refusé. Permissions insuffisantes")
  }

  /** The 401 answer does not depend on the directory: the evaluator is not consulted. */
  lemma NoUserNoLookup(d1: Directory, d2: Directory, resource: string, action: string, pairs: seq<Access>)
    ensures RequirePermission(d1, None, resource, action) == RequirePermission(d2, None, resource, action)
    ensures RequireAnyPermission(d1, None, pairs) == RequireAnyPermission(d2, None, pairs)
  {
  }

  /** An empty list of pairs denies every authenticated user, admins included. */
  lemma EmptyListDenies(d: Directory, userId: string)
    ensures RequireAnyPermission(d, Some(userId), []) == Deny(403, "Accès refusé. Permissions insuffisantes")
  {
  }

  /** An active admin passes every single-pair gate; an inactive user is refused with 403. */
  lemma GateFollowsRoles(d: Directory, userId: string, resource: string, action: string)
    requires d.reachable && userId in d.users
    ensures d.users[userId].isActive && IsSuperRole(d.users[userId].role) ==>
      RequirePermission(d, Some(userId), resource, action) == Pass
    ensures !d.users[userId].isActive ==>
      RequirePermission(d, Some(userId), resource, action).status == 403
  {
  }

  /** Listing one pair is the same decision as the single-pair gate. */
  lemma AnyOfOneIsSingle(d: Directory, user: Option<string>, a: Access)
    ensures (RequireAnyPermission(d, user, [a]) == Pass) == (RequirePermission(d, user, a.resource, a.action) == Pass)
  {
  }
}
