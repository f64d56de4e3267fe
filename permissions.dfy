/**
 * The permission gate of `GraphqlPermissionMixin`: an ordered list of
 * permission providers is walked front to back, and the first provider that
 * refuses aborts the operation with that provider's `message`.
 */
module Permissions {
  import opened Wrappers
  import opened Common

  /** An instantiated permission class, with its optional `message` attribute. */
  datatype Provider = Provider(name: string, message: Option<string>)

  /** What is being asked about: the request alone, or the request and one object. */
  datatype Target = ForRequest | ForObject(obj: Record)

  /**
   * The providers' decisions: `has_permission(request, view)` for
   * `ForRequest`, `has_object_permission(request, view, obj)` for
   * `ForObject(obj)`. The view is fixed for one mutation class.
   */
  type Policy = (Provider, Request, Target) -> bool

  /** Either every provider allowed, or the `GraphQLError` raised with a message. */
  datatype Gate = Pass | Deny(message: Option<string>)

  /** The outcome of a guarded resolver call: the `GraphQLError` raised, or the value returned. */
  datatype Guarded<R> = Refused(message: Option<string>) | Granted(value: R)

  /** The position of the first provider that refuses, if there is one. */
  function FirstDenial(ps: seq<Provider>, allows: Policy, req: Request, t: Target): (r: Option<nat>)
    ensures r.None? <==> forall i :: 0 <= i < |ps| ==> allows(ps[i], req, t)
    ensures r.Some? ==> r.value < |ps| && !allows(ps[r.value], req, t)
    ensures r.Some? ==> forall i :: 0 <= i < r.value ==> allows(ps[i], req, t)
  {
    if |ps| == 0 then None
    else if !allows(ps[0], req, t) then Some(0)
    else match FirstDenial(ps[1..], allows, req, t)
      case None => None
      case Some(k) => Some(k + 1)
  }

  /** The outcome the gate promises: pass, or the message of the first refusal. */
  function Verdict(ps: seq<Provider>, allows: Policy, req: Request, t: Target): (g: Gate)
    ensures g.Pass? <==> forall i :: 0 <= i < |ps| ==> allows(ps[i], req, t)
    ensures g.Deny? ==> exists k :: 0 <= k < |ps| && !allows(ps[k], req, t) && g.message == ps[k].message
    ensures g.Deny? ==> FirstDenial(ps, allows, req, t).Some?
                        && g.message == ps[FirstDenial(ps, allows, req, t).value].message
  {
    match FirstDenial(ps, allows, req, t)
    case None => Pass
    case Some(k) => Deny(ps[k].message)
  }

  /**
   * The loop of `check_permissions` / `check_object_permissions`: consult
   * the providers in order and stop at the first refusal.
   */
  method CheckAll(ps: seq<Provider>, allows: Policy, req: Request, t: Target) returns (g: Gate)
    ensures g == Verdict(ps, allows, req, t)
  {
    var i := 0;
    while i < |ps|
      invariant 0 <= i <= |ps|
      invariant forall j :: 0 <= j < i ==> allows(ps[j], req, t)
    {
      if !allows(ps[i], req, t) {
        return Deny(ps[i].message);
      }
      i := i + 1;
    }
    return Pass;
  }

  /** `check_permissions(request)`. */
  method CheckPermissions(ps: seq<Provider>, allows: Policy, req: Request) returns (g: Gate)
    ensures g == Verdict(ps, allows, req, ForRequest)
  {
    g := CheckAll(ps, allows, req, ForRequest);
  }

  /** `check_object_permissions(request, obj)`. */
  method CheckObjectPermissions(ps: seq<Provider>, allows: Policy, req: Request, obj: Record) returns (g: Gate)
    ensures g == Verdict(ps, allows, req, ForObject(obj))
  {
    g := CheckAll(ps, allows, req, ForObject(obj));
  }

  /**
   * Order of evaluation: the providers after a refusing one are never
   * consulted, so appending providers after a refusal changes nothing, and
   * appending them after a pass is the same as checking only them.
   */
  lemma {:induction false} VerdictAppend(ps: seq<Provider>, qs: seq<Provider>, allows: Policy, req: Request, t: Target)
    ensures Verdict(ps + qs, allows, req, t)
         == if Verdict(ps, allows, req, t).Deny? then Verdict(ps, allows, req, t) else Verdict(qs, allows, req, t)
  {
    if |ps| > 0 {
      assert (ps + qs)[0] == ps[0];
      assert (ps + qs)[1..] == ps[1..] + qs;
      VerdictAppend(ps[1..], qs, allows, req, t);
      if allows(ps[0], req, t) {
        VerdictTail(ps, allows, req, t);
        VerdictTail(ps + qs, allows, req, t);
      }
    } else {
      assert ps + qs == qs;
    }
  }

  /** Skipping a provider that allows does not change the verdict. */
  lemma VerdictTail(ps: seq<Provider>, allows: Policy, req: Request, t: Target)
    requires |ps| > 0 && allows(ps[0], req, t)
    ensures Verdict(ps, allows, req, t) == Verdict(ps[1..], allows, req, t)
  {
  }

  /**
   * Two policies that agree on every provider up to and including the first
   * refusal give the same verdict: what later providers would decide is
   * irrelevant.
   */
  lemma {:induction false} VerdictIgnoresLaterProviders(ps: seq<Provider>, p1: Policy, p2: Policy, req: Request, t: Target, k: nat)
    requires k < |ps| && !p1(ps[k], req, t)
    requires forall i :: 0 <= i <= k ==> p1(ps[i], req, t) == p2(ps[i], req, t)
    ensures Verdict(ps, p1, req, t) == Verdict(ps, p2, req, t)
  {
    if p1(ps[0], req, t) {
      assert k > 0;
      VerdictTail(ps, p1, req, t);
      VerdictTail(ps, p2, req, t);
      VerdictIgnoresLaterProviders(ps[1..], p1, p2, req, t, k - 1);
    }
  }
}
