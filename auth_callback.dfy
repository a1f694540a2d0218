/**
 * The authentication callback route (`GET /auth/callback`).
 *
 * The route receives either an exchange `code` or a `token_hash` + `type`
 * pair, resolves it with the identity provider, may record an analytics
 * event and finalise an invitation, and always answers with exactly one
 * redirect. The identity provider, the analytics tracker and the database
 * RPC are not modelled: each call is replaced by the outcome it has for
 * this request (a `Services` value), and the calls the route makes are
 * recorded, in order, as a trace of `Effect`s.
 *
 * `Callback` is the reference decision, written once for both credential
 * kinds; `Get` follows the route step by step, with its two duplicated
 * branches and a mutable clone of the request URL, and is proved to agree
 * with `Callback`.
 */
module AuthCallback {
  import opened Wrappers

  // Fixed redirect targets and analytics event labels.
  const LoginError := "/login-error"
  const CompleteProfile := "/complete-profile"
  const Me := "/me"
  const UserSignup := "User Signup"
  const InvitedUserSignup := "Invited User Signup"

  /** Path of this route; the OAuth login builds its redirect URLs from it. */
  const CallbackRoute := "/auth/callback"

  // ---------------------------------------------------------------------
  // URLs and their query parameters
  // ---------------------------------------------------------------------

  /** One `name=value` pair of a query string. */
  datatype Param = Param(name: string, value: string)

  /** A URL: everything before the path, the path, and the ordered query pairs. */
  datatype Url = Url(origin: string, pathname: string, params: seq<Param>)

  /** `URLSearchParams.get`: the value of the first pair named `name`, if any. */
  function Lookup(params: seq<Param>, name: string): (r: Option<string>)
    ensures r.Some? ==> Param(name, r.value) in params
  {
    if params == [] then None
    else if params[0].name == name then Some(params[0].value)
    else Lookup(params[1..], name)
  }

  /** `URLSearchParams.delete`: drop every pair named `name`, keeping the others in order. */
  function Without(params: seq<Param>, name: string): (r: seq<Param>)
    ensures |r| <= |params|
    ensures forall i :: 0 <= i < |r| ==> r[i].name != name
  {
    if params == [] then []
    else if params[0].name == name then Without(params[1..], name)
    else [params[0]] + Without(params[1..], name)
  }

  /** `Lookup` finds a value exactly when a pair has the name, and then it is the first such pair's. */
  lemma {:induction false} LookupFindsFirst(params: seq<Param>, name: string)
    ensures Lookup(params, name).None? <==> forall i :: 0 <= i < |params| ==> params[i].name != name
    ensures Lookup(params, name).Some? ==>
              exists i :: 0 <= i < |params| && params[i] == Param(name, Lookup(params, name).value) &&
                          forall j :: 0 <= j < i ==> params[j].name != name
  {
    if params != [] && params[0].name != name {
      LookupFindsFirst(params[1..], name);
      var r := Lookup(params[1..], name);
      if r.Some? {
        var i :| 0 <= i < |params[1..]| && params[1..][i] == Param(name, r.value) &&
                 forall j :: 0 <= j < i ==> params[1..][j].name != name;
        assert params[i + 1] == Param(name, r.value);
      } else {
        forall i | 0 <= i < |params| ensures params[i].name != name {
          if i > 0 { assert params[i] == params[1..][i - 1]; }
        }
      }
    } else if params != [] {
      assert params[0] == Param(name, params[0].value);
    }
  }

  /** `Without` keeps exactly the pairs with another name, and changes nothing when none has it. */
  lemma {:induction false} WithoutKeepsOthers(params: seq<Param>, name: string)
    ensures forall p :: p in Without(params, name) <==> p in params && p.name != name
    ensures (forall i :: 0 <= i < |params| ==> params[i].name != name) ==> Without(params, name) == params
  {
    if params != [] {
      WithoutKeepsOthers(params[1..], name);
      assert params == [params[0]] + params[1..];
      if forall i :: 0 <= i < |params| ==> params[i].name != name {
        assert forall i :: 0 <= i < |params[1..]| ==> params[1..][i].name != name by {
          forall i | 0 <= i < |params[1..]| ensures params[1..][i].name != name {
            assert params[1..][i] == params[i + 1];
          }
        }
      }
    }
  }

  /**
   * `Without` works pair by pair: deleting from a concatenation is deleting
   * from each part, so the pairs that stay keep their order and their repeats.
   */
  lemma {:induction false} WithoutConcat(front: seq<Param>, back: seq<Param>, name: string)
    ensures Without(front + back, name) == Without(front, name) + Without(back, name)
  {
    if front == [] {
      assert front + back == back;
    } else {
      assert (front + back)[1..] == front[1..] + back;
      WithoutConcat(front[1..], back, name);
    }
  }

  /** Deleting one name leaves the lookup of every other name as it was. */
  lemma {:induction false} LookupWithout(params: seq<Param>, removed: string, name: string)
    requires removed != name
    ensures Lookup(Without(params, removed), name) == Lookup(params, name)
  {
    if params != [] {
      LookupWithout(params[1..], removed, name);
      if params[0].name != removed {
        assert ([params[0]] + Without(params[1..], removed))[1..] == Without(params[1..], removed);
      }
    }
  }

  /**
   * The mutable clone of the request URL that the route edits before
   * redirecting (`request.nextUrl.clone()`).
   */
  class RedirectUrl {
    const origin: string
    var pathname: string
    var params: seq<Param>

    /** The URL as it is now; `NextResponse.redirect` sends this value. */
    function Snapshot(): Url
      reads this
    {
      Url(origin, pathname, params)
    }

    constructor Clone(u: Url)
      ensures Snapshot() == u
    {
      origin := u.origin;
      pathname := u.pathname;
      params := u.params;
    }

    method SetPathname(p: string)
      modifies this
      ensures pathname == p && params == old(params)
    {
      pathname := p;
    }

    method Delete(name: string)
      modifies this
      ensures params == Without(old(params), name) && pathname == old(pathname)
    {
      params := Without(params, name);
    }
  }

  // ---------------------------------------------------------------------
  // Users and events
  // ---------------------------------------------------------------------

  /** The fields of the provider's user record that the route reads. */
  datatype User = User(
    email: Option<string>,
    id: string,
    lastSignInAt: Option<string>,
    metadata: map<string, Json>)

  /** `data.user?.user_metadata[key]`, missing when there is no user or no such key. */
  function Meta(user: Option<User>, key: string): Option<Json> {
    if user.Some? && key in user.value.metadata then Some(user.value.metadata[key]) else None
  }

  function EmailOf(user: Option<User>): Option<string> {
    if user.Some? then user.value.email else None
  }

  function IdOf(user: Option<User>): Option<string> {
    if user.Some? then Some(user.value.id) else None
  }

  /** `invited === true`: strictly the boolean true, not a truthy value. */
  predicate Invited(user: Option<User>) {
    Meta(user, "invited") == Some(JBool(true))
  }

  /** `last_sign_in_at` is truthy; false when the user record is missing. */
  predicate SignedInBefore(user: Option<User>) {
    user.Some? && Truthy(user.value.lastSignInAt)
  }

  /** The analytics event label for a resolved user; an invitation takes precedence. */
  function EventFor(user: Option<User>): (event: Option<string>)
    ensures event == Some(InvitedUserSignup) <==> Invited(user)
    ensures event == Some(UserSignup) <==> !Invited(user) && !SignedInBefore(user)
    ensures event == None <==> !Invited(user) && SignedInBefore(user)
  {
    var first := if !SignedInBefore(user) then Some(UserSignup) else None;
    if Invited(user) then Some(InvitedUserSignup) else first
  }

  // ---------------------------------------------------------------------
  // Collaborators and the trace of calls
  // ---------------------------------------------------------------------

  /** What resolving a credential returned: a user (possibly null) or an error. */
  datatype Resolution = Resolved(user: Option<User>) | Rejected

  /** What the `handle_invited_signup` RPC returned. */
  datatype RpcReply = RpcOk | RpcError

  /** The outcome each external call has for this request. */
  datatype Services = Services(
    exchange: Outcome<Resolution>,
    verify: Outcome<Resolution>,
    track: Outcome<()>,
    rpc: Outcome<RpcReply>)

  /** A call the route makes to a collaborator, with its arguments. */
  datatype Effect =
    | ExchangeCode(code: string)
    | VerifyOtp(tokenHash: string, kind: string)
    | Track(event: string, email: Option<string>, firstName: Option<Json>, lastName: Option<Json>)
    | InviteRpc(invitedEmail: string, invitedId: string)

  /** The redirect the route answers with, and the calls it made on the way. */
  datatype Response = Response(location: Url, effects: seq<Effect>)

  /** The analytics call for a user, when one is due. */
  function TrackCall(user: Option<User>): Effect
    requires EventFor(user).Some?
  {
    Track(EventFor(user).value, EmailOf(user), Meta(user, "firstName"), Meta(user, "lastName"))
  }

  /** The invitation RPC call, with `email ?? ''` and `id ?? ''`. */
  function InviteCall(user: Option<User>): Effect {
    InviteRpc(EmailOf(user).GetOr(""), IdOf(user).GetOr(""))
  }

  // ---------------------------------------------------------------------
  // The reference decision
  // ---------------------------------------------------------------------

  /** The credential a request carries, in the order the route tests them. */
  datatype Credential = ByCode(code: string) | ByToken(tokenHash: string, kind: string) | NoCredential

  function CredentialOf(params: seq<Param>): Credential {
    var code := Lookup(params, "code");
    var tokenHash := Lookup(params, "token_hash");
    var kind := Lookup(params, "type");
    if Truthy(code) then ByCode(code.value)
    else if Truthy(tokenHash) && Truthy(kind) then ByToken(tokenHash.value, kind.value)
    else NoCredential
  }

  /** The query parameters a branch removes from the redirect URL. */
  function Cleared(c: Credential, params: seq<Param>): seq<Param> {
    if c.ByCode? then Without(params, "code")
    else Without(Without(params, "token_hash"), "type")
  }

  /** How the route's `try` block ends: with a redirect path, or with a thrown error. */
  datatype Step = Done(path: string, effects: seq<Effect>) | Raised(effects: seq<Effect>)

  /**
   * Everything after a successful resolution; the same for both credential
   * kinds. At most two calls follow: the tracking call, only first, and the
   * invitation RPC, only last.
   */
  function Decide(user: Option<User>, svc: Services): (r: Step)
    ensures |r.effects| <= 2
    ensures forall i :: 1 <= i < |r.effects| ==> !r.effects[i].Track?
    ensures forall i :: 0 <= i < |r.effects| - 1 ==> !r.effects[i].InviteRpc?
    ensures r.Done? ==> r.path in {Me, CompleteProfile, LoginError}
  {
    var tracked := if EventFor(user).Some? then [TrackCall(user)] else [];
    if EventFor(user).Some? && svc.track.Throws? then Raised(tracked)
    else if !Invited(user) then Done(Me, tracked)
    else
      var called := tracked + [InviteCall(user)];
      match svc.rpc
      case Throws => Raised(called)
      case Returns(RpcError) => Done(LoginError, called)
      case Returns(RpcOk) => Done(CompleteProfile, called)
  }

  /** A resolution call (`call`) with the given outcome, then `Decide`. */
  function Resolve(call: Effect, outcome: Outcome<Resolution>, svc: Services): Step {
    match outcome
    case Throws => Raised([call])
    case Returns(Rejected) => Done(LoginError, [call])
    case Returns(Resolved(user)) =>
      var rest := Decide(user, svc);
      if rest.Done? then Done(rest.path, [call] + rest.effects) else Raised([call] + rest.effects)
  }

  function Attempt(c: Credential, svc: Services): Step {
    match c
    case NoCredential => Done(LoginError, [])
    case ByCode(code) => Resolve(ExchangeCode(code), svc.exchange, svc)
    case ByToken(tokenHash, kind) => Resolve(VerifyOtp(tokenHash, kind), svc.verify, svc)
  }

  /**
   * The route's answer: one redirect whose path is one of the three fixed
   * targets, on the request's own origin. A thrown error keeps every query
   * parameter; otherwise the branch's credential parameters are removed.
   */
  function Callback(request: Url, svc: Services): (resp: Response)
    ensures resp.location.origin == request.origin
    ensures resp.location.pathname in {LoginError, CompleteProfile, Me}
  {
    var c := CredentialOf(request.params);
    match Attempt(c, svc)
    case Done(path, effects) => Response(Url(request.origin, path, Cleared(c, request.params)), effects)
    case Raised(effects) => Response(request.(pathname := LoginError), effects)
  }

  // ---------------------------------------------------------------------
  // The route, step by step
  // ---------------------------------------------------------------------

  /** The `catch` block: a fresh clone of the request URL, sent to the error page. */
  method Recover(request: Url, effects: seq<Effect>) returns (resp: Response)
    ensures resp.location == request.(pathname := LoginError) && resp.effects == effects
  {
    var redirectTo := new RedirectUrl.Clone(request);
    redirectTo.SetPathname(LoginError);
    resp := Response(redirectTo.Snapshot(), effects);
  }

  /** `GET`: both branches as the route writes them, each agreeing with `Callback`. */
  method Get(request: Url, svc: Services) returns (resp: Response)
    ensures resp == Callback(request, svc)
  {
    var next := Lookup(request.params, "next").GetOr(Me);
    var code := Lookup(request.params, "code");
    if Truthy(code) {
      resp := CodeBranch(request, svc, code.value, next);
    } else {
      resp := TokenBranch(request, svc, next);
    }
  }

  /** The `if (code)` branch: exchange the code, then decide. */
  method CodeBranch(request: Url, svc: Services, code: string, next: string) returns (resp: Response)
    requires Lookup(request.params, "code") == Some(code) && code != ""
    ensures resp == Callback(request, svc)
  {
    assert CredentialOf(request.params) == ByCode(code);
    var effects: seq<Effect> := [];
    var redirectTo := new RedirectUrl.Clone(request);
    redirectTo.SetPathname(next);
    redirectTo.Delete("code");

    effects := [ExchangeCode(code)];
    if svc.exchange.Throws? {
      resp := Recover(request, effects);
      return;
    }
    if svc.exchange.value.Rejected? {
      redirectTo.SetPathname(LoginError);
      resp := Response(redirectTo.Snapshot(), effects);
      return;
    }

    var user := svc.exchange.value.user;
    var event: Option<string> := None;
    if !SignedInBefore(user) { event := Some(UserSignup); }
    if Invited(user) { event := Some(InvitedUserSignup); }

    if event.Some? {
      effects := effects + [Track(event.value, EmailOf(user), Meta(user, "firstName"), Meta(user, "lastName"))];
      if svc.track.Throws? {
        resp := Recover(request, effects);
        return;
      }
    }
    if Invited(user) {
      effects := effects + [InviteRpc(EmailOf(user).GetOr(""), IdOf(user).GetOr(""))];
      if svc.rpc.Throws? {
        resp := Recover(request, effects);
        return;
      }
      if svc.rpc.value.RpcError? {
        redirectTo.SetPathname(LoginError);
        resp := Response(redirectTo.Snapshot(), effects);
        return;
      }
      redirectTo.SetPathname(CompleteProfile);
      resp := Response(redirectTo.Snapshot(), effects);
      return;
    }
    redirectTo.SetPathname(Me);
    resp := Response(redirectTo.Snapshot(), effects);
  }

  /** The `else` branch: verify the one-time token when both parts are present. */
  method TokenBranch(request: Url, svc: Services, next: string) returns (resp: Response)
    requires !Truthy(Lookup(request.params, "code"))
    ensures resp == Callback(request, svc)
  {
    var effects: seq<Effect> := [];
    var tokenHash := Lookup(request.params, "token_hash");
    var kind := Lookup(request.params, "type");

    var redirectTo := new RedirectUrl.Clone(request);
    redirectTo.SetPathname(next);
    redirectTo.Delete("token_hash");
    redirectTo.Delete("type");

    if Truthy(tokenHash) && Truthy(kind) {
      assert CredentialOf(request.params) == ByToken(tokenHash.value, kind.value);
      effects := [VerifyOtp(tokenHash.value, kind.value)];
      if svc.verify.Throws? {
        resp := Recover(request, effects);
        return;
      }
      if svc.verify.value.Resolved? {
        var user := svc.verify.value.user;
        var event: Option<string> := None;
        if !SignedInBefore(user) { event := Some(UserSignup); }
        if Invited(user) { event := Some(InvitedUserSignup); }

        if event.Some? {
          effects := effects + [Track(event.value, EmailOf(user), Meta(user, "firstName"), Meta(user, "lastName"))];
          if svc.track.Throws? {
            resp := Recover(request, effects);
            return;
          }
        }
        if Invited(user) {
          effects := effects + [InviteRpc(EmailOf(user).GetOr(""), IdOf(user).GetOr(""))];
          if svc.rpc.Throws? {
            resp := Recover(request, effects);
            return;
          }
          if svc.rpc.value.RpcError? {
            redirectTo.SetPathname(LoginError);
            resp := Response(redirectTo.Snapshot(), effects);
            return;
          }
          redirectTo.SetPathname(CompleteProfile);
          resp := Response(redirectTo.Snapshot(), effects);
          return;
        }
        redirectTo.SetPathname(Me);
        resp := Response(redirectTo.Snapshot(), effects);
        return;
      } else {
        redirectTo.SetPathname(LoginError);
        resp := Response(redirectTo.Snapshot(), effects);
        return;
      }
    }

    assert CredentialOf(request.params) == NoCredential;
    redirectTo.SetPathname(LoginError);
    resp := Response(redirectTo.Snapshot(), effects);
  }

  // ---------------------------------------------------------------------
  // Properties of the decision
  // ---------------------------------------------------------------------

  /** The `next` parameter never influences the redirect path or the calls made. */
  lemma NextIsIgnored(request: Url, svc: Services)
    ensures Callback(request.(params := Without(request.params, "next")), svc).location.pathname
         == Callback(request, svc).location.pathname
    ensures Callback(request.(params := Without(request.params, "next")), svc).effects
         == Callback(request, svc).effects
  {
    LookupWithout(request.params, "next", "code");
    LookupWithout(request.params, "next", "token_hash");
    LookupWithout(request.params, "next", "type");
    assert CredentialOf(Without(request.params, "next")) == CredentialOf(request.params);
  }

  /** A code whose exchange returns an error: error page, no tracking, no RPC. */
  lemma CodeRejected(request: Url, svc: Services)
    requires Truthy(Lookup(request.params, "code"))
    requires svc.exchange == Returns(Rejected)
    ensures Callback(request, svc).location.pathname == LoginError
    ensures Callback(request, svc).effects == [ExchangeCode(Lookup(request.params, "code").value)]
  {
  }

  /** Without a code and without both token parameters, no provider call is made. */
  lemma CredentialMissing(request: Url, svc: Services)
    requires !Truthy(Lookup(request.params, "code"))
    requires !Truthy(Lookup(request.params, "token_hash")) || !Truthy(Lookup(request.params, "type"))
    ensures Callback(request, svc).location.pathname == LoginError
    ensures Callback(request, svc).effects == []
  {
  }

  /** A token whose verification returns an error: error page after that one call. */
  lemma TokenRejected(request: Url, svc: Services)
    requires !Truthy(Lookup(request.params, "code"))
    requires Truthy(Lookup(request.params, "token_hash")) && Truthy(Lookup(request.params, "type"))
    requires svc.verify == Returns(Rejected)
    ensures Callback(request, svc).location.pathname == LoginError
    ensures Callback(request, svc).effects
         == [VerifyOtp(Lookup(request.params, "token_hash").value, Lookup(request.params, "type").value)]
  {
  }

  /**
   * One analytics call, first, exactly when an event label applies; for an
   * invited user whose calls all return, the trace is that call and the RPC.
   */
  lemma TrackedIffEvent(user: Option<User>, svc: Services)
    ensures EventFor(user).Some? <==> exists e :: e in Decide(user, svc).effects && e.Track?
    ensures EventFor(user).Some? ==> Decide(user, svc).effects[0] == TrackCall(user)
    ensures forall i :: 1 <= i < |Decide(user, svc).effects| ==> !Decide(user, svc).effects[i].Track?
    ensures Invited(user) && svc.track.Returns? && svc.rpc.Returns? ==>
              Decide(user, svc).effects == [TrackCall(user), InviteCall(user)]
  {
    if EventFor(user).Some? {
      assert Decide(user, svc).effects[0] in Decide(user, svc).effects;
    }
  }

  /**
   * The invitation RPC is called only for an invited user, with `email ?? ''`
   * and `id ?? ''`, and only when the tracker did not throw before it.
   */
  lemma InviteRpcOnlyForInvited(user: Option<User>, svc: Services)
    ensures (exists e :: e in Decide(user, svc).effects && e.InviteRpc?)
        <==> Invited(user) && !svc.track.Throws?
    ensures forall e :: e in Decide(user, svc).effects && e.InviteRpc? ==>
              e == InviteRpc(EmailOf(user).GetOr(""), IdOf(user).GetOr(""))
  {
    var effects := Decide(user, svc).effects;
    if Invited(user) && !svc.track.Throws? {
      assert effects[|effects| - 1] == InviteCall(user);
      assert effects[|effects| - 1] in effects;
    }
  }

  /** Where a successful resolution leads. */
  lemma ResolvedPaths(user: Option<User>, svc: Services)
    ensures !Invited(user) && (SignedInBefore(user) || !svc.track.Throws?) ==> Decide(user, svc) == Done(Me, if SignedInBefore(user) then [] else [TrackCall(user)])
    ensures Invited(user) && !svc.track.Throws? && svc.rpc == Returns(RpcOk)
            ==> Decide(user, svc).Done? && Decide(user, svc).path == CompleteProfile
    ensures Invited(user) && !svc.track.Throws? && svc.rpc == Returns(RpcError)
            ==> Decide(user, svc).Done? && Decide(user, svc).path == LoginError
  {
  }

  /** A tracker that throws sends the user to the error page before any RPC. */
  lemma TrackThrowAborts(request: Url, svc: Services, user: Option<User>)
    requires CredentialOf(request.params).ByCode? ==> svc.exchange == Returns(Resolved(user))
    requires CredentialOf(request.params).ByToken? ==> svc.verify == Returns(Resolved(user))
    requires !CredentialOf(request.params).NoCredential?
    requires EventFor(user).Some? && svc.track == Throws
    ensures Callback(request, svc).location == request.(pathname := LoginError)
    ensures |Callback(request, svc).effects| == 2 && Callback(request, svc).effects[1] == TrackCall(user)
  {
  }

  /**
   * The code branch and the token branch decide alike: given the same user
   * and the same tracker and RPC outcomes, they make the same calls after
   * resolving and redirect to the same path.
   */
  lemma BranchesAgree(codeRequest: Url, tokenRequest: Url, svc: Services, user: Option<User>)
    requires CredentialOf(codeRequest.params).ByCode?
    requires CredentialOf(tokenRequest.params).ByToken?
    requires svc.exchange == svc.verify == Returns(Resolved(user))
    ensures Callback(codeRequest, svc).location.pathname == Callback(tokenRequest, svc).location.pathname
    ensures Callback(codeRequest, svc).effects[1..] == Callback(tokenRequest, svc).effects[1..]
  {
  }

  /**
   * Which query parameters the redirect loses: only `code` in the code
   * branch, `token_hash` and `type` otherwise, and none when an error was thrown.
   */
  lemma ParamsCleared(request: Url, svc: Services)
    ensures var c := CredentialOf(request.params);
            Attempt(c, svc).Raised? ==> Callback(request, svc).location == request.(pathname := LoginError)
    ensures var c := CredentialOf(request.params);
            var resp := Callback(request, svc);
            if Attempt(c, svc).Raised? then resp.location.params == request.params
            else if c.ByCode? then resp.location.params == Without(request.params, "code")
            else resp.location.params == Without(Without(request.params, "token_hash"), "type")
  {
  }

  /** A throwing `exchangeCodeForSession` or `verifyOtp` sends the user to the error page after that one call. */
  lemma ResolutionThrowFails(request: Url, svc: Services)
    requires var c := CredentialOf(request.params);
             (c.ByCode? && svc.exchange == Throws) || (c.ByToken? && svc.verify == Throws)
    ensures Callback(request, svc).location == request.(pathname := LoginError)
    ensures |Callback(request, svc).effects| == 1
  {
  }

  /**
   * A throwing invitation RPC sends the invited user to the error page, with
   * every query parameter kept, after the resolution, the tracking call and the RPC.
   */
  lemma RpcThrowFails(request: Url, svc: Services, user: Option<User>)
    requires CredentialOf(request.params).ByCode? ==> svc.exchange == Returns(Resolved(user))
    requires CredentialOf(request.params).ByToken? ==> svc.verify == Returns(Resolved(user))
    requires !CredentialOf(request.params).NoCredential?
    requires Invited(user) && svc.track.Returns? && svc.rpc == Throws
    ensures Callback(request, svc).location == request.(pathname := LoginError)
    ensures Callback(request, svc).effects[1..] == [TrackCall(user), InviteCall(user)]
  {
  }
}
