/** Where the code does something its names and messages do not suggest, stated exactly. */
module Departures {
  import opened Wrappers
  import opened Credentials
  import opened CodeStore
  import opened Users
  import opened Protocol
  import opened Safety
  import opened Guarantees
  import opened Authority
  import opened EndToEnd
  import opened Registry
  import opened Guard

  // ---- Facebook accounts and the second factor ----

  // The call asks, with an admitted session of the account, for its enable code to be resent.
  predicate ResendsFor(s: State, r: Request, id: Id) {
    r.ResendEnableCode? && Admits(s, r.token, false) && r.token.sub == id
  }

  // Two-factor is refused to Facebook accounts where it is requested, but not where a code is
  // resent: that is how, and the only way how, an enable code appears for one.
  lemma FacebookEnableCode(s: State, r: Request, id: Id)
    requires (id in s.rows ==> s.rows[id].provider == Facebook) && GetKey(TwoFactorEnable, id) !in s.codes
    ensures GetKey(TwoFactorEnable, id) in Handle(s, r).0.codes <==> ResendsFor(s, r, id)
  {
    hide ClaimsValid, AccessToken, RefreshToken, ResetTokenFor, Signed, GetKey;
    if Saves(s, r).Some? {
      KeyInjective(TwoFactorEnable, id, Saves(s, r).value.0, Saves(s, r).value.1);
    }
  }

  lemma FacebookTurnsOn(s: State, t: Token, code: string)
    requires Inv(s) && s.now > 0 && Admits(s, t, false) && s.rows[t.sub].provider == Facebook
    ensures var (s', r) := Handle(Handle(s, ResendEnableCode(t, code)).0, ConfirmTwoFactor(t, code));
            r.Tokens? && t.sub in s'.rows && s'.rows[t.sub].twoFactorEnabled
  {
    hide Inv, Grows;
    var s1 := Handle(s, ResendEnableCode(t, code)).0;
    HandleStep(s, ResendEnableCode(t, code));
    ConfirmTurnsOn(s1, t, code, s.now + 300);
  }

  ghost predicate NeverResends(s: State, requests: seq<Request>, id: Id)
    decreases |requests|
  {
    requests == [] || (!ResendsFor(s, requests[0], id) && NeverResends(Handle(s, requests[0]).0, requests[1..], id))
  }

  // The account is a password account, or it has neither the flag nor an enable code.
  predicate LocalOrOff(s: State, id: Id) {
    (id in s.rows && s.rows[id].provider == Local) ||
    (GetKey(TwoFactorEnable, id) !in s.codes && (id in s.rows ==> !s.rows[id].twoFactorEnabled))
  }

  lemma LocalOrOffStep(s: State, r: Request, id: Id)
    requires Inv(s) && LocalOrOff(s, id) && !ResendsFor(s, r, id)
    ensures Inv(Handle(s, r).0) && LocalOrOff(Handle(s, r).0, id)
  {
    hide Inv, Handle, Grows, GetKey, ResendsFor, Admits;
    var s' := Handle(s, r).0;
    HandleStep(s, r);
    if id in s.rows {
      EveryChangeAuthorised(s, r, id);
    } else {
      NewAccountOff(s, r, id);
    }
    if !(id in s.rows && s.rows[id].provider == Local) {
      FacebookEnableCode(s, r, id);
    }
  }

  lemma NewAccountOff(s: State, r: Request, id: Id)
    requires Inv(s) && id !in s.rows
    ensures id in Handle(s, r).0.rows ==> !Handle(s, r).0.rows[id].twoFactorEnabled
  {
    hide GetKey, ClaimsValid, Matches, AccessToken, RefreshToken, Inv;
  }

  lemma {:induction false} LocalOrOffRun(s: State, requests: seq<Request>, id: Id)
    requires Inv(s) && LocalOrOff(s, id) && NeverResends(s, requests, id)
    ensures LocalOrOff(Run(s, requests), id)
    decreases |requests|
  {
    hide Inv, Handle, LocalOrOff, ResendsFor;
    if requests != [] {
      LocalOrOffStep(s, requests[0], id);
      LocalOrOffRun(Handle(s, requests[0]).0, requests[1..], id);
    }
  }

  // Over all runs: a Facebook account has two-factor on only if an admitted session of its own
  // had an enable code resent.
  lemma FacebookOnlyByResend(now: nat, requests: seq<Request>, id: Id)
    ensures var s := Run(Init(now), requests);
            id in s.rows && s.rows[id].provider == Facebook && s.rows[id].twoFactorEnabled ==>
                !NeverResends(Init(now), requests, id)
  {
    if NeverResends(Init(now), requests, id) {
      LocalOrOffRun(Init(now), requests, id);
    }
  }

  // ---- The answer to a reset request tells whether the address is known ----

  lemma ResetAnswer(s: State, email: string, code: string)
    requires Inv(s)
    ensures Handle(s, InitiateReset(email, code)).1 == (if LocalEmail(s, email) then Done(true) else Rejected)
  {
    if id :| id in s.rows && s.rows[id].email == email && s.rows[id].provider == Local {
      UniqueOwner(s, id);
    }
    hide Inv;
  }

  // ---- Access and refresh tokens ----

  // At the guard a refresh token is an access token that lasts longer, redeemed or not: both
  // are admitted exactly until they expire, wherever their second factor is settled.
  lemma BearerUntilExpiry(s: State, r: Request, mid: seq<Request>, twoFactorRoute: bool)
    requires Inv(s) && s.now > 0 && Handle(s, r).1.Tokens?
    ensures var (s1, Tokens(access, refresh)) := Handle(s, r);
            var s2 := Run(s1, mid);
            && (Admits(s2, access, twoFactorRoute) <==> s2.now < s.now + 86400 && (twoFactorRoute || !Pending(access)))
            && (Admits(s2, refresh, twoFactorRoute) <==>
                 s2.now < s.now + 604800 && (twoFactorRoute || !Pending(access)))
  {
    hide Handle, Inv, Run, Grows, Copies;
    var (s1, Tokens(access, refresh)) := Handle(s, r);
    GrantedTokens(s, r);
    HandleStep(s, r);
    TimePasses(s, s1);
    RunStep(s1, mid);
    CurrentIssued(s1, refresh);
    StepKept(s1, Run(s1, mid), access);
    StepKept(s1, Run(s1, mid), refresh);
  }

  // So, while the access token lives, no route tells the two apart.
  lemma GuardCannotTell(s: State, r: Request, mid: seq<Request>, marks: Marks, route: Option<RoutePermission>)
    requires Inv(s) && s.now > 0 && Handle(s, r).1.Tokens? && Run(Handle(s, r).0, mid).now < s.now + 86400
    ensures var (s1, Tokens(access, refresh)) := Handle(s, r);
            Decide(Run(s1, mid), marks, route, Some(access)) == Decide(Run(s1, mid), marks, route, Some(refresh))
  {
    hide Handle, Inv, Run, Admits, Authorize, Effective;
    BearerUntilExpiry(s, r, mid, Effective(marks, route).isTwoFactorVerify);
    GrantedTokens(s, r);
  }

  // Only the stored hash separates them: an access token is never redeemed for new tokens.
  lemma AccessNeverRefreshes(s: State, r: Request, mid: seq<Request>)
    requires Inv(s) && Handle(s, r).1.Tokens?
    ensures !Verifies(Run(Handle(s, r).0, mid), Handle(s, r).1.access, true)
  {
    hide Handle, Inv, Run, Grows, Copies;
    var (s1, Tokens(access, refresh)) := Handle(s, r);
    GrantedTokens(s, r);
    HandleStep(s, r);
    RunStep(s1, mid);
    CurrentIssued(s1, refresh);
    StepKept(s1, Run(s1, mid), access);
  }
}
