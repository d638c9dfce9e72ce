/**
 * The flows end to end: what a user who follows the messages gets, whatever anyone else does
 * in between, and what the codes on the way are good for.
 */
module EndToEnd {
  import opened Wrappers
  import opened Credentials
  import opened CodeStore
  import opened Users
  import opened Protocol
  import opened Safety
  import opened Guarantees
  import opened Authority
  import opened Registry
  import opened Guard

  // ---- A stored code survives every call that neither replaces nor presents it ----

  // The (kind, id) whose code the call replaces, when it goes through and replaces one.
  ghost function Saves(s: State, r: Request): Option<(Kind, string)> {
    match r
    case SignUp(email, _, _, newId, _) => if Creatable(s, newId, email) then Some((Email, email)) else None
    case Login(email, password, _) =>
      var found := ByEmail(s.rows, email);
      if found.Some? && s.rows[found.value].password == password && s.rows[found.value].twoFactorEnabled
      then Some((TwoFactor, found.value)) else None
    case ResendVerification(Session(_, _, email, _, _, _, _, _, _, _), _) => Some((Email, email))
    case EnableTwoFactor(Session(_, sub, _, _, _, _, _, _, _, _), _) => Some((TwoFactorEnable, sub))
    case ResendEnableCode(Session(_, sub, _, _, _, _, _, _, _, _), _) => Some((TwoFactorEnable, sub))
    case ResendTwoFactorCode(Session(_, sub, _, _, _, _, _, _, _, _), _) => Some((TwoFactor, sub))
    case InitiateReset(email, _) => Some((Password, email))
    case _ => None
  }

  // A call that changes nothing disturbs nothing: a forged or refused session, a wrong code or an
  // unknown address leaves the code where it is.
  ghost predicate Disturbs(s: State, r: Request, kind: Kind, id: string, code: string) {
    Handle(s, r).0 != s && Names(s, r, kind, id, code)
  }

  ghost predicate Names(s: State, r: Request, kind: Kind, id: string, code: string) {
    Saves(s, r) == Some((kind, id)) || Presents(r) == Some((kind, id, code))
  }

  ghost predicate Undisturbed(s: State, requests: seq<Request>, kind: Kind, id: string, code: string)
    decreases |requests|
  {
    requests == [] ||
    (!Disturbs(s, requests[0], kind, id, code) &&
     Undisturbed(Handle(s, requests[0]).0, requests[1..], kind, id, code))
  }

  // The code of (kind, id) is stored, to expire at the given time.
  predicate Holds(s: State, kind: Kind, id: string, code: string, expiresAt: nat) {
    GetKey(kind, id) in s.codes && s.codes[GetKey(kind, id)] == Entry(code, expiresAt)
  }

  // A call that goes through stores the code it sends and spends the code it is given.
  lemma CodesMove(s: State, r: Request)
    requires !Handle(s, r).1.Rejected?
    ensures Saves(s, r).Some? ==>
              Holds(Handle(s, r).0, Saves(s, r).value.0, Saves(s, r).value.1, r.code, s.now + 300)
    ensures Presents(r).Some? ==>
              var (kind, id, code) := Presents(r).value;
              CodeMatches(s, kind, id, code) && GetKey(kind, id) !in Handle(s, r).0.codes
  {
    hide GetKey, ClaimsValid, Matches, AccessToken, RefreshToken, ResetTokenFor;
  }

  lemma SaveElsewhere(s: State, k: Kind, i: string, c: string, kind: Kind, id: string, code: string, expiresAt: nat)
    requires Holds(s, kind, id, code, expiresAt) && (k, i) != (kind, id)
    ensures Holds(SaveCode(s, k, i, c), kind, id, code, expiresAt)
  {
    KeyInjective(kind, id, k, i);
    hide GetKey;
  }

  // Consuming the code of another pair, or failing to with a wrong guess, leaves it.
  lemma ConsumeElsewhere(s: State, k: Kind, i: string, c: string, kind: Kind, id: string, code: string, expiresAt: nat)
    requires Holds(s, kind, id, code, expiresAt) && (k, i, c) != (kind, id, code)
    ensures CodeMatches(s, k, i, c) ==> Holds(ConsumeCode(s, k, i), kind, id, code, expiresAt)
  {
    KeyInjective(kind, id, k, i);
    hide GetKey;
  }

  // Nothing smaller would do: a call that disturbs a stored code has removed it, or stored a new
  // one in its place that expires 300 s from now.
  lemma DisturbedIsLost(s: State, r: Request, kind: Kind, id: string, code: string)
    requires Inv(s) && Disturbs(s, r, kind, id, code)
    ensures var s' := Handle(s, r).0;
            GetKey(kind, id) !in s'.codes ||
                (Saves(s, r) == Some((kind, id)) && Holds(s', kind, id, r.code, s.now + 300))
  {
    hide Inv, GetKey;
    RejectedChangesNothing(s, r);
    CodesMove(s, r);
  }

  lemma RejectedChangesNothing(s: State, r: Request)
    requires Inv(s)
    ensures Handle(s, r).1.Rejected? ==> Handle(s, r).0 == s
  {
    hide GetKey, ClaimsValid, Matches, Mint, AccessToken, RefreshToken, ResetTokenFor, Inv;
    if r.VerifyEmail? && Admits(s, r.token, false) {
      AddressIsOwn(s, r.token);
    }
  }

  lemma UndisturbedStep(s: State, r: Request, kind: Kind, id: string, code: string, expiresAt: nat)
    requires Holds(s, kind, id, code, expiresAt) && !Disturbs(s, r, kind, id, code)
    ensures Holds(Handle(s, r).0, kind, id, code, expiresAt)
  {
    hide Handle, Saves, Holds;
    if Handle(s, r).0 != s {
      UnnamedStep(s, r, kind, id, code, expiresAt);
    }
  }

  lemma UnnamedStep(s: State, r: Request, kind: Kind, id: string, code: string, expiresAt: nat)
    requires Holds(s, kind, id, code, expiresAt) && !Names(s, r, kind, id, code)
    ensures Holds(Handle(s, r).0, kind, id, code, expiresAt)
  {
    hide GetKey, AccessToken, RefreshToken, ClaimsValid, ResetTokenFor, NewRow, Matches;
    match r
    case SignUp(email, _, _, _, c) =>
      if Saves(s, r).Some? {
        SaveElsewhere(s, Email, email, c, kind, id, code, expiresAt);
      }
    case Login(email, _, c) =>
      if Saves(s, r).Some? {
        SaveElsewhere(s, TwoFactor, ByEmail(s.rows, email).value, c, kind, id, code, expiresAt);
      }
    case VerifyEmail(t, c) =>
      if t.Session? {
        ConsumeElsewhere(s, Email, t.email, c, kind, id, code, expiresAt);
      }
    case ResendVerification(_, _) =>
      SendStep(s, r, kind, id, code, expiresAt);
    case EnableTwoFactor(_, _) =>
      SendStep(s, r, kind, id, code, expiresAt);
    case ResendEnableCode(_, _) =>
      SendStep(s, r, kind, id, code, expiresAt);
    case ConfirmTwoFactor(t, c) =>
      if t.Session? {
        ConsumeElsewhere(s, TwoFactorEnable, t.sub, c, kind, id, code, expiresAt);
      }
    case VerifyTwoFactor(t, c) =>
      if t.Session? {
        ConsumeElsewhere(s, TwoFactor, t.sub, c, kind, id, code, expiresAt);
      }
    case ResendTwoFactorCode(_, _) =>
      SendStep(s, r, kind, id, code, expiresAt);
    case InitiateReset(email, c) =>
      SaveElsewhere(s, Password, email, c, kind, id, code, expiresAt);
    case VerifyResetCode(email, c) =>
      ConsumeElsewhere(s, Password, email, c, kind, id, code, expiresAt);
    case _ =>
  }

  lemma SendStep(s: State, r: Request, kind: Kind, id: string, code: string, expiresAt: nat)
    requires r.ResendVerification? || r.EnableTwoFactor? || r.ResendEnableCode? || r.ResendTwoFactorCode?
    requires Holds(s, kind, id, code, expiresAt) && !Names(s, r, kind, id, code)
    ensures Holds(Handle(s, r).0, kind, id, code, expiresAt)
  {
    hide GetKey, ClaimsValid, Signed;
    if r.token.Session? {
      var (k, i) := Saves(s, r).value;
      SaveElsewhere(s, k, i, r.code, kind, id, code, expiresAt);
    }
  }

  lemma {:induction false} UndisturbedRun(s: State, requests: seq<Request>, kind: Kind, id: string, code: string,
      expiresAt: nat)
    requires Holds(s, kind, id, code, expiresAt) && Undisturbed(s, requests, kind, id, code)
    ensures Holds(Run(s, requests), kind, id, code, expiresAt)
    decreases |requests|
  {
    hide Handle, Holds;
    if requests != [] {
      UndisturbedStep(s, requests[0], kind, id, code, expiresAt);
      UndisturbedRun(Handle(s, requests[0]).0, requests[1..], kind, id, code, expiresAt);
    }
  }

  lemma HeldMatches(s: State, kind: Kind, id: string, code: string, expiresAt: nat)
    requires Holds(s, kind, id, code, expiresAt) && s.now < expiresAt
    ensures CodeMatches(s, kind, id, code)
  {
    hide GetKey;
  }

  // ---- Logging in with two factors ----

  // A session that owes its second factor.
  predicate Pending(t: Token) {
    t.Session? && t.twoFactorEnabled && !t.twoFactorVerified
  }

  lemma RowNamed(s: State, id: Id)
    requires Inv(s) && id in s.rows
    ensures id != "" && s.rows[id].email != ""
  {
  }

  lemma LoginSendsCode(s: State, id: Id, email: string, password: string, code: string)
    requires Inv(s) && ByEmail(s.rows, email) == Some(id) && s.rows[id].password == password &&
             s.rows[id].twoFactorEnabled
    ensures var (s1, login) := Handle(s, Login(email, password, code));
            && Step(s, s1) && Holds(s1, TwoFactor, id, code, s.now + 300) && s1.now == s.now && login.Tokens?
            && Pending(login.access) && Pending(login.refresh)
            && login.access in s1.issued && login.access.sub == id && id in s1.rows && id != ""
            && login.access.email == email != "" && login.access.iat == s.now && login.access.exp == s.now + 86400
  {
    hide Inv, Grows, GetKey;
    HandleStep(s, Login(email, password, code));
    RowNamed(s, id);
  }

  // Submitting the stored code with a session in its first day gives an admitted session.
  lemma SubmissionAdmits(s: State, t: Token, code: string, expiresAt: nat)
    requires Inv(s) && t in s.issued && t.Session? && t.sub in s.rows &&
             Holds(s, TwoFactor, t.sub, code, expiresAt) && s.now < expiresAt
    requires t.sub != "" && t.email != "" && 0 < t.iat <= s.now < t.exp && s.now - t.iat <= MAX_TOKEN_AGE
    ensures var (s', r) := Handle(s, VerifyTwoFactor(t, code));
            r.Tokens? && Admits(s', r.access, false)
  {
    hide Inv, Holds, Matches;
    RowNamed(s, t.sub);
    assert Admits(s, t, true);
    HeldMatches(s, TwoFactor, t.sub, code, expiresAt);
  }

  lemma PendingRefused(s: State, marks: Marks, route: Option<RoutePermission>, t: Token)
    requires Pending(t) && !Exempt(Effective(marks, route)) && !Effective(marks, route).isTwoFactorVerify
    ensures Decide(s, marks, route, Some(t)) == InvalidToken
  {
  }

  // A user with 2FA on logs in with the right password and, within 300 s, submits the code
  // sent, whatever anyone did in between short of replacing or spending that code. The
  // submission yields an access token the guard admits on every route that requires no
  // permission; the login tokens are refused, in every state, on every guarded route that is
  // not part of the two-factor exchange.
  lemma TwoFactorLogin(s: State, id: Id, email: string, password: string, code: string, mid: seq<Request>,
                       marks: Marks, route: Option<RoutePermission>)
    requires Inv(s) && s.now > 0
    requires ByEmail(s.rows, email) == Some(id) && s.rows[id].password == password && s.rows[id].twoFactorEnabled
    requires Undisturbed(Handle(s, Login(email, password, code)).0, mid, TwoFactor, id, code)
    requires Run(Handle(s, Login(email, password, code)).0, mid).now < s.now + 300
    ensures var (s1, login) := Handle(s, Login(email, password, code));
            && login.Tokens?
            && (var (s3, verified) := Handle(Run(s1, mid), VerifyTwoFactor(login.access, code));
                verified.Tokens? && (Required(route) == [] ==>
                    Decide(s3, marks, route, Some(verified.access)) == Allow))
            && (!Exempt(Effective(marks, route)) && !Effective(marks, route).isTwoFactorVerify ==>
                  forall s' :: Decide(s', marks, route, Some(login.access)) == InvalidToken ==
                               Decide(s', marks, route, Some(login.refresh)))
  {
    hide Handle, Inv, Holds;
    var (s1, login) := Handle(s, Login(email, password, code));
    LoginSendsCode(s, id, email, password, code);
    RunStep(s1, mid);
    UndisturbedRun(s1, mid, TwoFactor, id, code, s.now + 300);
    SubmissionAdmits(Run(s1, mid), login.access, code, s.now + 300);
    if !Exempt(Effective(marks, route)) && !Effective(marks, route).isTwoFactorVerify {
      forall s' ensures Decide(s', marks, route, Some(login.access)) == InvalidToken ==
                        Decide(s', marks, route, Some(login.refresh)) {
        PendingRefused(s', marks, route, login.access);
        PendingRefused(s', marks, route, login.refresh);
      }
    }
    hide Admits, Exempt;
  }

  // ---- Resetting a password ----

  // A reset code sent for a password account buys, within 300 s, a reset token, and that token
  // sets, within 900 s, the account's password: the new one logs in, any other is refused, and
  // nothing else about any account has changed.
  lemma PasswordReset(s: State, id: Id, email: string, code: string, mid: seq<Request>, mid': seq<Request>,
                      password: string, other: string, loginCode: string)
    requires Inv(s) && ByEmail(s.rows, email) == Some(id) && s.rows[id].provider == Local && other != password
    requires Undisturbed(Handle(s, InitiateReset(email, code)).0, mid, Password, email, code)
    requires var s2 := Run(Handle(s, InitiateReset(email, code)).0, mid);
             s2.now < s.now + 300 && Run(Handle(s2, VerifyResetCode(email, code)).0, mid').now < s2.now + 900
    ensures var (s1, sent) := Handle(s, InitiateReset(email, code));
            var s2 := Run(s1, mid);
            var (s3, granted) := Handle(s2, VerifyResetCode(email, code));
            && sent == Done(true) && granted.ResetGranted?
            && (var s4 := Run(s3, mid');
                var (s5, done) := Handle(s4, CompleteReset(granted.resetToken, password, password));
                && done == Done(true) && id in s4.rows && s5 == SetRow(s4, id, s4.rows[id].(password := password))
                && Handle(s5, Login(email, password, loginCode)).1.Tokens?
                && Handle(s5, Login(email, other, loginCode)) == (s5, Rejected))
  {
    hide Inv, Run, Undisturbed, Holds, Matches, Step, Handle;
    InitiateResetSends(s, id, email, code);
    var s1 := Handle(s, InitiateReset(email, code)).0;
    var s2 := Run(s1, mid);
    HandleStep(s, InitiateReset(email, code));
    StepInv(s, s1);
    UndisturbedRun(s1, mid, Password, email, code, s.now + 300);
    RunStep(s1, mid);
    StepInv(s1, s2);
    ResetCodeGrants(s2, email, code, s.now + 300);
    var (s3, granted) := Handle(s2, VerifyResetCode(email, code));
    HandleStep(s2, VerifyResetCode(email, code));
    StepInv(s2, s3);
    var s4 := Run(s3, mid');
    RunStep(s3, mid');
    StepInv(s3, s4);
    OwnerStays(s, s1, id, email);
    OwnerStays(s1, s2, id, email);
    OwnerStays(s2, s3, id, email);
    OwnerStays(s3, s4, id, email);
    ResetTokenSets(s4, id, email, granted.resetToken, password, other, loginCode);
  }

  lemma StepInv(s: State, s': State)
    requires Step(s, s')
    ensures Inv(s') && s.issued <= s'.issued
  {
    hide Inv;
  }

  // The account an address names never changes.
  lemma OwnerStays(s: State, s': State, id: Id, email: string)
    requires Inv(s) && Step(s, s') && ByEmail(s.rows, email) == Some(id)
    ensures ByEmail(s'.rows, email) == Some(id) && email != ""
  {
    assert RowGrows(s.rows[id], s'.rows[id]);
    hide ResetCodesLocal, TokenOk, RowOk;
  }

  lemma InitiateResetSends(s: State, id: Id, email: string, code: string)
    requires ByEmail(s.rows, email) == Some(id) && s.rows[id].provider == Local
    ensures var (s1, r) := Handle(s, InitiateReset(email, code));
            r == Done(true) && Holds(s1, Password, email, code, s.now + 300)
  {
    hide GetKey;
  }

  lemma ResetCodeGrants(s: State, email: string, code: string, expiresAt: nat)
    requires Holds(s, Password, email, code, expiresAt) && s.now < expiresAt
    ensures var (s', r) := Handle(s, VerifyResetCode(email, code));
            r == ResetGranted(Reset(s.nextJti, email, s.now, s.now + 900)) && r.resetToken in s'.issued
  {
    hide GetKey;
    HeldMatches(s, Password, email, code, expiresAt);
  }

  lemma ResetTokenSets(s: State, id: Id, email: string, t: Token, password: string, other: string, code: string)
    requires Inv(s) && ByEmail(s.rows, email) == Some(id) && email != "" && other != password
    requires t in s.issued && t.Reset? && t.email == email && s.now < t.exp
    ensures var (s', r) := Handle(s, CompleteReset(t, password, password));
            && r == Done(true) && s' == SetRow(s, id, s.rows[id].(password := password))
            && Handle(s', Login(email, password, code)).1.Tokens?
            && Handle(s', Login(email, other, code)) == (s', Rejected)
  {
    hide Inv, Grows, DoLogin;
    var s' := Handle(s, CompleteReset(t, password, password)).0;
    HandleStep(s, CompleteReset(t, password, password));
    OwnerStays(s, s', id, email);
    OnlyPasswordLogsIn(s', id, email, password, other, code);
  }

  lemma OnlyPasswordLogsIn(s: State, id: Id, email: string, password: string, other: string, code: string)
    requires ByEmail(s.rows, email) == Some(id) && s.rows[id].password == password != other
    ensures Handle(s, Login(email, password, code)).1.Tokens?
    ensures Handle(s, Login(email, other, code)) == (s, Rejected)
  {
    hide Mint, AccessToken, RefreshToken, GetKey;
  }

  // ---- Confirming an address ----

  // While the code sent is neither replaced nor presented, nothing else verifies the row.
  lemma UnverifiedStep(s: State, r: Request, id: Id, email: string, code: string, expiresAt: nat)
    requires Inv(s) && ByEmail(s.rows, email) == Some(id) && !s.rows[id].isEmailVerified
    requires Holds(s, Email, email, code, expiresAt) && !Disturbs(s, r, Email, email, code)
    ensures var s' := Handle(s, r).0;
            Inv(s') && ByEmail(s'.rows, email) == Some(id) && !s'.rows[id].isEmailVerified
  {
    hide Inv, GetKey, Handle, Verifies;
    var s' := Handle(s, r).0;
    HandleStep(s, r);
    StepInv(s, s');
    OwnerStays(s, s', id, email);
    EveryChangeAuthorised(s, r, id);
    if s'.rows[id].isEmailVerified {
      AdmittedAddress(s, Acting(r).value);
    }
  }

  lemma AdmittedAddress(s: State, t: Token)
    requires Inv(s) && Verifies(s, t, false)
    ensures t.Session? && t.sub in s.rows && t.email == s.rows[t.sub].email
  {
    AddressIsOwn(s, t);
  }

  lemma {:induction false} UnverifiedRun(s: State, requests: seq<Request>, id: Id, email: string, code: string,
      expiresAt: nat)
    requires Inv(s) && ByEmail(s.rows, email) == Some(id) && !s.rows[id].isEmailVerified
    requires Holds(s, Email, email, code, expiresAt) && Undisturbed(s, requests, Email, email, code)
    ensures var s' := Run(s, requests);
            ByEmail(s'.rows, email) == Some(id) && !s'.rows[id].isEmailVerified
    decreases |requests|
  {
    hide Handle, Holds, Inv, Disturbs;
    if requests != [] {
      UnverifiedStep(s, requests[0], id, email, code, expiresAt);
      UndisturbedStep(s, requests[0], Email, email, code, expiresAt);
      UnverifiedRun(Handle(s, requests[0]).0, requests[1..], id, email, code, expiresAt);
    }
  }

  // Signing up gives an unverified session and sends a code; submitted with that session within
  // 300 s, whatever anyone did in between short of replacing or presenting it, the code verifies
  // the account and gives a session that says so. It does so once.
  lemma EmailConfirmation(s: State, id: Id, email: string, password: string, code: string, mid: seq<Request>)
    requires Inv(s) && s.now > 0 && Creatable(s, id, email)
    requires Undisturbed(Handle(s, SignUp(email, password, password, id, code)).0, mid, Email, email, code)
    requires Run(Handle(s, SignUp(email, password, password, id, code)).0, mid).now < s.now + 300
    ensures var (s1, signed) := Handle(s, SignUp(email, password, password, id, code));
            && signed.Tokens? && signed.access.sub == id && !signed.access.isEmailVerified
            && (var (s3, verified) := Handle(Run(s1, mid), VerifyEmail(signed.access, code));
                && verified.Tokens? && verified.access.sub == id && verified.access.isEmailVerified
                && id in s3.rows && s3.rows[id].isEmailVerified
                && Handle(s3, VerifyEmail(signed.access, code)) == (s3, Rejected))
  {
    hide Inv, Holds, Handle;
    var (s1, signed) := Handle(s, SignUp(email, password, password, id, code));
    SignUpSends(s, id, email, password, code);
    RunStep(s1, mid);
    UndisturbedRun(s1, mid, Email, email, code, s.now + 300);
    UnverifiedRun(s1, mid, id, email, code, s.now + 300);
    CodeVerifies(Run(s1, mid), id, email, signed.access, code, s.now + 300);
  }

  lemma SignUpSends(s: State, id: Id, email: string, password: string, code: string)
    requires Inv(s) && Creatable(s, id, email)
    ensures var (s1, signed) := Handle(s, SignUp(email, password, password, id, code));
            && Inv(s1) && s1.now == s.now && Holds(s1, Email, email, code, s.now + 300)
            && ByEmail(s1.rows, email) == Some(id) && !s1.rows[id].isEmailVerified
            && signed.Tokens? && signed.access in s1.issued && SignUpToken(signed.access, id, email, s.now)
  {
    hide Inv, Grows, GetKey;
    HandleStep(s, SignUp(email, password, password, id, code));
    var s1 := Handle(s, SignUp(email, password, password, id, code)).0;
    assert s1.rows[id].email == email;
    UniqueOwner(s1, id);
  }

  predicate SignUpToken(t: Token, id: Id, email: string, at: nat) {
    t.Session? && t.sub == id != "" && t.email == email != "" && !t.isEmailVerified && !t.twoFactorEnabled &&
    t.iat == at && t.exp == at + 86400
  }

  lemma UniqueOwner(s: State, id: Id)
    requires Inv(s) && id in s.rows
    ensures ByEmail(s.rows, s.rows[id].email) == Some(id)
  {
    hide ResetCodesLocal, TokenOk, RowOk, Coherent;
  }

  lemma CodeVerifies(s: State, id: Id, email: string, t: Token, code: string, expiresAt: nat)
    requires ByEmail(s.rows, email) == Some(id) && !s.rows[id].isEmailVerified
    requires Holds(s, Email, email, code, expiresAt) && s.now < expiresAt
    requires t in s.issued && 300 < expiresAt <= s.now + 300 && SignUpToken(t, id, email, expiresAt - 300)
    ensures var (s3, verified) := Handle(s, VerifyEmail(t, code));
            && verified.Tokens? && verified.access.sub == id && verified.access.isEmailVerified
            && id in s3.rows && s3.rows[id].isEmailVerified
            && Handle(s3, VerifyEmail(t, code)) == (s3, Rejected)
  {
    hide GetKey;
    HeldMatches(s, Email, email, code, expiresAt);
    assert Admits(s, t, false);
  }

  // ---- Turning the second factor on and off ----

  // A password account turns two-factor on with the code sent to it, submitted by an admitted
  // session within 300 s. From then on its logins owe a second factor; the session it got is
  // admitted, and with the account's password turns two-factor off, after which a login alone
  // is admitted again.
  lemma TwoFactorOnAndOff(s: State, t: Token, code: string, mid: seq<Request>, loginCode: string)
    requires Inv(s) && s.now > 0 && Admits(s, t, false)
    requires s.rows[t.sub].provider == Local && !s.rows[t.sub].twoFactorEnabled
    requires var s1 := Handle(s, EnableTwoFactor(t, code)).0;
             Undisturbed(s1, mid, TwoFactorEnable, t.sub, code) && Run(s1, mid).now < s.now + 300 &&
                 Verifies(Run(s1, mid), t, false)
    ensures var (s1, sent) := Handle(s, EnableTwoFactor(t, code));
            var (s3, confirmed) := Handle(Run(s1, mid), ConfirmTwoFactor(t, code));
            && sent == Done(true) && confirmed.Tokens? && Admits(s3, confirmed.access, false) && t.sub in s3.rows
            && (var row := s3.rows[t.sub];
                var owing := Handle(s3, Login(row.email, row.password, loginCode)).1;
                var (s4, off) := Handle(s3, DisableTwoFactor(confirmed.access, row.password));
                var (s5, free) := Handle(s4, Login(row.email, row.password, loginCode));
                && owing.Tokens? && Pending(owing.access) && Pending(owing.refresh)
                && off.Tokens? && free.Tokens? && Admits(s5, free.access, false))
  {
    hide Inv, Holds, Handle, Signed, ClaimsValid;
    StillAdmitted(s, s, t);
    EnableSends(s, t, code);
    var s1 := Handle(s, EnableTwoFactor(t, code)).0;
    HandleStep(s, EnableTwoFactor(t, code));
    StepInv(s, s1);
    UndisturbedRun(s1, mid, TwoFactorEnable, t.sub, code, s.now + 300);
    var s2 := Run(s1, mid);
    RunStep(s1, mid);
    StepInv(s1, s2);
    StillAdmitted(s, s2, t);
    ConfirmTurnsOn(s2, t, code, s.now + 300);
    var (s3, confirmed) := Handle(s2, ConfirmTwoFactor(t, code));
    HandleStep(s2, ConfirmTwoFactor(t, code));
    StepInv(s2, s3);
    var row := s3.rows[t.sub];
    UniqueOwner(s3, t.sub);
    LoginSendsCode(s3, t.sub, row.email, row.password, loginCode);
    DisableTurnsOff(s3, confirmed.access);
    var s4 := Handle(s3, DisableTwoFactor(confirmed.access, row.password)).0;
    HandleStep(s3, DisableTwoFactor(confirmed.access, row.password));
    StepInv(s3, s4);
    UniqueOwner(s4, t.sub);
    PlainLogin(s4, t.sub, loginCode);
  }

  lemma StillAdmitted(s: State, s': State, t: Token)
    requires Admits(s, t, false) && Verifies(s', t, false)
    ensures t.Session? && t.sub in s.rows && Admits(s', t, false)
  {
  }

  lemma EnableSends(s: State, t: Token, code: string)
    requires Admits(s, t, false) && s.rows[t.sub].provider == Local && !s.rows[t.sub].twoFactorEnabled
    ensures var (s1, sent) := Handle(s, EnableTwoFactor(t, code));
            sent == Done(true) && Holds(s1, TwoFactorEnable, t.sub, code, s.now + 300) && s1.now == s.now &&
                Admits(s, t, false)
  {
    hide GetKey;
  }

  lemma ConfirmTurnsOn(s: State, t: Token, code: string, expiresAt: nat)
    requires Inv(s) && Admits(s, t, false)
    requires 0 < s.now < expiresAt && Holds(s, TwoFactorEnable, t.sub, code, expiresAt)
    ensures var (s', r) := Handle(s, ConfirmTwoFactor(t, code));
            && r.Tokens? && Admits(s', r.access, false) && r.access.sub == t.sub && t.sub in s'.rows && s'.now == s.now
            && s'.rows[t.sub].twoFactorEnabled
  {
    hide Inv, GetKey;
    RowNamed(s, t.sub);
    HeldMatches(s, TwoFactorEnable, t.sub, code, expiresAt);
  }

  lemma DisableTurnsOff(s: State, t: Token)
    requires Admits(s, t, false)
    ensures var (s', r) := Handle(s, DisableTwoFactor(t, s.rows[t.sub].password));
            && r.Tokens? && t.sub in s'.rows && s'.now == s.now && !s'.rows[t.sub].twoFactorEnabled
            && s'.rows[t.sub].email == s.rows[t.sub].email && s'.rows[t.sub].password == s.rows[t.sub].password
  {
    hide GetKey;
  }

  // Without two-factor the right password is enough.
  lemma PlainLogin(s: State, id: Id, code: string)
    requires Inv(s) && s.now > 0 && id in s.rows && ByEmail(s.rows, s.rows[id].email) == Some(id) &&
             !s.rows[id].twoFactorEnabled
    ensures var (s', r) := Handle(s, Login(s.rows[id].email, s.rows[id].password, code));
            r.Tokens? && Admits(s', r.access, false)
  {
    hide Inv;
    RowNamed(s, id);
  }

  // ---- Changing role ----

  // A customer who changes role loses nothing: wherever the old session was let through, the new
  // one is, on every route and with every rule the registry may find for it.
  lemma RoleChangeLosesNothing(s: State, t: Token, role: UserType, marks: Marks, route: Option<RoutePermission>)
    requires Inv(s) && s.now > 0 && Admits(s, t, false) && t.userType == Some(Customer)
    requires Decide(s, marks, route, Some(t)) == Allow
    ensures var (s', r) := Handle(s, UpdateRole(t, role));
            && r.Tokens? && r.access.Session? && r.access.userType == Some(role)
            && Decide(s', marks, route, Some(r.access)) == Allow
  {
    hide Inv, Decide, Effective;
    var (s', r) := Handle(s, UpdateRole(t, role));
    NewRoleAdmitted(s, t, role);
    RoleMonotone(s, s', marks, route, t, r.access);
  }

  lemma NewRoleAdmitted(s: State, t: Token, role: UserType)
    requires Inv(s) && s.now > 0 && Admits(s, t, false)
    ensures var (s', r) := Handle(s, UpdateRole(t, role));
            && r.Tokens? && r.access.Session? && r.access.userType == Some(role)
            && Admits(s', r.access, false) && Admits(s', r.access, true)
  {
    hide Inv;
    RowNamed(s, t.sub);
  }
}
