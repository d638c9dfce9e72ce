/** Which call may change which part of an account. */
module Authority {
  import opened Wrappers
  import opened Credentials
  import opened CodeStore
  import opened Users
  import opened Protocol
  import opened Safety
  import opened Guarantees

  // The session a request acts with.
  function Acting(r: Request): Option<Token> {
    match r
    case Refresh(t) => Some(t)
    case VerifyEmail(t, _) => Some(t)
    case ResendVerification(t, _) => Some(t)
    case UpdateRole(t, _) => Some(t)
    case EnableTwoFactor(t, _) => Some(t)
    case ResendEnableCode(t, _) => Some(t)
    case ConfirmTwoFactor(t, _) => Some(t)
    case VerifyTwoFactor(t, _) => Some(t)
    case ResendTwoFactorCode(t, _) => Some(t)
    case DisableTwoFactor(t, _) => Some(t)
    case _ => None
  }

  // With a session of that account whose second factor, if it needs one, is settled.
  predicate ActsFor(s: State, r: Request, id: Id) {
    Acting(r).Some? && Admits(s, Acting(r).value, false) && Acting(r).value.sub == id
  }

  // How the call may have changed the row of id, and with what authority.
  predicate Accounted(s: State, r: Request, response: Response, id: Id, row: Row, row': Row) {
    && row' == row.(password := row'.password, isEmailVerified := row'.isEmailVerified,
                    twoFactorEnabled := row'.twoFactorEnabled, userType := row'.userType,
                        refreshToken := row'.refreshToken,
                    lastLoginAt := row'.lastLoginAt)
    && (row'.password != row.password ==>
          r.CompleteReset? && Signed(s, r.resetToken) && r.resetToken.Reset? && r.resetToken.email == row.email &&
          row'.password == r.newPassword == r.confirmPassword)
    && (row'.isEmailVerified != row.isEmailVerified ==>
          row'.isEmailVerified && r.VerifyEmail? && ActsFor(s, r, id) && CodeMatches(s, Email, row.email, r.code))
    && (row'.twoFactorEnabled && !row.twoFactorEnabled ==>
          r.ConfirmTwoFactor? && ActsFor(s, r, id) && CodeMatches(s, TwoFactorEnable, id, r.code))
    && (row.twoFactorEnabled && !row'.twoFactorEnabled ==>
          r.DisableTwoFactor? && ActsFor(s, r, id) && r.password == row.password)
    && (row'.userType != row.userType ==> r.UpdateRole? && ActsFor(s, r, id) && row'.userType == Some(r.role))
    && (row'.refreshToken != row.refreshToken || row'.lastLoginAt != row.lastLoginAt ==>
          response.Tokens? && row' == Stored(row', Some(response.refresh), s.now))
  }

  // Whatever the call, every change to an existing account is one its holder authorised: with a
  // signed reset token for the address, or an admitted session of the account (one that owes a
  // second factor is not) together with a live code or the password where the call asks for it.
  lemma EveryChangeAuthorised(s: State, r: Request, id: Id)
    requires Inv(s) && id in s.rows
    ensures var (s', response) := Handle(s, r);
            id in s'.rows && Accounted(s, r, response, id, s.rows[id], s'.rows[id])
  {
    hide Handle, Accounted, Inv;
    if Acting(r).Some? {
      SessionChange(s, r, id);
    } else {
      OpenChange(s, r, id);
    }
  }

  // createTokens touches only the stored refresh token of the row it mints for.
  lemma MintChange(s: State, who: Id, email: string, verified: bool, mfa: bool, id: Id)
    requires who in s.rows && id in s.rows
    ensures var (s', r) := MintTokens(s, who, email, verified, mfa);
            && r.Tokens? && id in s'.rows
            && s'.rows[id] == if id == who then Stored(s.rows[id], Some(r.refresh), s.now) else s.rows[id]
  {
  }

  lemma OpenChange(s: State, r: Request, id: Id)
    requires Inv(s) && id in s.rows && Acting(r).None?
    ensures var (s', response) := Handle(s, r);
            id in s'.rows && Accounted(s, r, response, id, s.rows[id], s'.rows[id])
  {
    hide GetKey, Matches, ClaimsValid, Mint, RefreshToken, AccessToken, Inv;
    match r
    case SignUp(_, _, _, _, _) =>
      CreationChange(s, r, id);
    case Login(_, _, _) =>
      LoginChange(s, r, id);
    case FacebookAuth(_, _, _) =>
      CreationChange(s, r, id);
    case _ =>
  }

  lemma LoginChange(s: State, r: Request, id: Id)
    requires id in s.rows && r.Login?
    ensures var (s', response) := Handle(s, r);
            id in s'.rows && Accounted(s, r, response, id, s.rows[id], s'.rows[id])
  {
    hide GetKey, Matches, ClaimsValid, Mint, RefreshToken, AccessToken;
    match r
    case Login(email, _, code) =>
      if ByEmail(s.rows, email).Some? {
        var who := ByEmail(s.rows, email).value;
        MintChange(s, who, s.rows[who].email, s.rows[who].isEmailVerified, false, id);
        MintChange(SaveCode(s, TwoFactor, who, code), who, s.rows[who].email, s.rows[who].isEmailVerified, false, id);
      }
  }

  lemma CreationChange(s: State, r: Request, id: Id)
    requires id in s.rows && (r.SignUp? || r.FacebookAuth?)
    ensures var (s', response) := Handle(s, r);
            id in s'.rows && Accounted(s, r, response, id, s.rows[id], s'.rows[id])
  {
    hide GetKey, Matches, ClaimsValid, Mint, RefreshToken, AccessToken;
    match r
    case SignUp(email, password, _, newId, _) =>
      if Creatable(s, newId, email) {
        MintChange(Create(s, NewRow(newId, email, password, Local, false)), newId, email, false, false, id);
      }
    case FacebookAuth(email, newId, password) =>
      if ByEmail(s.rows, email).Some? {
        MintChange(s, ByEmail(s.rows, email).value, s.rows[ByEmail(s.rows, email).value].email, true, false, id);
      } else if Creatable(s, newId, email) {
        MintChange(Create(s, NewRow(newId, email, password, Facebook, true)), newId, email, true, false, id);
      }
  }

  lemma SessionChange(s: State, r: Request, id: Id)
    requires Inv(s) && id in s.rows && Acting(r).Some?
    ensures var (s', response) := Handle(s, r);
            id in s'.rows && Accounted(s, r, response, id, s.rows[id], s'.rows[id])
  {
    hide GetKey, Matches, ClaimsValid, Mint, RefreshToken, AccessToken, Inv;
    match r
    case Refresh(t) =>
      if Verifies(s, t, true) {
        MintChange(s, t.sub, t.email, t.isEmailVerified, t.twoFactorEnabled && t.twoFactorVerified, id);
      }
    case VerifyEmail(t, _) =>
      VerifyEmailChange(s, r, id);
    case UpdateRole(t, role) =>
      if Admits(s, t, false) {
        var row := s.rows[t.sub].(userType := Some(role));
        MintChange(SetRow(s, t.sub, row), t.sub, row.email, row.isEmailVerified, row.twoFactorEnabled, id);
      }
    case ConfirmTwoFactor(_, _) =>
      TwoFactorChange(s, r, id);
    case VerifyTwoFactor(_, _) =>
      TwoFactorChange(s, r, id);
    case DisableTwoFactor(_, _) =>
      TwoFactorChange(s, r, id);
    case _ =>
  }

  lemma TwoFactorChange(s: State, r: Request, id: Id)
    requires id in s.rows && (r.ConfirmTwoFactor? || r.VerifyTwoFactor? || r.DisableTwoFactor?)
    ensures var (s', response) := Handle(s, r);
            id in s'.rows && Accounted(s, r, response, id, s.rows[id], s'.rows[id])
  {
    hide GetKey, Matches, ClaimsValid, Mint, RefreshToken, AccessToken;
    match r
    case ConfirmTwoFactor(t, _) =>
      if Admits(s, t, false) {
        var row := s.rows[t.sub].(twoFactorEnabled := true);
        MintChange(SetRow(ConsumeCode(s, TwoFactorEnable, t.sub), t.sub, row), t.sub, row.email, row.isEmailVerified,
            true, id);
      }
    case VerifyTwoFactor(t, _) =>
      if Admits(s, t, true) {
        MintChange(ConsumeCode(s, TwoFactor, t.sub), t.sub, s.rows[t.sub].email, s.rows[t.sub].isEmailVerified, true,
            id);
      }
    case DisableTwoFactor(t, _) =>
      if Admits(s, t, false) {
        var row := s.rows[t.sub].(twoFactorEnabled := false);
        MintChange(SetRow(s, t.sub, row), t.sub, row.email, row.isEmailVerified, false, id);
      }
  }

  lemma VerifyEmailChange(s: State, r: Request, id: Id)
    requires Inv(s) && id in s.rows && r.VerifyEmail?
    ensures var (s', response) := Handle(s, r);
            id in s'.rows && Accounted(s, r, response, id, s.rows[id], s'.rows[id])
  {
    hide GetKey, Matches, ClaimsValid, Mint, RefreshToken, AccessToken, Inv;
    var t := r.token;
    if Admits(s, t, false) {
      AddressIsOwn(s, t);
      var row := s.rows[t.sub].(isEmailVerified := true);
      MintChange(SetRow(ConsumeCode(s, Email, t.email), t.sub, row), t.sub, t.email, true, false, id);
    }
  }

  // The address in a session token is that of its own account.
  lemma AddressIsOwn(s: State, t: Token)
    requires Inv(s) && t in s.issued && t.Session?
    ensures t.sub in s.rows && ByEmail(s.rows, t.email) == Some(t.sub)
  {
    assert TokenOk(s, t);
    hide RowOk, Coherent, ResetCodesLocal;
  }

  // How the caller showed that the account handed out is theirs, and, for a session that claims
  // a second factor, that they had one.
  ghost predicate Earned(s: State, r: Request, access: Token) {
    && access.Session?
    && (match r
        case SignUp(email, password, confirm, newId, _) =>
          access.sub == newId && newId !in s.rows && access.email == email && ByEmail(s.rows, email).None? &&
              password == confirm
        case Login(email, password, _) =>
          access.sub in s.rows && s.rows[access.sub].email == email && s.rows[access.sub].password == password
        case FacebookAuth(email, newId, _) =>
          access.email == email &&
          if access.sub in s.rows then s.rows[access.sub].email == email && s.rows[access.sub].provider == Facebook
          else access.sub == newId && ByEmail(s.rows, email).None?
        case Refresh(t) => Verifies(s, t, true) && t.sub == access.sub
        case VerifyTwoFactor(t, code) => Admits(s, t, true) && t.sub == access.sub &&
            CodeMatches(s, TwoFactor, t.sub, code)
        case _ => ActsFor(s, r, access.sub))
    && (access.twoFactorVerified ==>
          || (r.VerifyTwoFactor? && CodeMatches(s, TwoFactor, access.sub, r.code))
          || (Acting(r).Some? && Admits(s, Acting(r).value, false)))
  }

  // Whatever call hands out a session, the caller earned it: by the password, the Facebook
  // identity, an admitted session of the same account, the stored refresh token, a live code
  // with a session that owes it, or by opening an account at a free address. A second factor is
  // claimed only for a live code or an already admitted session.
  lemma EveryGrantEarned(s: State, r: Request)
    requires Handle(s, r).1.Tokens?
    ensures Earned(s, r, Handle(s, r).1.access)
  {
    hide GetKey, Matches, ClaimsValid, Mint, RefreshToken;
  }

  // ---- How long a refresh token lasts ----

  ghost predicate Grants(s: State, r: Request, id: Id) {
    var response := Handle(s, r).1;
    response.Tokens? && response.refresh.Session? && response.refresh.sub == id
  }

  // No call of the run hands new tokens to this user.
  ghost predicate NoGrant(s: State, requests: seq<Request>, id: Id)
    decreases |requests|
  {
    requests == [] || (!Grants(s, requests[0], id) && NoGrant(Handle(s, requests[0]).0, requests[1..], id))
  }

  lemma CurrentStep(s: State, r: Request, t: Token)
    requires Inv(s) && t in s.issued && Current(s, t)
    ensures var s' := Handle(s, r).0;
            Inv(s') && t in s'.issued && (Current(s', t) <==> !Grants(s, r, t.sub))
  {
    hide Inv, Grows, Handle;
    HandleStep(s, r);
    EveryChangeAuthorised(s, r, t.sub);
    if Handle(s, r).1.Tokens? {
      GrantedTokens(s, r);
    }
    StepKept(s, Handle(s, r).0, t);
  }

  lemma StepKept(s: State, s': State, t: Token)
    requires Inv(s) && t in s.issued && t.Session? && t.sub in s.rows && Step(s, s')
    ensures Inv(s') && t in s'.issued && t.sub in s'.rows && s.now <= s'.now && (Current(s', t) ==> Current(s, t))
    ensures s'.rows[t.sub].refreshToken.Some? ==>
            s'.rows[t.sub].refreshToken.value.Session? && s'.rows[t.sub].refreshToken.value.sub == t.sub
  {
    assert RowOk(s', t.sub);
    hide ResetCodesLocal, TokenOk, Coherent;
  }

  lemma {:induction false} CurrentRun(s: State, requests: seq<Request>, t: Token)
    requires Inv(s) && t in s.issued && Current(s, t)
    ensures Current(Run(s, requests), t) <==> NoGrant(s, requests, t.sub)
    decreases |requests|
  {
    hide Handle, Inv, Grants;
    if requests != [] {
      var s1 := Handle(s, requests[0]).0;
      CurrentStep(s, requests[0], t);
      if Current(s1, t) {
        CurrentRun(s1, requests[1..], t);
      } else {
        HandleStep(s, requests[0]);
        StepKept(s, s1, t);
        RunStep(s1, requests[1..]);
        StepKept(s1, Run(s1, requests[1..]), t);
      }
    }
  }

  // A refresh token handed out by any call is redeemable, after any further calls by anyone,
  // exactly until seven days pass or its user is handed new tokens.
  lemma RedeemableUntil(s: State, r: Request, mid: seq<Request>)
    requires Inv(s) && s.now > 0 && Handle(s, r).1.Tokens?
    ensures var (s1, Tokens(_, refresh)) := Handle(s, r);
            refresh.Session? &&
            (Handle(Run(s1, mid), Refresh(refresh)).1.Tokens? <==>
               NoGrant(s1, mid, refresh.sub) && Run(s1, mid).now < s.now + 604800)
  {
    hide Inv, Grows, Handle, Grants, NoGrant;
    var (s1, Tokens(access, refresh)) := Handle(s, r);
    GrantedTokens(s, r);
    HandleStep(s, r);
    RunStep(s1, mid);
    CurrentIssued(s1, refresh);
    CurrentRun(s1, mid, refresh);
    StepKept(s1, Run(s1, mid), refresh);
    TimePasses(s, s1);
    RefreshExactly(Run(s1, mid), refresh);
  }

  lemma TimePasses(s: State, s': State)
    requires Step(s, s')
    ensures s.now <= s'.now
  {
    hide Inv;
  }

  lemma CurrentIssued(s: State, t: Token)
    requires Inv(s) && Current(s, t)
    ensures t in s.issued && TokenOk(s, t) && t.sub != "" && t.email != ""
  {
    assert RowOk(s, t.sub);
    hide ResetCodesLocal;
  }

  lemma RefreshExactly(s: State, t: Token)
    requires Inv(s) && t in s.issued && t.Session? && t.sub != "" && t.email != "" && 0 < t.iat <= s.now &&
             t.exp == t.iat + 604800
    ensures Handle(s, Refresh(t)).1.Tokens? <==> Current(s, t) && s.now < t.exp
  {
    assert TokenOk(s, t);
    hide ResetCodesLocal, RowOk, Coherent;
  }
}
