/** The protocol's promises, as statements about every run from an empty database. */
module Guarantees {
  import opened Wrappers
  import opened Credentials
  import opened CodeStore
  import opened Users
  import opened Protocol
  import opened Safety

  // Over all runs: a token that says "verified" belongs to a verified row and carries that
  // row's address; Facebook rows are verified; a password account is verified only if a code
  // sent to its address was accepted; and no later call takes verification back.
  lemma EmailVerification(now: nat, requests: seq<Request>, later: seq<Request>)
    ensures var s := Run(Init(now), requests);
            && (forall t :: t in s.issued && t.Session? ==>
                  t.sub in s.rows && t.email == s.rows[t.sub].email &&
                      (t.isEmailVerified ==> s.rows[t.sub].isEmailVerified))
            && (forall id :: id in s.rows && s.rows[id].provider == Facebook ==> s.rows[id].isEmailVerified)
            && (forall id :: id in s.rows && s.rows[id].provider == Local && s.rows[id].isEmailVerified ==>
                  (Email, s.rows[id].email) in s.consumed)
            && (forall id :: id in s.rows && s.rows[id].isEmailVerified ==>
                  id in Run(s, later).rows && Run(s, later).rows[id].isEmailVerified)
  {
    var s := Run(Init(now), requests);
    Reachable(now, requests);
    RunStep(s, later);
    assert forall t :: t in s.issued ==> TokenOk(s, t);
    assert forall id :: id in s.rows ==> RowOk(s, id);
    assert forall id :: id in s.rows ==> RowGrows(s.rows[id], Run(s, later).rows[id]);
  }

  // Over all runs: 2FA is on only where an enable code of that user was accepted; a token
  // claims a verified second factor only if a code of that user was accepted; and the guard
  // lets a 2FA session onto an ordinary route only in that case.
  lemma SecondFactorProvenance(now: nat, requests: seq<Request>)
    ensures var s := Run(Init(now), requests);
            && (forall id :: id in s.rows && s.rows[id].twoFactorEnabled ==> (TwoFactorEnable, id) in s.consumed)
            && (forall t :: t in s.issued && t.Session? && t.twoFactorVerified ==> SecondFactor(s, t.sub))
            && (forall t :: Admits(s, t, false) && t.twoFactorEnabled ==> SecondFactor(s, t.sub))
  {
    var s := Run(Init(now), requests);
    Reachable(now, requests);
    assert forall t :: t in s.issued ==> TokenOk(s, t);
    assert forall id :: id in s.rows ==> RowOk(s, id);
  }

  // Over all runs: a password differs from the one the row was created with only if a reset
  // code for its address was accepted; a Facebook row keeps its password for ever, and no
  // reset code or reset token for its address ever exists.
  lemma PasswordProvenance(now: nat, requests: seq<Request>, later: seq<Request>)
    ensures var s := Run(Init(now), requests);
            forall id :: id in s.rows ==>
              var row := s.rows[id];
              && id in s.created
              && (row.password != s.created[id] ==> (Password, row.email) in s.consumed)
              && (row.provider == Facebook ==>
                    && id in Run(s, later).rows && Run(s, later).rows[id].password == row.password == s.created[id]
                    && GetKey(Password, row.email) !in s.codes
                    && forall t :: t in s.issued && t.Reset? ==> t.email != row.email)
  {
    var s := Run(Init(now), requests);
    var s' := Run(s, later);
    Reachable(now, requests);
    RunStep(s, later);
    forall id | id in s.rows
      ensures id in s.created && (s.rows[id].password != s.created[id] ==> (Password, s.rows[id].email) in s.consumed)
      ensures s.rows[id].provider == Facebook ==>
                && id in s'.rows && s'.rows[id].password == s.rows[id].password == s.created[id]
                && GetKey(Password, s.rows[id].email) !in s.codes
                && forall t :: t in s.issued && t.Reset? ==> t.email != s.rows[id].email
    {
      assert RowOk(s, id) && RowOk(s', id) && RowGrows(s.rows[id], s'.rows[id]);
      if s.rows[id].provider == Facebook {
        assert !LocalEmail(s, s.rows[id].email);
        assert forall t :: t in s.issued ==> TokenOk(s, t);
      }
    }
  }

  // The one refresh token of a user that passes validateRefreshToken copies the current row.
  lemma SnapshotCoherence(now: nat, requests: seq<Request>, t: Token)
    requires Current(Run(Init(now), requests), t)
    ensures Copies(t, Run(Init(now), requests).rows[t.sub])
    ensures forall u :: Current(Run(Init(now), requests), u) && u.sub == t.sub ==> u == t
  {
    Reachable(now, requests);
    assert Coherent(Run(Init(now), requests), t.sub);
  }

  // Everything a refresh preserves of a token.
  predicate SameMeaning(t: Token, u: Token) {
    t.Session? && u.Session? && u.sub == t.sub && u.email == t.email && u.userType == t.userType &&
    u.provider == t.provider && u.isEmailVerified == t.isEmailVerified && u.twoFactorEnabled == t.twoFactorEnabled
  }

  // u is the refresh token handed out when t was redeemed in some reachable state.
  ghost predicate Refreshed(t: Token, u: Token) {
    exists s :: RefreshedIn(s, t, u)
  }

  ghost predicate RefreshedIn(s: State, t: Token, u: Token) {
    Inv(s) && var r := Handle(s, Refresh(t)).1; r.Tokens? && r.refresh == u
  }

  lemma RefreshKeepsMeaning(t: Token, u: Token)
    requires Refreshed(t, u)
    ensures SameMeaning(t, u)
    ensures u.twoFactorVerified <==> t.twoFactorEnabled && t.twoFactorVerified
  {
    var s :| RefreshedIn(s, t, u);
    assert Coherent(s, t.sub);
  }

  // Along a chain of refreshes of any length, with any calls by anyone in between, the claims
  // stay what they were; the second-factor claim survives exactly on 2FA sessions, and is
  // never gained.
  lemma {:induction false} RefreshChain(chain: seq<Token>)
    requires |chain| > 1
    requires forall i :: 0 <= i < |chain| - 1 ==> Refreshed(chain[i], chain[i + 1])
    ensures SameMeaning(chain[0], chain[|chain| - 1])
    ensures chain[|chain| - 1].twoFactorVerified <==> chain[0].twoFactorEnabled && chain[0].twoFactorVerified
  {
    RefreshKeepsMeaning(chain[0], chain[1]);
    if |chain| > 2 {
      RefreshChain(chain[1..]);
    }
  }

  // With calls atomic a refresh token is redeemed at most once: after a success it is refused
  // in every later state.
  lemma RefreshOnce(s: State, t: Token, later: seq<Request>)
    requires Inv(s) && Handle(s, Refresh(t)).1.Tokens?
    ensures var s' := Run(Handle(s, Refresh(t)).0, later);
            !Current(s', t) && Handle(s', Refresh(t)) == (s', Rejected)
  {
    var s1 := Handle(s, Refresh(t)).0;
    assert TokenOk(s, t);
    assert !Current(s1, t);
    HandleStep(s, Refresh(t));
    RunStep(s1, later);
  }

  // A session token that was once good can only expire, and expiry is permanent.
  lemma ExpiryIsPermanent(s: State, t: Token, mid: seq<Request>, later: seq<Request>)
    requires Inv(s) && Verifies(s, t, false) && !Verifies(Run(s, mid), t, false)
    ensures !Verifies(Run(Run(s, mid), later), t, false)
  {
    hide Run, Inv;
    RunStep(s, mid);
    RunStep(Run(s, mid), later);
  }

  // The code a request presents, when it presents one.
  function Presents(r: Request): Option<(Kind, string, string)> {
    match r
    case VerifyEmail(Session(_, _, email, _, _, _, _, _, _, _), code) => Some((Email, email, code))
    case ConfirmTwoFactor(Session(_, sub, _, _, _, _, _, _, _, _), code) => Some((TwoFactorEnable, sub, code))
    case VerifyTwoFactor(Session(_, sub, _, _, _, _, _, _, _, _), code) => Some((TwoFactor, sub, code))
    case VerifyResetCode(email, code) => Some((Password, email, code))
    case _ => None
  }

  // What `consumed` records: an entry appears only when a request presents the code then
  // stored live for that (kind, id).
  lemma ConsumedMeansPresented(s: State, r: Request, kind: Kind, id: string)
    requires (kind, id) !in s.consumed && (kind, id) in Handle(s, r).0.consumed
    ensures exists code :: Presents(r) == Some((kind, id, code)) && CodeMatches(s, kind, id, code)
  {
    hide GetKey, ClaimsValid, Matches;
    assert Presents(r).Some?;
    var (k, i, code) := Presents(r).value;
    assert CodeMatches(s, k, i, code) && k == kind && i == id;
  }

  // The second-factor claim a call grants.
  function GrantedSecondFactor(s: State, r: Request): bool {
    match r
    case ConfirmTwoFactor(_, _) => true
    case VerifyTwoFactor(_, _) => true
    case Refresh(Session(_, _, _, _, enabled, verified, _, _, _, _)) => enabled && verified
    case UpdateRole(Session(_, sub, _, _, _, _, _, _, _, _), _) => sub in s.rows && s.rows[sub].twoFactorEnabled
    case _ => false
  }

  // Whatever call hands out tokens, both are new, copy the same row as that call leaves it,
  // live one day and seven days, carry the second-factor claim the call grants, and the refresh
  // token becomes its owner's current one, which dates the login. A role change puts the role asked for into them.
  lemma GrantedTokens(s: State, r: Request)
    requires Inv(s) && Handle(s, r).1.Tokens?
    ensures var (s', Tokens(access, refresh)) := Handle(s, r);
            && access.Session? && SameMeaning(access, refresh) && access.jti != refresh.jti
            && access !in s.issued && refresh !in s.issued && access in s'.issued
            && access.iat == refresh.iat == s.now && access.exp == s.now + 86400 && refresh.exp == s.now + 604800
            && access.twoFactorVerified == refresh.twoFactorVerified == GrantedSecondFactor(s, r)
            && Current(s', refresh) && Copies(refresh, s'.rows[refresh.sub])
            && s'.rows[refresh.sub].lastLoginAt == Some(s.now)
            && (r.UpdateRole? ==> refresh.sub == r.token.sub && refresh.userType == Some(r.role))
  {
    hide Inv, Grows, Handle;
    HandleStep(s, r);
    CallMints(s, r);
    if r.UpdateRole? {
      RoleTaken(s, r.token, r.role);
    }
    NewTokensFresh(s);
    var (s', Tokens(access, refresh)) := Handle(s, r);
    CoherentCopies(s', refresh);
  }

  // The two tokens came from one call of createTokens in s, and the state is now s'.
  predicate Minted(s: State, s': State, access: Token, refresh: Token, mfa: bool) {
    && access.Session? && access in s'.issued
    && refresh == access.(jti := s.nextJti + 1, exp := s.now + 604800)
    && access.jti == s.nextJti && access.iat == s.now && access.exp == s.now + 86400 && access.twoFactorVerified == mfa
    && Current(s', refresh) && s'.rows[refresh.sub].lastLoginAt == Some(s.now)
  }

  lemma RoleTaken(s: State, t: Token, role: UserType)
    requires Handle(s, UpdateRole(t, role)).1.Tokens?
    ensures var r := Handle(s, UpdateRole(t, role)).1;
            r.refresh.Session? && r.refresh.sub == t.sub && r.refresh.userType == Some(role)
  {
  }

  lemma MintMints(s: State, id: Id, email: string, verified: bool, mfa: bool)
    requires id in s.rows
    ensures var (s', r) := MintTokens(s, id, email, verified, mfa);
            r.Tokens? && Minted(s, s', r.access, r.refresh, mfa)
  {
  }

  lemma CallMints(s: State, r: Request)
    requires Handle(s, r).1.Tokens?
    ensures var (s', Tokens(access, refresh)) := Handle(s, r);
            Minted(s, s', access, refresh, GrantedSecondFactor(s, r))
  {
    hide Mint, AccessToken, RefreshToken, ClaimsValid, GetKey, Matches;
    match r
    case SignUp(_, _, _, _, _) =>
      CreationMints(s, r);
    case Login(email, password, code) =>
      var id := ByEmail(s.rows, email).value;
      MintMints(s, id, s.rows[id].email, s.rows[id].isEmailVerified, false);
      MintMints(SaveCode(s, TwoFactor, id, code), id, s.rows[id].email, s.rows[id].isEmailVerified, false);
    case FacebookAuth(_, _, _) =>
      CreationMints(s, r);
    case Refresh(t) =>
      MintMints(s, t.sub, t.email, t.isEmailVerified, t.twoFactorEnabled && t.twoFactorVerified);
    case VerifyEmail(t, _) =>
      var owner := ByEmail(s.rows, t.email).value;
      MintMints(SetRow(ConsumeCode(s, Email, t.email), owner, s.rows[owner].(isEmailVerified := true)), t.sub,
          t.email, true, false);
    case UpdateRole(t, role) =>
      var row := s.rows[t.sub].(userType := Some(role));
      MintMints(SetRow(s, t.sub, row), t.sub, row.email, row.isEmailVerified, row.twoFactorEnabled);
    case ConfirmTwoFactor(_, _) =>
      TwoFactorMints(s, r);
    case VerifyTwoFactor(_, _) =>
      TwoFactorMints(s, r);
    case DisableTwoFactor(_, _) =>
      TwoFactorMints(s, r);
    case _ =>
  }

  lemma CreationMints(s: State, r: Request)
    requires (r.SignUp? || r.FacebookAuth?) && Handle(s, r).1.Tokens?
    ensures var (s', Tokens(access, refresh)) := Handle(s, r);
            Minted(s, s', access, refresh, GrantedSecondFactor(s, r))
  {
    hide Mint, AccessToken, RefreshToken, ClaimsValid, GetKey, Matches;
    match r
    case SignUp(email, password, _, newId, _) =>
      MintMints(Create(s, NewRow(newId, email, password, Local, false)), newId, email, false, false);
    case FacebookAuth(email, newId, password) =>
      if ByEmail(s.rows, email).Some? {
        var id := ByEmail(s.rows, email).value;
        MintMints(s, id, s.rows[id].email, true, false);
      } else {
        MintMints(Create(s, NewRow(newId, email, password, Facebook, true)), newId, email, true, false);
      }
  }

  lemma TwoFactorMints(s: State, r: Request)
    requires (r.ConfirmTwoFactor? || r.VerifyTwoFactor? || r.DisableTwoFactor?) && Handle(s, r).1.Tokens?
    ensures var (s', Tokens(access, refresh)) := Handle(s, r);
            Minted(s, s', access, refresh, GrantedSecondFactor(s, r))
  {
    hide Mint, AccessToken, RefreshToken, ClaimsValid, GetKey, Matches;
    match r
    case ConfirmTwoFactor(t, _) =>
      var row := s.rows[t.sub].(twoFactorEnabled := true);
      MintMints(SetRow(ConsumeCode(s, TwoFactorEnable, t.sub), t.sub, row), t.sub, row.email, row.isEmailVerified,
          true);
    case VerifyTwoFactor(t, _) =>
      MintMints(ConsumeCode(s, TwoFactor, t.sub), t.sub, s.rows[t.sub].email, s.rows[t.sub].isEmailVerified, true);
    case DisableTwoFactor(t, _) =>
      var row := s.rows[t.sub].(twoFactorEnabled := false);
      MintMints(SetRow(s, t.sub, row), t.sub, row.email, row.isEmailVerified, false);
  }

  lemma NewTokensFresh(s: State)
    requires Inv(s)
    ensures forall t :: t in s.issued ==> t.jti < s.nextJti
  {
    assert forall t :: t in s.issued ==> TokenOk(s, t);
  }

  lemma CoherentCopies(s: State, t: Token)
    requires Inv(s) && Current(s, t)
    ensures Copies(t, s.rows[t.sub])
  {
    assert Coherent(s, t.sub);
  }

  predicate Copies(t: Token, row: Row) {
    t.Session? && t.email == row.email && t.userType == row.userType && t.provider == row.provider &&
    t.isEmailVerified == row.isEmailVerified && t.twoFactorEnabled == row.twoFactorEnabled
  }
}
