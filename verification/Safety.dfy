/** What every run of the protocol keeps. */
module Safety {
  import opened Wrappers
  import opened Credentials
  import opened CodeStore
  import opened Users
  import opened Protocol

  // ---- The invariant ----

  // Some two-factor code of this user was accepted.
  predicate SecondFactor(s: State, id: Id) {
    (TwoFactor, id) in s.consumed || (TwoFactorEnable, id) in s.consumed
  }

  predicate LocalEmail(s: State, email: string) {
    exists id :: id in s.rows && s.rows[id].email == email && s.rows[id].provider == Local
  }

  predicate TokenOk(s: State, t: Token) {
    t.jti < s.nextJti &&
    match t
    case Session(_, sub, email, verified, _, mfa, _, _, _, _) =>
      && sub in s.rows && email == s.rows[sub].email
      && (verified ==> s.rows[sub].isEmailVerified)
      && (mfa ==> SecondFactor(s, sub))
    case Reset(_, email, _, _) => (Password, email) in s.consumed
  }

  predicate RowOk(s: State, id: Id)
    requires id in s.rows && id in s.created
  {
    var row := s.rows[id];
    && (row.provider == Facebook ==> row.isEmailVerified && row.password == s.created[id])
    && (row.provider == Local && row.isEmailVerified ==> (Email, row.email) in s.consumed)
    && (row.password != s.created[id] ==> (Password, row.email) in s.consumed)
    && (row.twoFactorEnabled ==> (TwoFactorEnable, id) in s.consumed)
    && (row.refreshToken.Some? ==>
          row.refreshToken.value in s.issued && row.refreshToken.value.Session? && row.refreshToken.value.sub == id)
  }

  // Reset codes exist, and have existed, only for addresses of password accounts.
  ghost predicate ResetCodesLocal(s: State) {
    && (forall email :: GetKey(Password, email) in s.codes ==> LocalEmail(s, email))
    && (forall email :: (Password, email) in s.consumed ==> LocalEmail(s, email))
  }

  ghost predicate Base(s: State) {
    && Keyed(s.rows)
    && s.created.Keys == s.rows.Keys
    && (forall t :: t in s.issued ==> TokenOk(s, t))
    && (forall id :: id in s.rows ==> RowOk(s, id))
    && ResetCodesLocal(s)
  }

  // The stored refresh token is a faithful copy of the row.
  predicate Coherent(s: State, id: Id)
    requires id in s.rows
  {
    var row := s.rows[id];
    match row.refreshToken
    case Some(Session(_, _, email, verified, enabled, _, userType, provider, _, _)) =>
      email == row.email && verified == row.isEmailVerified && enabled == row.twoFactorEnabled &&
      userType == row.userType && provider == row.provider
    case _ => true
  }

  ghost predicate CoherentBut(s: State, x: Id) {
    forall id :: id in s.rows && id != x ==> Coherent(s, id)
  }

  ghost predicate Inv(s: State) {
    && Base(s)
    && forall id :: id in s.rows ==> Coherent(s, id)
  }

  // What no later step undoes.
  ghost predicate Grows(s: State, s': State) {
    && s.rows.Keys <= s'.rows.Keys && s.created.Keys <= s'.created.Keys
    && (forall id :: id in s.rows ==> RowGrows(s.rows[id], s'.rows[id]))
    && (forall id :: id in s.created ==> s'.created[id] == s.created[id])
    && s.issued <= s'.issued && s.consumed <= s'.consumed
    && s.nextJti <= s'.nextJti && s.now <= s'.now
    && (forall t :: t in s.issued && t.Session? && t.sub in s.rows && Current(s', t) ==> Current(s, t))
  }

  // The address and provider never change, verification never reverts.
  predicate RowGrows(row: Row, row': Row) {
    && row'.email == row.email && row'.provider == row.provider
    && (row.isEmailVerified ==> row'.isEmailVerified)
  }

  lemma GrowsTransitive(a: State, b: State, c: State)
    requires Grows(a, b) && Grows(b, c)
    ensures Grows(a, c)
  {
  }

  // ---- Each building block keeps it ----

  lemma LocalEmailGrows(s: State, s': State, email: string)
    requires LocalEmail(s, email) && s.rows.Keys <= s'.rows.Keys
    requires forall id :: id in s.rows ==> RowGrows(s.rows[id], s'.rows[id])
    ensures LocalEmail(s', email)
  {
    var id :| id in s.rows && s.rows[id].email == email && s.rows[id].provider == Local;
    assert id in s'.rows && RowGrows(s.rows[id], s'.rows[id]);
  }

  lemma SaveKeeps(s: State, kind: Kind, id: string, code: string)
    requires Base(s) && (kind == Password ==> LocalEmail(s, id))
    ensures var s' := SaveCode(s, kind, id, code);
            Base(s') && Grows(s, s') && s'.rows == s.rows
  {
    var s' := SaveCode(s, kind, id, code);
    forall email ensures GetKey(Password, email) in s'.codes ==> LocalEmail(s', email) {
      KeyInjective(Password, email, kind, id);
      hide GetKey;
      if GetKey(Password, email) in s'.codes {
        LocalEmailGrows(s, s', email);
      }
    }
    hide GetKey;
    ConsumedStaysLocal(s, s');
  }

  lemma ConsumedStaysLocal(s: State, s': State)
    requires ResetCodesLocal(s) && s.rows.Keys <= s'.rows.Keys
    requires forall id :: id in s.rows ==> RowGrows(s.rows[id], s'.rows[id])
    requires forall email :: (Password, email) in s'.consumed ==> LocalEmail(s, email)
    ensures forall email :: (Password, email) in s'.consumed ==> LocalEmail(s', email)
    ensures s'.codes.Keys <= s.codes.Keys ==> ResetCodesLocal(s')
  {
    forall email | LocalEmail(s, email) ensures LocalEmail(s', email) {
      LocalEmailGrows(s, s', email);
    }
    hide GetKey;
  }

  // Accepting a code needs no condition beyond its being stored.
  lemma ConsumeKeeps(s: State, kind: Kind, id: string, code: string)
    requires Base(s) && CodeMatches(s, kind, id, code)
    ensures var s' := ConsumeCode(s, kind, id);
            Base(s') && Grows(s, s') && s'.rows == s.rows && (kind, id) in s'.consumed
  {
    hide GetKey;
    ConsumedStaysLocal(s, ConsumeCode(s, kind, id));
  }

  lemma TokenOkGrows(s: State, s': State)
    requires forall t :: t in s.issued ==> TokenOk(s, t)
    requires s.rows.Keys <= s'.rows.Keys && s.consumed <= s'.consumed && s.nextJti <= s'.nextJti
    requires forall id :: id in s.rows ==> RowGrows(s.rows[id], s'.rows[id])
    ensures forall t :: t in s.issued ==> TokenOk(s', t)
  {
    forall t | t in s.issued ensures TokenOk(s', t) {
      assert TokenOk(s, t);
    }
  }

  // The state moved on, and only row x is new or different.
  predicate OnlyRow(s: State, s': State, x: Id) {
    && x in s'.rows && x in s'.created
    && s'.rows == s.rows[x := s'.rows[x]] && s'.created == s.created[x := s'.created[x]]
    && (x in s.rows ==> RowGrows(s.rows[x], s'.rows[x]))
    && (x in s.created ==> s'.created[x] == s.created[x])
    && s.issued <= s'.issued && s.consumed <= s'.consumed && s.nextJti <= s'.nextJti && s'.now == s.now
  }

  lemma RowsOkGrow(s: State, s': State, x: Id)
    requires s.rows.Keys == s.created.Keys && OnlyRow(s, s', x) && RowOk(s', x)
    requires forall id :: id in s.rows ==> RowOk(s, id)
    ensures forall id :: id in s'.rows ==> RowOk(s', id)
  {
    forall id | id in s'.rows ensures RowOk(s', id) {
      if id != x {
        assert RowOk(s, id);
      }
    }
  }

  // A step that changes one row, keeps the codes and mints only good tokens.
  lemma OneRowKeeps(s: State, s': State, x: Id)
    requires Base(s) && OnlyRow(s, s', x) && RowOk(s', x) && s'.rows[x].id == x && x != ""
    requires s'.codes == s.codes && s'.consumed == s.consumed
    requires x !in s.rows ==> s'.rows[x].email != "" && ByEmail(s.rows, s'.rows[x].email).None?
    requires forall t :: t in s'.issued && t !in s.issued ==> TokenOk(s', t)
    ensures Base(s')
  {
    hide RowOk, TokenOk, ResetCodesLocal;
    RowsOkGrow(s, s', x);
    TokenOkGrows(s, s');
    ResetCodesStay(s, s');
    KeyedGrows(s.rows, s'.rows[x]);
  }

  lemma ResetCodesStay(s: State, s': State)
    requires ResetCodesLocal(s) && s.rows.Keys <= s'.rows.Keys
    requires forall id :: id in s.rows ==> RowGrows(s.rows[id], s'.rows[id])
    requires s'.codes == s.codes && s'.consumed == s.consumed
    ensures ResetCodesLocal(s')
  {
    ConsumedStaysLocal(s, s');
  }

  lemma OneRowGrows(s: State, s': State, x: Id)
    requires s.created.Keys == s.rows.Keys && OnlyRow(s, s', x)
    requires s'.rows[x].refreshToken.Some? && s'.rows[x].refreshToken.value in s.issued ==>
               x in s.rows && s'.rows[x].refreshToken == s.rows[x].refreshToken
    ensures Grows(s, s') && (CoherentBut(s, x) ==> CoherentBut(s', x))
  {
    assert forall id :: id in s.rows && id != x ==> s'.rows[id] == s.rows[id];
  }

  lemma KeyedGrows(t: Table, row: Row)
    requires Keyed(t) && row.id != "" && row.email != ""
    requires if row.id in t then row.email == t[row.id].email else ByEmail(t, row.email).None?
    ensures Keyed(t[row.id := row])
  {
  }

  // Changing a row without touching its address, provider or stored token.
  lemma SetRowKeeps(s: State, id: Id, row: Row)
    requires Base(s) && id in s.rows && CoherentBut(s, id)
    requires RowGrows(s.rows[id], row) && row.id == id && row.refreshToken == s.rows[id].refreshToken
    requires RowOk(SetRow(s, id, row), id)
    ensures var s' := SetRow(s, id, row);
            Base(s') && Grows(s, s') && CoherentBut(s', id)
  {
    var s' := SetRow(s, id, row);
    assert OnlyRow(s, s', id);
    hide RowOk, TokenOk, ResetCodesLocal, Grows;
    OneRowKeeps(s, s', id);
    OneRowGrows(s, s', id);
  }

  lemma CreateKeeps(s: State, row: Row)
    requires Inv(s) && row.id != "" && row.id !in s.rows && row.email != "" && ByEmail(s.rows, row.email).None?
    requires row.refreshToken.None? && !row.twoFactorEnabled && (row.isEmailVerified <==> row.provider == Facebook)
    ensures var s' := Create(s, row);
            Base(s') && Grows(s, s') && CoherentBut(s', row.id)
  {
    var s' := Create(s, row);
    assert OnlyRow(s, s', row.id) && RowOk(s', row.id);
    hide RowOk, TokenOk, ResetCodesLocal, Grows;
    OneRowKeeps(s, s', row.id);
    OneRowGrows(s, s', row.id);
  }

  // Minting with arguments equal to the row's fields restores coherence for that row.
  lemma MintKeeps(s: State, id: Id, email: string, verified: bool, mfa: bool)
    requires Base(s) && id in s.rows && CoherentBut(s, id)
    requires email == s.rows[id].email && verified == s.rows[id].isEmailVerified && (mfa ==> SecondFactor(s, id))
    ensures var s' := Mint(s, id, email, verified, mfa);
            Inv(s') && Grows(s, s')
  {
    hide GetKey, ResetCodesLocal;
    var s' := Mint(s, id, email, verified, mfa);
    var access, refresh := AccessToken(s, id, email, verified, mfa), RefreshToken(s, id, email, verified, mfa);
    assert forall t :: t in s.issued ==> t.jti < s.nextJti;
    assert RowOk(s, id);
    assert OnlyRow(s, s', id) && RowOk(s', id) && TokenOk(s', access) && TokenOk(s', refresh);
    hide RowOk, TokenOk, ResetCodesLocal, Grows;
    OneRowKeeps(s, s', id);
    OneRowGrows(s, s', id);
  }

  lemma IssueResetKeeps(s: State, email: string)
    requires Inv(s) && (Password, email) in s.consumed
    ensures Inv(IssueReset(s, email)) && Grows(s, IssueReset(s, email))
  {
    var s' := IssueReset(s, email);
    hide GetKey;
    TokenOkGrows(s, s');
    ConsumedStaysLocal(s, s');
  }

  lemma ByEmailUnique(s: State, id: Id)
    requires Keyed(s.rows) && id in s.rows
    ensures ByEmail(s.rows, s.rows[id].email) == Some(id)
  {
  }

  // ---- Each call keeps it ----

  // A step of the protocol: the invariant is kept and nothing is undone.
  ghost predicate Step(s: State, s': State) {
    Inv(s') && Grows(s, s')
  }

  lemma StepReflexive(s: State)
    requires Inv(s)
    ensures Step(s, s)
  {
  }

  lemma StepTransitive(a: State, b: State, c: State)
    requires Step(a, b) && Step(b, c)
    ensures Step(a, c)
  {
    hide Inv;
  }

  lemma SaveStep(s: State, kind: Kind, id: string, code: string)
    requires Inv(s) && (kind == Password ==> LocalEmail(s, id))
    ensures Step(s, SaveCode(s, kind, id, code))
  {
    SaveKeeps(s, kind, id, code);
    hide Base, Grows;
  }

  lemma ConsumeStep(s: State, kind: Kind, id: string, code: string)
    requires Inv(s) && CodeMatches(s, kind, id, code)
    ensures Step(s, ConsumeCode(s, kind, id)) && (kind, id) in ConsumeCode(s, kind, id).consumed
  {
    ConsumeKeeps(s, kind, id, code);
    hide Base, Grows;
  }

  lemma MintStep(s: State, id: Id, mfa: bool)
    requires Inv(s) && id in s.rows && (mfa ==> SecondFactor(s, id))
    ensures Step(s, Mint(s, id, s.rows[id].email, s.rows[id].isEmailVerified, mfa))
  {
    hide Base, Grows, SecondFactor;
    MintKeeps(s, id, s.rows[id].email, s.rows[id].isEmailVerified, mfa);
  }

  // Rewrite a row, then mint from it: coherence is lost and restored.
  lemma ChangeThenMintStep(s: State, id: Id, row: Row, mfa: bool)
    requires Inv(s) && id in s.rows
    requires RowGrows(s.rows[id], row) && row.id == id && row.refreshToken == s.rows[id].refreshToken
    requires RowOk(SetRow(s, id, row), id) && (mfa ==> SecondFactor(s, id))
    ensures Step(s, Mint(SetRow(s, id, row), id, row.email, row.isEmailVerified, mfa))
  {
    hide Base, Grows, RowOk;
    SetRowKeeps(s, id, row);
    MintKeeps(SetRow(s, id, row), id, row.email, row.isEmailVerified, mfa);
    GrowsTransitive(s, SetRow(s, id, row), Mint(SetRow(s, id, row), id, row.email, row.isEmailVerified, mfa));
  }

  lemma CreateThenMintStep(s: State, row: Row)
    requires Inv(s) && Creatable(s, row.id, row.email)
    requires row.refreshToken.None? && !row.twoFactorEnabled && (row.isEmailVerified <==> row.provider == Facebook)
    ensures Step(s, Mint(Create(s, row), row.id, row.email, row.isEmailVerified, false))
  {
    hide Base, Grows;
    CreateKeeps(s, row);
    MintKeeps(Create(s, row), row.id, row.email, row.isEmailVerified, false);
    GrowsTransitive(s, Create(s, row), Mint(Create(s, row), row.id, row.email, row.isEmailVerified, false));
  }

  lemma SignUpStep(s: State, email: string, password: string, confirm: string, newId: Id, code: string)
    requires Inv(s)
    ensures Step(s, DoSignUp(s, email, password, confirm, newId, code).0)
  {
    hide Grows, Base, CoherentBut;
    if Creatable(s, newId, email) && password == confirm {
      var row := NewRow(newId, email, password, Local, false);
      CreateThenMintStep(s, row);
      var s1 := Mint(Create(s, row), newId, email, false, false);
      SaveStep(s1, Email, email, code);
      StepTransitive(s, s1, SaveCode(s1, Email, email, code));
    } else {
      StepReflexive(s);
    }
  }

  lemma LoginStep(s: State, email: string, password: string, code: string)
    requires Inv(s)
    ensures Step(s, DoLogin(s, email, password, code).0)
  {
    var found := ByEmail(s.rows, email);
    hide Grows, Base, CoherentBut;
    if found.Some? && s.rows[found.value].password == password {
      var s1 := if s.rows[found.value].twoFactorEnabled then SaveCode(s, TwoFactor, found.value, code) else s;
      if s.rows[found.value].twoFactorEnabled {
        SaveStep(s, TwoFactor, found.value, code);
      } else {
        StepReflexive(s);
      }
      MintStep(s1, found.value, false);
      StepTransitive(s, s1, DoLogin(s, email, password, code).0);
    } else {
      StepReflexive(s);
    }
  }

  lemma FacebookStep(s: State, email: string, newId: Id, password: string)
    requires Inv(s)
    ensures Step(s, DoFacebookAuth(s, email, newId, password).0)
  {
    var found := ByEmail(s.rows, email);
    if found.Some? && s.rows[found.value].provider == Facebook {
      assert RowOk(s, found.value);
      hide Grows, Base, CoherentBut;
      MintStep(s, found.value, false);
    } else {
      hide Grows, Base, CoherentBut;
      if found.None? && Creatable(s, newId, email) {
        CreateThenMintStep(s, NewRow(newId, email, password, Facebook, true));
      } else {
        StepReflexive(s);
      }
    }
  }

  // Minting from the claims of the current refresh token is minting from the row.
  lemma RefreshStep(s: State, t: Token)
    requires Inv(s)
    ensures Step(s, DoRefresh(s, t).0)
  {
    if Verifies(s, t, true) {
      assert Coherent(s, t.sub) && TokenOk(s, t);
      hide Grows, Base, CoherentBut;
      MintStep(s, t.sub, t.twoFactorEnabled && t.twoFactorVerified);
    } else {
      StepReflexive(s);
    }
  }

  // The token's address is that of its own row, so the row verified is the row minted for.
  lemma VerifyEmailStep(s: State, t: Token, code: string)
    requires Inv(s) && t in s.issued && t.Session?
    ensures t.sub in s.rows && Step(s, DoVerifyEmail(s, t.sub, t.email, code).0)
  {
    assert TokenOk(s, t) && RowOk(s, t.sub);
    ByEmailUnique(s, t.sub);
    hide Grows, Base, CoherentBut;
    if CodeMatches(s, Email, t.email, code) {
      var s1 := ConsumeCode(s, Email, t.email);
      ConsumeStep(s, Email, t.email, code);
      if !s.rows[t.sub].isEmailVerified {
        ChangeThenMintStep(s1, t.sub, s.rows[t.sub].(isEmailVerified := true), false);
        StepTransitive(s, s1, DoVerifyEmail(s, t.sub, t.email, code).0);
      }
    } else {
      StepReflexive(s);
    }
  }

  lemma ResendVerificationStep(s: State, email: string, code: string)
    requires Inv(s)
    ensures Step(s, DoResendVerification(s, email, code).0)
  {
    StepReflexive(s);
    hide Grows, Base, CoherentBut;
    SaveStep(s, Email, email, code);
  }

  lemma UpdateRoleStep(s: State, id: Id, role: UserType)
    requires Inv(s) && id in s.rows
    ensures Step(s, DoUpdateRole(s, id, role).0)
  {
    assert RowOk(s, id);
    assert s.rows[id].id == id;
    hide Grows, Base, CoherentBut;
    ChangeThenMintStep(s, id, s.rows[id].(userType := Some(role)), s.rows[id].twoFactorEnabled);
  }

  lemma EnableTwoFactorStep(s: State, id: Id, code: string)
    requires Inv(s) && id in s.rows
    ensures Step(s, DoEnableTwoFactor(s, id, code).0)
  {
    StepReflexive(s);
    hide Grows, Base, CoherentBut;
    SaveStep(s, TwoFactorEnable, id, code);
  }

  lemma ConfirmTwoFactorStep(s: State, id: Id, code: string)
    requires Inv(s) && id in s.rows
    ensures Step(s, DoConfirmTwoFactor(s, id, code).0)
  {
    assert RowOk(s, id);
    assert s.rows[id].id == id;
    hide Grows, Base, CoherentBut;
    if CodeMatches(s, TwoFactorEnable, id, code) {
      var s1 := ConsumeCode(s, TwoFactorEnable, id);
      ConsumeStep(s, TwoFactorEnable, id, code);
      ChangeThenMintStep(s1, id, s.rows[id].(twoFactorEnabled := true), true);
      StepTransitive(s, s1, DoConfirmTwoFactor(s, id, code).0);
    } else {
      StepReflexive(s);
    }
  }

  lemma VerifyTwoFactorStep(s: State, id: Id, code: string)
    requires Inv(s) && id in s.rows
    ensures Step(s, DoVerifyTwoFactor(s, id, code).0)
  {
    hide Grows, Base, CoherentBut;
    if CodeMatches(s, TwoFactor, id, code) {
      var s1 := ConsumeCode(s, TwoFactor, id);
      ConsumeStep(s, TwoFactor, id, code);
      MintStep(s1, id, true);
      StepTransitive(s, s1, DoVerifyTwoFactor(s, id, code).0);
    } else {
      StepReflexive(s);
    }
  }

  lemma DisableTwoFactorStep(s: State, id: Id, password: string)
    requires Inv(s) && id in s.rows
    ensures Step(s, DoDisableTwoFactor(s, id, password).0)
  {
    assert RowOk(s, id);
    assert s.rows[id].id == id;
    StepReflexive(s);
    hide Grows, Base, CoherentBut;
    ChangeThenMintStep(s, id, s.rows[id].(twoFactorEnabled := false), false);
  }

  lemma InitiateResetStep(s: State, email: string, code: string)
    requires Inv(s)
    ensures Step(s, DoInitiateReset(s, email, code).0)
  {
    var found := ByEmail(s.rows, email);
    StepReflexive(s);
    hide Grows, Base, CoherentBut;
    if found.Some? && s.rows[found.value].provider != Facebook {
      assert LocalEmail(s, email);
      SaveStep(s, Password, email, code);
    }
  }

  lemma VerifyResetCodeStep(s: State, email: string, code: string)
    requires Inv(s)
    ensures Step(s, DoVerifyResetCode(s, email, code).0)
  {
    hide Grows, Base, CoherentBut;
    if CodeMatches(s, Password, email, code) {
      var s1 := ConsumeCode(s, Password, email);
      ConsumeStep(s, Password, email, code);
      IssueResetKeeps(s1, email);
      StepTransitive(s, s1, IssueReset(s1, email));
    } else {
      StepReflexive(s);
    }
  }

  // A reset token names the address of a password account, whose row it rewrites.
  lemma CompleteResetStep(s: State, t: Token, password: string, confirm: string)
    requires Inv(s)
    ensures Step(s, DoCompleteReset(s, t, password, confirm).0)
  {
    StepReflexive(s);
    if password == confirm && Signed(s, t) && t.Reset? && ByEmail(s.rows, t.email).Some? {
      var id := ByEmail(s.rows, t.email).value;
      assert TokenOk(s, t) && LocalEmail(s, t.email) && RowOk(s, id) && Coherent(s, id);
      var row := s.rows[id].(password := password);
      assert s.rows[id].id == id && s.rows[id].provider == Local;
      hide Grows, Base;
      SetRowKeeps(s, id, row);
    }
  }

  lemma TickStep(s: State, seconds: nat)
    requires Inv(s)
    ensures Step(s, s.(now := s.now + seconds))
  {
    var s' := s.(now := s.now + seconds);
    hide GetKey;
    TokenOkGrows(s, s');
    ConsumedStaysLocal(s, s');
    assert forall id :: id in s.rows ==> RowOk(s, id) && Coherent(s, id);
  }

  // Every call, by anyone, with any token, keeps the invariant.
  lemma HandleStep(s: State, r: Request)
    requires Inv(s)
    ensures Step(s, Handle(s, r).0)
  {
    hide Inv, Grows, DoSignUp, DoLogin, DoFacebookAuth, DoRefresh, DoVerifyEmail, DoResendVerification, DoUpdateRole,
        DoEnableTwoFactor,
         DoConfirmTwoFactor, DoVerifyTwoFactor, DoDisableTwoFactor, DoInitiateReset, DoVerifyResetCode, DoCompleteReset;
    StepReflexive(s);
    match r
    case SignUp(email, password, confirm, newId, code) =>
      SignUpStep(s, email, password, confirm, newId, code);
    case Login(email, password, code) => LoginStep(s, email, password, code);
    case FacebookAuth(email, newId, password) => FacebookStep(s, email, newId, password);
    case Refresh(t) => RefreshStep(s, t);
    case VerifyEmail(t, code) =>
      if Admits(s, t, false) {
        VerifyEmailStep(s, t, code);
      }
    case ResendVerification(t, code) =>
      if Admits(s, t, false) {
        ResendVerificationStep(s, t.email, code);
      }
    case UpdateRole(t, role) =>
      if Admits(s, t, false) {
        UpdateRoleStep(s, t.sub, role);
      }
    case EnableTwoFactor(t, code) =>
      if Admits(s, t, false) {
        EnableTwoFactorStep(s, t.sub, code);
      }
    case ResendEnableCode(t, code) =>
      if Admits(s, t, false) {
        SaveStep(s, TwoFactorEnable, t.sub, code);
      }
    case ConfirmTwoFactor(t, code) =>
      if Admits(s, t, false) {
        ConfirmTwoFactorStep(s, t.sub, code);
      }
    case VerifyTwoFactor(t, code) =>
      if Admits(s, t, true) {
        VerifyTwoFactorStep(s, t.sub, code);
      }
    case ResendTwoFactorCode(t, code) =>
      if Admits(s, t, true) {
        SaveStep(s, TwoFactor, t.sub, code);
      }
    case DisableTwoFactor(t, password) =>
      if Admits(s, t, false) {
        DisableTwoFactorStep(s, t.sub, password);
      }
    case InitiateReset(email, code) => InitiateResetStep(s, email, code);
    case VerifyResetCode(email, code) => VerifyResetCodeStep(s, email, code);
    case CompleteReset(t, password, confirm) => CompleteResetStep(s, t, password, confirm);
    case Tick(seconds) => TickStep(s, seconds);
  }

  lemma {:induction false} RunStep(s: State, requests: seq<Request>)
    requires Inv(s)
    ensures Step(s, Run(s, requests))
    decreases |requests|
  {
    if requests == [] {
      StepReflexive(s);
    } else {
      var next := Handle(s, requests[0]).0;
      HandleStep(s, requests[0]);
      RunStep(next, requests[1..]);
      StepTransitive(s, next, Run(next, requests[1..]));
    }
  }

  lemma Reachable(now: nat, requests: seq<Request>)
    ensures Inv(Run(Init(now), requests))
  {
    RunStep(Init(now), requests);
  }
}
