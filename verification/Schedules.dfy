/**
 * Particular schedules of the interleaved calls: a call left alone performs one step of
 * Protocol, and two refresh calls side by side redeem one token twice.
 */
module Schedules {
  import opened Wrappers
  import opened Credentials
  import opened CodeStore
  import opened Users
  import opened Protocol
  import opened Interleaving

  // ---- Left alone, a call is one step of the protocol ----

  ghost function Alone(s: State, phase: Phase, n: nat, pick: bool): (State, Phase)
    decreases n
  {
    if n == 0 then (s, phase)
    else
      var (s', phase') := Next(s, phase, pick);
      Alone(s', phase', n - 1, pick)
  }

  lemma {:induction false} FinishedStays(s: State, response: Response, n: nat, pick: bool)
    ensures Alone(s, Finished(response), n, pick) == (s, Finished(response))
  {
    if n > 0 {
      FinishedStays(s, response, n - 1, pick);
    }
  }

  lemma OneStep(s: State, phase: Phase, n: nat, pick: bool)
    requires n > 0
    ensures Alone(s, phase, n, pick) == Alone(Next(s, phase, pick).0, Next(s, phase, pick).1, n - 1, pick)
  {
  }

  lemma NoStep(s: State, phase: Phase, pick: bool)
    ensures Alone(s, phase, 0, pick) == (s, phase)
  {
  }

  function Needed(g: Grant): nat {
    if g.mail.Some? then 4 else 3
  }

  // The three steps of createTokens, and the mail after them.
  lemma MintAlone(s: State, g: Grant, n: nat)
    requires n >= Needed(g) && g.id in s.rows
    ensures var (s', r) := MintTokens(s, g.id, g.email, g.verified, g.mfa);
            Alone(s, Mints(g), n, true) ==
            (if g.mail.Some? then SaveCode(s', Email, g.email, g.mail.value) else s', Finished(r))
  {
    hide Alone, SaveCode;
    var access, refresh := AccessToken(s, g.id, g.email, g.verified, g.mfa),
        RefreshToken(s, g.id, g.email, g.verified, g.mfa);
    var s1 := Issue(s, access);
    var s2 := Issue(s1, refresh);
    var s3 := Mint(s, g.id, g.email, g.verified, g.mfa);
    OneStep(s, Mints(g), n, true);
    OneStep(s1, Minting(g, Some(access), None), n - 1, true);
    OneStep(s2, Minting(g, Some(access), Some(refresh)), n - 2, true);
    assert s.issued + {access} + {refresh} == s.issued + {access, refresh};
    assert Next(s2, Minting(g, Some(access), Some(refresh)), true).0 == s3;
    if g.mail.Some? {
      var response := Tokens(access, refresh);
      OneStep(s3, Saving(Email, g.email, g.mail.value, response), n - 3, true);
      FinishedStays(SaveCode(s3, Email, g.email, g.mail.value), response, n - 4, true);
    } else {
      FinishedStays(s3, Tokens(access, refresh), n - 3, true);
    }
  }

  lemma CheckAlone(s: State, goal: Goal, code: string, n: nat)
    requires n >= 2
    ensures Alone(s, Checking(goal, code), n, true) ==
            if CodeMatches(s, Needs(goal).0, Needs(goal).1, code)
            then Alone(ConsumeCode(s, Needs(goal).0, Needs(goal).1), Accepted(goal), n - 2, true)
            else (s, REFUSED)
  {
    hide Alone, CodeMatches, Dropped;
    OneStep(s, Checking(goal, code), n, true);
    if CodeMatches(s, Needs(goal).0, Needs(goal).1, code) {
      OneStep(s.(consumed := s.consumed + {Needs(goal)}), Matched(goal), n - 1, true);
    } else {
      FinishedStays(s, Rejected, n - 1, true);
    }
  }

  // Any call but the passing of time.
  lemma Uninterrupted(s: State, r: Request, n: nat)
    requires n >= 10 && !r.Tick?
    ensures Alone(s, Start(r), n, true) == (Handle(s, r).0, Finished(Handle(s, r).1))
  {
    hide Alone, Handle;
    OneStep(s, Start(r), n, true);
    if Begin(s, r) == REFUSED {
      FinishedStays(s, Rejected, n - 1, true);
      RefusedAtStart(s, r);
    } else if Begin(s, r).Passed? {
      PassedAlone(s, r, n - 1);
    } else {
      OpenAlone(s, r, n - 1);
    }
  }

  lemma RefusedAtStart(s: State, r: Request)
    requires Begin(s, r) == REFUSED
    ensures Handle(s, r) == (s, Rejected)
  {
    hide GetKey, ClaimsValid, Matches, Mint;
  }

  lemma OpenAlone(s: State, r: Request, n: nat)
    requires n >= 9 && !r.Tick? && Begin(s, r) != REFUSED && !Begin(s, r).Passed?
    ensures Alone(s, Begin(s, r), n, true) == (Handle(s, r).0, Finished(Handle(s, r).1))
  {
    hide Alone, Mint, AccessToken, RefreshToken, CodeMatches, Dropped, Saved, ClaimsValid;
    if r.InitiateReset? || r.VerifyResetCode? {
      ResetAlone(s, r, n);
      return;
    }
    if r.CompleteReset? {
      CompleteResetAlone(s, r, n);
      return;
    }
    OneStep(s, Begin(s, r), n, true);
    match r
    case SignUp(_, _, _, _, _) =>
      CreationAlone(s, r, n);
    case FacebookAuth(_, _, _) =>
      CreationAlone(s, r, n);
    case Login(email, _, code) =>
      var id := ByEmail(s.rows, email).value;
      var grant := Grant(id, s.rows[id].email, s.rows[id].isEmailVerified, false, None);
      if s.rows[id].twoFactorEnabled {
        MintAlone(SaveCode(s, TwoFactor, id, code), grant, n - 1);
      } else {
        MintAlone(s, grant, n);
      }
  }

  lemma ResetAlone(s: State, r: Request, n: nat)
    requires n >= 9 && (r.InitiateReset? || r.VerifyResetCode?) && Begin(s, r) != REFUSED
    ensures Alone(s, Begin(s, r), n, true) == (Handle(s, r).0, Finished(Handle(s, r).1))
  {
    hide DoSignUp, DoLogin, DoFacebookAuth, DoRefresh, MintTokens, Verifies;
    hide Alone, Mint, AccessToken, RefreshToken, CodeMatches, Dropped, Saved, ClaimsValid;
    OneStep(s, Begin(s, r), n, true);
    match r
    case InitiateReset(email, code) =>
      FinishedStays(SaveCode(s, Password, email, code), Done(true), n - 1, true);
    case VerifyResetCode(email, code) =>
      CheckAlone(s, GrantReset(email), code, n);
      var s1 := ConsumeCode(s, Password, email);
      OneStep(s1, Accepted(GrantReset(email)), n - 2, true);
      FinishedStays(IssueReset(s1, email), ResetGranted(ResetTokenFor(s1, email)), n - 3, true);
  }

  lemma CompleteResetAlone(s: State, r: Request, n: nat)
    requires n >= 9 && r.CompleteReset? && Begin(s, r) != REFUSED
    ensures Alone(s, Begin(s, r), n, true) == (Handle(s, r).0, Finished(Handle(s, r).1))
  {
    hide Alone;
    OneStep(s, Begin(s, r), n, true);
    var t, password := r.resetToken, r.newPassword;
    if ByEmail(s.rows, t.email).Some? {
      var id := ByEmail(s.rows, t.email).value;
      OneStep(s, SettingPassword(id, password), n - 1, true);
      FinishedStays(SetRow(s, id, s.rows[id].(password := password)), Done(true), n - 2, true);
    } else {
      FinishedStays(s, Rejected, n - 1, true);
    }
  }

  lemma CreationAlone(s: State, r: Request, n: nat)
    requires n >= 9 && (r.SignUp? || r.FacebookAuth?) && Begin(s, r) != REFUSED
    ensures Alone(s, Begin(s, r), n, true) == (Handle(s, r).0, Finished(Handle(s, r).1))
  {
    hide Alone, Mint, AccessToken, RefreshToken, CodeMatches, Dropped, Saved, ClaimsValid;
    OneStep(s, Begin(s, r), n, true);
    match r
    case SignUp(email, password, _, newId, code) =>
      var row := NewRow(newId, email, password, Local, false);
      if Creatable(s, newId, email) {
        MintAlone(Create(s, row), FromRow(row, false).(mail := Some(code)), n - 1);
      } else {
        FinishedStays(s, Rejected, n - 1, true);
      }
    case FacebookAuth(email, newId, password) =>
      if ByEmail(s.rows, email).Some? {
        var id := ByEmail(s.rows, email).value;
        MintAlone(s, Grant(id, s.rows[id].email, true, false, None), n);
      } else if Creatable(s, newId, email) {
        var row := NewRow(newId, email, password, Facebook, true);
        MintAlone(Create(s, row), FromRow(row, false), n - 1);
      } else {
        FinishedStays(s, Rejected, n - 1, true);
      }
  }

  lemma PassedAlone(s: State, r: Request, n: nat)
    requires n >= 9 && Begin(s, r) == Passed(r)
    ensures Alone(s, Passed(r), n, true) == (Handle(s, r).0, Finished(Handle(s, r).1))
  {
    hide Alone, Mint, AccessToken, RefreshToken, CodeMatches, Dropped, Saved, ClaimsValid, Signed;
    OneStep(s, Passed(r), n, true);
    if Enter(s, r).Checking? {
      CodeCallAlone(s, r, n - 1);
      return;
    }
    if r.EnableTwoFactor? || r.ResendEnableCode? || r.ResendTwoFactorCode? {
      SendAlone(s, r, n - 1);
      return;
    }
    if r.UpdateRole? || r.DisableTwoFactor? {
      ChangeAlone(s, r, n - 1);
      return;
    }
    match r
    case Refresh(t) =>
      MintAlone(s, Grant(t.sub, t.email, t.isEmailVerified, t.twoFactorEnabled && t.twoFactorVerified, None), n - 1);
    case ResendVerification(t, code) =>
      OneStep(s, Resending(t.email, code), n - 1, true);
      if ByEmail(s.rows, t.email).Some? && !s.rows[ByEmail(s.rows, t.email).value].isEmailVerified {
        OneStep(s, Saving(Email, t.email, code, Done(true)), n - 2, true);
        FinishedStays(SaveCode(s, Email, t.email, code), Done(true), n - 3, true);
      } else {
        FinishedStays(s, Rejected, n - 2, true);
      }
  }

  lemma ChangeAlone(s: State, r: Request, n: nat)
    requires n >= 8 && Begin(s, r) == Passed(r) && (r.UpdateRole? || r.DisableTwoFactor?)
    ensures Alone(s, Enter(s, r), n, true) == (Handle(s, r).0, Finished(Handle(s, r).1))
  {
    hide Alone, Mint, AccessToken, RefreshToken, ClaimsValid, Signed;
    match r
    case UpdateRole(t, role) =>
      var row := s.rows[t.sub].(userType := Some(role));
      OneStep(s, ChangingRole(t.sub, role), n, true);
      MintAlone(SetRow(s, t.sub, row), Grant(t.sub, row.email, row.isEmailVerified, row.twoFactorEnabled, None), n - 1);
    case DisableTwoFactor(t, password) =>
      var row := s.rows[t.sub].(twoFactorEnabled := false);
      OneStep(s, Disabling(t.sub, password, row.email, row.isEmailVerified), n, true);
      if row.password == password {
        OneStep(s, TurningOff(t.sub, row.email, row.isEmailVerified), n - 1, true);
        MintAlone(SetRow(s, t.sub, row), Grant(t.sub, row.email, row.isEmailVerified, false, None), n - 2);
      } else {
        FinishedStays(s, Rejected, n - 1, true);
      }
  }

  lemma SendAlone(s: State, r: Request, n: nat)
    requires n >= 7 && Begin(s, r) == Passed(r) && (r.EnableTwoFactor? || r.ResendEnableCode? || r.ResendTwoFactorCode?)
    ensures Alone(s, Enter(s, r), n, true) == (Handle(s, r).0, Finished(Handle(s, r).1))
  {
    hide Alone, ClaimsValid, Signed, Saved;
    var kind := if r.ResendTwoFactorCode? then TwoFactor else TwoFactorEnable;
    OneStep(s, Enter(s, r), n, true);
    FinishedStays(s, Rejected, n, true);
    FinishedStays(SaveCode(s, kind, r.token.sub, r.code), Done(true), n - 1, true);
  }

  lemma CodeCallAlone(s: State, r: Request, n: nat)
    requires n >= 8 && Begin(s, r) == Passed(r) && Enter(s, r).Checking?
    ensures Alone(s, Enter(s, r), n, true) == (Handle(s, r).0, Finished(Handle(s, r).1))
  {
    hide Alone, Mint, AccessToken, RefreshToken, CodeMatches, Dropped, ClaimsValid, Signed;
    var id := r.token.sub;
    match r
    case VerifyEmail(t, code) =>
      CheckAlone(s, VerifyAddress(id, t.email), code, n);
      if CodeMatches(s, Email, t.email, code) {
        var s1 := ConsumeCode(s, Email, t.email);
        OneStep(s1, Accepted(VerifyAddress(id, t.email)), n - 2, true);
        if ByEmail(s.rows, t.email).None? {
          FinishedStays(s1, Rejected, n - 3, true);
        } else {
          var owner := ByEmail(s.rows, t.email).value;
          var s2 := SetRow(s1, owner, s.rows[owner].(isEmailVerified := true));
          OneStep(s1, Verifying(owner, id, t.email), n - 3, true);
          MintAlone(s2, Grant(id, t.email, true, false, None), n - 4);
          FinishedStays(s1, Done(false), n - 3, true);
        }
      }
    case ConfirmTwoFactor(t, code) =>
      var row := s.rows[id].(twoFactorEnabled := true);
      CheckAlone(s, TurnOn(id, row.email, row.isEmailVerified), code, n);
      if CodeMatches(s, TwoFactorEnable, id, code) {
        var s1 := ConsumeCode(s, TwoFactorEnable, id);
        OneStep(s1, Accepted(TurnOn(id, row.email, row.isEmailVerified)), n - 2, true);
        MintAlone(SetRow(s1, id, row), Grant(id, row.email, row.isEmailVerified, true, None), n - 3);
      }
    case VerifyTwoFactor(t, code) =>
      CheckAlone(s, GrantSecondFactor(id), code, n);
      if CodeMatches(s, TwoFactor, id, code) {
        var s1 := ConsumeCode(s, TwoFactor, id);
        OneStep(s1, Accepted(GrantSecondFactor(id)), n - 2, true);
        MintAlone(s1, Grant(id, s.rows[id].email, s.rows[id].isEmailVerified, true, None), n - 3);
      }
  }

  function Turns(call: nat, n: nat, pick: bool): (moves: seq<Move>)
    ensures |moves| == n
  {
    seq(n, _ => Advance(call, pick))
  }

  lemma {:induction false} TurnsAlone(m: Machine, call: nat, n: nat, pick: bool)
    requires call in m.calls
    ensures var (s', phase) := Alone(m.s, m.calls[call], n, pick);
            Play(m, Turns(call, n, pick)) == Machine(s', m.calls[call := phase])
    decreases n
  {
    hide Next;
    if n == 0 {
      assert m.calls[call := m.calls[call]] == m.calls;
    } else {
      assert Turns(call, n, pick)[1..] == Turns(call, n - 1, pick);
      var next := Take(m, Advance(call, pick));
      TurnsAlone(next, call, n - 1, pick);
      var phase := Alone(m.s, m.calls[call], n, pick).1;
      assert next.calls[call := phase] == m.calls[call := phase];
    }
  }

  // ---- The same with the refresh token minted first ----

  // The outcome of a call with the numbers of the two tokens it hands out exchanged.
  function Exchanged(s: State, next: (State, Response)): (State, Response) {
    var (s', r) := next;
    if !r.Tokens? || !r.refresh.Session? || r.refresh.sub !in s'.rows then next
    else
      var access, refresh := r.access.(jti := r.refresh.jti), r.refresh.(jti := r.access.jti);
      var row := s'.rows[refresh.sub].(refreshToken := Some(refresh));
      (s'.(rows := s'.rows[refresh.sub := row], issued := s.issued + {access, refresh}), Tokens(access, refresh))
  }

  lemma MintOther(s: State, g: Grant, n: nat)
    requires n >= Needed(g) && g.id in s.rows
    ensures var (s', r) := Exchanged(s, MintTokens(s, g.id, g.email, g.verified, g.mfa));
            Alone(s, Mints(g), n, false) ==
            (if g.mail.Some? then SaveCode(s', Email, g.email, g.mail.value) else s', Finished(r))
  {
    hide Alone, SaveCode, Exchanged, MintTokens, NewToken;
    var refresh := NewToken(s, g.id, g.email, g.verified, g.mfa, s.nextJti, 7 * SECONDS_PER_DAY);
    var access := NewToken(s, g.id, g.email, g.verified, g.mfa, s.nextJti + 1, SECONDS_PER_DAY);
    var s1 := Issue(s, refresh);
    var s2 := Issue(s1, access);
    var s3 := SetRow(s2, g.id, Stored(s2.rows[g.id], Some(refresh), s2.now));
    SameToken(s, s1, g, s.nextJti + 1, SECONDS_PER_DAY);
    OneStep(s, Mints(g), n, false);
    OneStep(s1, Minting(g, None, Some(refresh)), n - 1, false);
    OneStep(s2, Minting(g, Some(access), Some(refresh)), n - 2, false);
    OtherStore(s, g);
    if g.mail.Some? {
      var response := Tokens(access, refresh);
      OneStep(s3, Saving(Email, g.email, g.mail.value, response), n - 3, false);
      FinishedStays(SaveCode(s3, Email, g.email, g.mail.value), response, n - 4, false);
    } else {
      FinishedStays(s3, Tokens(access, refresh), n - 3, false);
    }
  }

  lemma SameToken(s: State, s': State, g: Grant, jti: nat, lifetime: int)
    requires s'.rows == s.rows && s'.now == s.now && g.id in s.rows
    ensures NewToken(s', g.id, g.email, g.verified, g.mfa, jti, lifetime) ==
            NewToken(s, g.id, g.email, g.verified, g.mfa, jti, lifetime)
  {
  }

  lemma OtherStore(s: State, g: Grant)
    requires g.id in s.rows
    ensures var refresh := NewToken(s, g.id, g.email, g.verified, g.mfa, s.nextJti, 7 * SECONDS_PER_DAY);
            var access := NewToken(s, g.id, g.email, g.verified, g.mfa, s.nextJti + 1, SECONDS_PER_DAY);
            var s2 := Issue(Issue(s, refresh), access);
            Exchanged(s, MintTokens(s, g.id, g.email, g.verified, g.mfa)) ==
            (SetRow(s2, g.id, Stored(s2.rows[g.id], Some(refresh), s2.now)), Tokens(access, refresh))
  {
    var refresh := NewToken(s, g.id, g.email, g.verified, g.mfa, s.nextJti, 7 * SECONDS_PER_DAY);
    var access := NewToken(s, g.id, g.email, g.verified, g.mfa, s.nextJti + 1, SECONDS_PER_DAY);
    var s2 := Issue(Issue(s, refresh), access);
    var next := Exchanged(s, MintTokens(s, g.id, g.email, g.verified, g.mfa));
    assert s2.issued == s.issued + {access, refresh};
    assert next.1 == Tokens(access, refresh);
    assert next.0.rows == s2.rows[g.id := Stored(s2.rows[g.id], Some(refresh), s2.now)];
    assert next.0 == SetRow(s2, g.id, Stored(s2.rows[g.id], Some(refresh), s2.now));
  }

  // A call that finishes by minting had the time to.
  lemma MintTakes(s: State, g: Grant, n: nat)
    requires g.id in s.rows && Alone(s, Mints(g), n, true).1.Finished?
    ensures n >= Needed(g)
  {
    hide SaveCode, NewToken;
    if n > 0 {
      var (s1, p1) := Next(s, Mints(g), true);
      OneStep(s, Mints(g), n, true);
      if n > 1 {
        var (s2, p2) := Next(s1, p1, true);
        OneStep(s1, p1, n - 1, true);
        if n > 2 {
          OneStep(s2, p2, n - 2, true);
          NoStep(Next(s2, p2, true).0, Next(s2, p2, true).1, true);
        } else {
          NoStep(s2, p2, true);
        }
      } else {
        NoStep(s1, p1, true);
      }
    }
  }

  // Neither token of the pair is minted yet.
  predicate Early(phase: Phase) {
    match phase
    case Minting(_, access, refresh) => access.None? && refresh.None?
    case Finished(r) => !r.Tokens?
    case Saving(_, _, _, r) => !r.Tokens?
    case _ => true
  }

  // Until then there is no order to choose, and nothing is minted but a reset token, at the end.
  lemma EarlyStep(s: State, phase: Phase)
    requires Early(phase) && !phase.Minting?
    ensures var (s', phase') := Next(s, phase, true);
            && Next(s, phase, false) == (s', phase') && Early(phase')
            && (s'.issued == s.issued || phase'.Finished?)
  {
    hide Verifies, CodeMatches, Creatable, Signed;
  }

  // The outcome in the other order, for any call that finishes.
  lemma {:induction false} OtherOrder(s: State, phase: Phase, n: nat)
    requires Early(phase) && Alone(s, phase, n, true).1.Finished?
    ensures var (s', phase') := Alone(s, phase, n, true);
            var next := Exchanged(s, (s', phase'.response));
            Alone(s, phase, n, false) == (next.0, Finished(next.1))
    decreases n
  {
    if phase.Finished? {
      FinishedStays(s, phase.response, n, true);
      FinishedStays(s, phase.response, n, false);
    } else if phase.Minting? {
      MintingOtherOrder(s, phase.grant, n);
    } else {
      hide Next, Early, MintTokens;
      var (s1, phase1) := Next(s, phase, true);
      EarlyStep(s, phase);
      OneStep(s, phase, n, true);
      OneStep(s, phase, n, false);
      OtherOrder(s1, phase1, n - 1);
      if phase1.Finished? {
        FinishedStays(s1, phase1.response, n - 1, true);
        NoTokens(phase1);
      }
    }
  }

  lemma NoTokens(phase: Phase)
    requires Early(phase) && phase.Finished?
    ensures !phase.response.Tokens?
  {
  }

  lemma MintingOtherOrder(s: State, g: Grant, n: nat)
    requires Alone(s, Mints(g), n, true).1.Finished?
    ensures var (s', phase') := Alone(s, Mints(g), n, true);
            var next := Exchanged(s, (s', phase'.response));
            Alone(s, Mints(g), n, false) == (next.0, Finished(next.1))
  {
    if g.id in s.rows {
      MintTakes(s, g, n);
      MintAlone(s, g, n);
      MintOther(s, g, n);
      hide Alone, AccessToken, NewToken, Saved;
    } else {
      hide Alone;
      NoStep(s, Mints(g), true);
      OneStep(s, Mints(g), n, true);
      OneStep(s, Mints(g), n, false);
      FinishedStays(s, Rejected, n - 1, true);
      FinishedStays(s, Rejected, n - 1, false);
    }
  }

  // A call that arrives and runs with nobody in between leaves the state and gives the answer
  // of one step of the protocol, whichever of its two tokens it mints first: the other order only
  // exchanges their numbers. So the atomic runs are among the interleaved ones.
  lemma AtomicIsProtocol(m: Machine, call: nat, r: Request, n: nat, pick: bool)
    requires call !in m.calls && n >= 10 && !r.Tick?
    ensures var (s', response) := if pick then Handle(m.s, r) else Exchanged(m.s, Handle(m.s, r));
            Play(m, [Arrive(call, r)] + Turns(call, n, pick)) == Machine(s', m.calls[call := Finished(response)])
  {
    hide Handle, Next, Alone, Exchanged;
    var first := m.(calls := m.calls[call := Start(r)]);
    assert ([Arrive(call, r)] + Turns(call, n, pick))[1..] == Turns(call, n, pick);
    TurnsAlone(first, call, n, pick);
    Uninterrupted(m.s, r, n);
    if !pick {
      OtherOrder(m.s, Start(r), n);
    }
    var done := Alone(m.s, Start(r), n, pick).1;
    assert first.calls[call := done] == m.calls[call := done];
  }

  lemma {:induction false} PlayAppend(m: Machine, first: seq<Move>, second: seq<Move>)
    ensures Play(m, first + second) == Play(Play(m, first), second)
    decreases |first|
  {
    if first == [] {
      assert first + second == second;
    } else {
      assert (first + second)[1..] == first[1..] + second;
      PlayAppend(Take(m, first[0]), first[1..], second);
    }
  }

  // Two refresh calls arrive and both make their two checks before either mints.
  function Race(a: nat, b: nat, t: Token): seq<Move> {
    [Arrive(a, Refresh(t)), Arrive(b, Refresh(t))] + Turns(a, 2, true) + Turns(b, 2, true)
  }

  lemma BothCheck(m: Machine, t: Token, a: nat, b: nat)
    requires Verifies(m.s, t, true) && a !in m.calls && b !in m.calls && a != b
    ensures var ready := Mints(Grant(t.sub, t.email, t.isEmailVerified, t.twoFactorEnabled &&
            t.twoFactorVerified, None));
            Play(m, Race(a, b, t)) == m.(calls := m.calls[a := ready][b := ready])
  {
    hide Verifies, Play;
    var start, ready := Start(Refresh(t)), Enter(m.s, Refresh(t));
    var m1 := m.(calls := m.calls[a := start][b := start]);
    ArriveBoth(m, Refresh(t), a, b);
    CheckTwice(m.s, t);
    PlayAppend(m, [Arrive(a, Refresh(t)), Arrive(b, Refresh(t))] + Turns(a, 2, true), Turns(b, 2, true));
    PlayAppend(m, [Arrive(a, Refresh(t)), Arrive(b, Refresh(t))], Turns(a, 2, true));
    TurnsAlone(m1, a, 2, true);
    TurnsAlone(m1.(calls := m1.calls[a := ready]), b, 2, true);
    assert m1.calls[a := ready][b := ready] == m.calls[a := ready][b := ready];
  }

  lemma ArriveBoth(m: Machine, r: Request, a: nat, b: nat)
    requires a !in m.calls && b !in m.calls && a != b
    ensures Play(m, [Arrive(a, r), Arrive(b, r)]) == m.(calls := m.calls[a := Start(r)][b := Start(r)])
  {
    var moves := [Arrive(a, r), Arrive(b, r)];
    assert moves[1..] == [Arrive(b, r)] && moves[1..][1..] == [];
    var m1 := Take(m, moves[0]);
    assert Play(m1, moves[1..]) == Play(Take(m1, Arrive(b, r)), []);
  }

  lemma CheckTwice(s: State, t: Token)
    requires Verifies(s, t, true)
    ensures Alone(s, Start(Refresh(t)), 2, true) == (s, Enter(s, Refresh(t)))
  {
    hide Alone;
    OneStep(s, Start(Refresh(t)), 2, true);
    OneStep(s, Passed(Refresh(t)), 1, true);
    NoStep(s, Enter(s, Refresh(t)), true);
  }

  // So single use needs atomicity: in every state reached by any interleaving, two calls that
  // present the same accepted, unexpired refresh token can both be handed tokens. The refresh
  // token of the first is then already dead.
  lemma DoubleRedemption(m: Machine, t: Token, a: nat, b: nat)
    requires Safe(m) && Verifies(m.s, t, true) && a !in m.calls && b !in m.calls && a != b
    ensures var m' := Play(m, Race(a, b, t) + Turns(a, 4, true) + Turns(b, 4, true));
            && a in m'.calls && m'.calls[a].Finished? && m'.calls[a].response.Tokens?
            && b in m'.calls && m'.calls[b].Finished? && m'.calls[b].response.Tokens?
            && !Current(m'.s, t) && !Current(m'.s, m'.calls[a].response.refresh) &&
                 Current(m'.s, m'.calls[b].response.refresh)
  {
    hide Play, Alone, Safe;
    var grant := Grant(t.sub, t.email, t.isEmailVerified, t.twoFactorEnabled && t.twoFactorVerified, None);
    var m1 := m.(calls := m.calls[a := Mints(grant)][b := Mints(grant)]);
    PlayAppend(m, Race(a, b, t) + Turns(a, 4, true), Turns(b, 4, true));
    PlayAppend(m, Race(a, b, t), Turns(a, 4, true));
    BothCheck(m, t, a, b);
    TurnsAlone(m1, a, 4, true);
    MintAlone(m.s, grant, 4);
    var m2 := Play(m1, Turns(a, 4, true));
    TurnsAlone(m2, b, 4, true);
    MintAlone(m2.s, grant, 4);
    Numbered(m, t);
  }

  lemma Numbered(m: Machine, t: Token)
    requires Safe(m) && t in m.s.issued
    ensures t.jti < m.s.nextJti
  {
    TokenFacts(m.s, t);
  }
}
