/**
 * Which call may change which part of an account, with calls interleaved at their awaits. The
 * ledger notes, for each call, the request it arrived as, the state its first step saw, and the
 * state in which its code or password was compared; every later write is traced back to it.
 */
module Provenance {
  import opened Wrappers
  import opened Credentials
  import opened CodeStore
  import opened Users
  import opened Protocol
  import opened Safety
  import opened Authority
  import opened Interleaving

  datatype Record = Record(request: Request, begun: State, checked: Option<State>)

  type Ledger = map<nat, Record>

  // ---- Keeping the ledger ----

  function NoteStep(s: State, record: Record, phase: Phase): Record {
    match phase
    case Start(r) => Record(r, s, None)
    case Checking(_, _) => record.(checked := Some(s))
    case Disabling(_, _, _, _) => record.(checked := Some(s))
    case _ => record
  }

  function Note(m: Machine, ledger: Ledger, move: Move): Ledger {
    if move.Advance? && move.call in m.calls && (m.calls[move.call].Start? || move.call in ledger) then
      var blank := Record(Tick(0), m.s, None);
      var record := if move.call in ledger then ledger[move.call] else blank;
      ledger[move.call := NoteStep(m.s, record, m.calls[move.call])]
    else ledger
  }

  ghost function Notes(m: Machine, ledger: Ledger, moves: seq<Move>): Ledger
    decreases |moves|
  {
    if moves == [] then ledger else Notes(Take(m, moves[0]), Note(m, ledger, moves[0]), moves[1..])
  }

  // ---- What the ledger says of a call in each phase ----

  // The code the call presented was the live one when it was compared.
  predicate CheckedOut(record: Record, goal: Goal) {
    && record.checked.Some?
    && match record.request
       case VerifyEmail(_, code) => CodeMatches(record.checked.value, Needs(goal).0, Needs(goal).1, code)
       case ConfirmTwoFactor(_, code) => CodeMatches(record.checked.value, Needs(goal).0, Needs(goal).1, code)
       case VerifyTwoFactor(_, code) => CodeMatches(record.checked.value, Needs(goal).0, Needs(goal).1, code)
       case VerifyResetCode(_, code) => CodeMatches(record.checked.value, Needs(goal).0, Needs(goal).1, code)
       case _ => false
  }

  predicate Acted(record: Record, id: Id) {
    ActsFor(record.begun, record.request, id)
  }

  predicate GoalFrom(record: Record, goal: Goal) {
    match goal
    case VerifyAddress(sub, email) =>
      record.request.VerifyEmail? && Acted(record, sub) && record.request.token.email == email
    case TurnOn(id, _, _) => record.request.ConfirmTwoFactor? && Acted(record, id)
    case GrantSecondFactor(id) =>
      record.request.VerifyTwoFactor? && Admits(record.begun, record.request.token, true) &&
          record.request.token.sub == id
    case GrantReset(email) => record.request.VerifyResetCode? && record.request.email == email
  }

  // How the caller earned tokens for this account, and a second-factor claim in them.
  ghost predicate GrantFrom(record: Record, g: Grant) {
    var s := record.begun;
    && (match record.request
        case SignUp(email, password, confirm, newId, _) =>
          g.id == newId && g.email == email && ByEmail(s.rows, email).None? && password == confirm
        case Login(email, password, _) => g.id in s.rows && s.rows[g.id].email == email &&
            s.rows[g.id].password == password
        case FacebookAuth(email, newId, _) =>
          || (g.id in s.rows && s.rows[g.id].email == email && s.rows[g.id].provider == Facebook)
          || (g.id == newId && g.email == email && ByEmail(s.rows, email).None?)
        case Refresh(t) => Verifies(s, t, true) && t.sub == g.id
        case VerifyTwoFactor(_, _) =>
          GoalFrom(record, GrantSecondFactor(g.id)) && CheckedOut(record, GrantSecondFactor(g.id))
        case _ => Acted(record, g.id))
    && (g.mfa ==> record.request.VerifyTwoFactor? ||
                  (Acting(record.request).Some? && Admits(s, Acting(record.request).value, false)))
  }

  ghost predicate RowFrom(record: Record, row: Row) {
    && GrantFrom(record, FromRow(row, false))
    && (record.request.SignUp? || (record.request.FacebookAuth? && ByEmail(record.begun.rows, row.email).None?))
  }

  // A reset token for this address, signed when the call began, and the password it brings.
  predicate ResetFrom(record: Record, email: string, password: string) {
    var r := record.request;
    r.CompleteReset? && Signed(record.begun, r.resetToken) && r.resetToken.Reset? && r.resetToken.email == email &&
    r.newPassword == r.confirmPassword == password
  }

  predicate PassedFrom(record: Record) {
    var s := record.begun;
    match record.request
    case Refresh(t) => Verifies(s, t, true)
    case VerifyTwoFactor(t, _) => Admits(s, t, true)
    case ResendTwoFactorCode(t, _) => Admits(s, t, true)
    case r => Acting(r).Some? && Admits(s, Acting(r).value, false)
  }

  predicate PasswordKnown(record: Record, id: Id) {
    record.request.DisableTwoFactor? && record.checked.Some? && id in record.checked.value.rows &&
    record.checked.value.rows[id].password == record.request.password
  }

  ghost predicate From(s: State, record: Record, phase: Phase) {
    match phase
    case Passed(r) => r == record.request && PassedFrom(record)
    case Inserting(row, _) => RowFrom(record, row)
    case Checking(goal, code) => GoalFrom(record, goal) && HasCode(record.request, code)
    case Matched(goal) => GoalFrom(record, goal) && CheckedOut(record, goal)
    case Accepted(goal) => GoalFrom(record, goal) && CheckedOut(record, goal)
    case Verifying(_, sub, email) =>
      GoalFrom(record, VerifyAddress(sub, email)) && CheckedOut(record, VerifyAddress(sub, email))
    case SavingFor(grant, _) => GrantFrom(record, grant)
    case ChangingRole(id, role) => record.request.UpdateRole? && Acted(record, id) && record.request.role == role
    case Disabling(id, password, _, _) =>
      record.request.DisableTwoFactor? && Acted(record, id) && record.request.password == password
    case TurningOff(id, _, _) => Acted(record, id) && PasswordKnown(record, id)
    case Resetting(email, password) => ResetFrom(record, email, password)
    case SettingPassword(id, password) => id in s.rows && ResetFrom(record, s.rows[id].email, password)
    case Minting(grant, _, _) => GrantFrom(record, grant)
    case _ => true
  }

  predicate HasCode(r: Request, code: string) {
    (r.VerifyEmail? || r.ConfirmTwoFactor? || r.VerifyTwoFactor? || r.VerifyResetCode?) && r.code == code
  }

  ghost predicate LedgerOk(m: Machine, ledger: Ledger) {
    forall c :: c in m.calls && !m.calls[c].Start? ==> c in ledger && From(m.s, ledger[c], m.calls[c])
  }

  // ---- The ledger stays right ----

  lemma FromStays(s: State, s': State, record: Record, phase: Phase)
    requires From(s, record, phase) && Onward(s, s')
    ensures From(s', record, phase)
  {
    hide GrantFrom, GoalFrom, CheckedOut, Signed, Acted, PassedFrom;
    if phase.SettingPassword? {
      assert RowGrows(s.rows[phase.id], s'.rows[phase.id]);
    }
  }

  lemma BeginFrom(s: State, r: Request)
    ensures From(s, Record(r, s, None), Begin(s, r))
  {
    hide ClaimsValid, CodeMatches;
  }

  lemma EnterFrom(s: State, record: Record, r: Request)
    requires From(s, record, Passed(r))
    ensures From(s, record, Enter(s, r))
  {
    hide ClaimsValid, Signed, CodeMatches, ByEmail;
  }

  lemma ProceedFrom(s: State, record: Record, goal: Goal)
    requires From(s, record, Accepted(goal))
    ensures From(Proceed(s, goal).0, record, Proceed(s, goal).1)
  {
    hide Verifies, CodeMatches;
  }

  lemma MintFrom(s: State, record: Record, phase: Phase, pick: bool)
    requires phase.Minting? && From(s, record, phase)
    ensures From(Next(s, phase, pick).0, record, Next(s, phase, pick).1)
  {
    hide GrantFrom, NewToken;
  }

  // After a rewrite of the row the call goes on to mint.
  lemma RewriteFrom(s: State, record: Record, phase: Phase)
    requires From(s, record, phase) && (phase.Verifying? || phase.ChangingRole? || phase.TurningOff?)
    ensures From(Next(s, phase, false).0, record, Next(s, phase, false).1)
  {
    hide Verifies, CodeMatches;
  }

  // The code or password is compared: the ledger notes the state.
  lemma CompareFrom(s: State, record: Record, phase: Phase)
    requires From(s, record, phase) && (phase.Checking? || phase.Disabling?)
    ensures From(Next(s, phase, false).0, NoteStep(s, record, phase), Next(s, phase, false).1)
  {
    hide Verifies, CodeMatches;
  }

  lemma OtherFrom(s: State, record: Record, phase: Phase)
    requires From(s, record, phase)
    requires phase.Inserting? || phase.Matched? || phase.Resending? || phase.Saving? || phase.SavingFor? ||
             phase.Resetting? || phase.SettingPassword? || phase.Finished?
    ensures From(Next(s, phase, false).0, record, Next(s, phase, false).1)
  {
    hide Verifies, CodeMatches, Signed, Acted;
  }

  lemma NextFrom(s: State, record: Record, phase: Phase, pick: bool)
    requires From(s, record, phase) && !phase.Start?
    ensures var (s', phase') := Next(s, phase, pick);
            From(s', NoteStep(s, record, phase), phase')
  {
    hide From, CodeMatches, Proceed, Enter, MintSome, Begin;
    match phase
    case Passed(r) => EnterFrom(s, record, r);
    case Accepted(goal) => ProceedFrom(s, record, goal);
    case Minting(_, _, _) => MintFrom(s, record, phase, pick);
    case Verifying(_, _, _) => RewriteFrom(s, record, phase);
    case ChangingRole(_, _) => RewriteFrom(s, record, phase);
    case TurningOff(_, _, _) => RewriteFrom(s, record, phase);
    case Checking(_, _) => CompareFrom(s, record, phase);
    case Disabling(_, _, _, _) => CompareFrom(s, record, phase);
    case _ => OtherFrom(s, record, phase);
  }

  lemma NoteKeeps(m: Machine, ledger: Ledger, move: Move)
    requires Safe(m) && LedgerOk(m, ledger)
    ensures LedgerOk(Take(m, move), Note(m, ledger, move))
  {
    hide Base, Next, Onward, PhaseOk, From;
    TakeKeeps(m, move);
    var m', ledger' := Take(m, move), Note(m, ledger, move);
    forall c | c in m'.calls && !m'.calls[c].Start? ensures c in ledger' && From(m'.s, ledger'[c], m'.calls[c]) {
      if move.Advance? && c == move.call {
        if m.calls[c].Start? {
          StartFrom(m.s, m.calls[c].request, move.pick);
        } else {
          NextFrom(m.s, ledger[c], m.calls[c], move.pick);
        }
      } else {
        FromStays(m.s, m'.s, ledger[c], m.calls[c]);
      }
    }
  }

  lemma StartFrom(s: State, r: Request, pick: bool)
    ensures var (s', phase') := Next(s, Start(r), pick);
            From(s', Record(r, s, None), phase')
  {
    BeginFrom(s, r);
  }

  lemma {:induction false} NotesKeep(m: Machine, ledger: Ledger, moves: seq<Move>)
    requires Safe(m) && LedgerOk(m, ledger)
    ensures Safe(Play(m, moves)) && LedgerOk(Play(m, moves), Notes(m, ledger, moves))
    decreases |moves|
  {
    hide Safe, LedgerOk, Take, Note;
    if moves != [] {
      TakeKeeps(m, moves[0]);
      NoteKeeps(m, ledger, moves[0]);
      NotesKeep(Take(m, moves[0]), Note(m, ledger, moves[0]), moves[1..]);
    }
  }

  // ---- Every write is authorised ----

  // How a call with this record may change the row of id in its next step.
  ghost predicate ChangeFrom(record: Record, phase: Phase, id: Id, row: Row, row': Row) {
    var r := record.request;
    && row' == row.(password := row'.password, isEmailVerified := row'.isEmailVerified,
                    twoFactorEnabled := row'.twoFactorEnabled, userType := row'.userType,
                    refreshToken := row'.refreshToken, lastLoginAt := row'.lastLoginAt)
    && (row'.password != row.password ==> ResetFrom(record, row.email, row'.password))
    && (row'.isEmailVerified != row.isEmailVerified ==>
          row'.isEmailVerified && r.VerifyEmail? && Acted(record, id) &&
              CheckedOut(record, VerifyAddress(id, row.email)))
    && (row'.twoFactorEnabled && !row.twoFactorEnabled ==>
          r.ConfirmTwoFactor? && Acted(record, id) && CheckedOut(record, TurnOn(id, row.email, row.isEmailVerified)))
    && (row.twoFactorEnabled && !row'.twoFactorEnabled ==> Acted(record, id) && PasswordKnown(record, id))
    && (row'.userType != row.userType ==> r.UpdateRole? && Acted(record, id) && row'.userType == Some(r.role))
    && (row'.refreshToken != row.refreshToken || row'.lastLoginAt != row.lastLoginAt ==>
          phase.Minting? && phase.grant.id == id && GrantFrom(record, phase.grant) && phase.refresh.Some? &&
          row'.refreshToken == phase.refresh)
  }

  lemma MintWrite(s: State, record: Record, phase: Phase, pick: bool, id: Id)
    requires phase.Minting? && From(s, record, phase) && id in s.rows
    ensures var s' := Next(s, phase, pick).0;
            id in s'.rows && ChangeFrom(record, phase, id, s.rows[id], s'.rows[id])
  {
    hide GrantFrom, Acted, CodeMatches, NewToken;
  }

  lemma ProceedWrite(s: State, record: Record, goal: Goal, id: Id)
    requires From(s, record, Accepted(goal)) && id in s.rows
    ensures var s' := Proceed(s, goal).0;
            id in s'.rows && ChangeFrom(record, Accepted(goal), id, s.rows[id], s'.rows[id])
  {
    hide GrantFrom, Acted, CodeMatches;
  }

  predicate RowWrite(phase: Phase) {
    phase.Verifying? || phase.ChangingRole? || phase.TurningOff? || phase.SettingPassword?
  }

  lemma RowWriteFrom(s: State, record: Record, phase: Phase, id: Id)
    requires Base(s) && PhaseOk(s, phase) && From(s, record, phase) && RowWrite(phase) && id in s.rows
    ensures var s' := Next(s, phase, false).0;
            id in s'.rows && ChangeFrom(record, phase, id, s.rows[id], s'.rows[id])
  {
    hide Base, Acted, CodeMatches, Signed, GrantFrom;
    if phase.Verifying? {
      SameOwner(s, phase.owner, phase.sub);
    }
  }

  lemma WriteFrom(s: State, record: Record, phase: Phase, pick: bool, id: Id)
    requires Base(s) && PhaseOk(s, phase) && From(s, record, phase) && !phase.Start? && id in s.rows
    ensures var s' := Next(s, phase, pick).0;
            id in s'.rows && ChangeFrom(record, phase, id, s.rows[id], s'.rows[id])
  {
    hide Base, PhaseOk, From, CodeMatches, Enter, Dropped, Saved, MintSome, Proceed, Acted, GrantFrom;
    if RowWrite(phase) {
      RowWriteFrom(s, record, phase, id);
    } else if phase.Minting? {
      MintWrite(s, record, phase, pick, id);
    } else if phase.Accepted? {
      ProceedWrite(s, record, phase.goal, id);
    }
  }

  // Under every interleaving, from a state with no call in flight: whatever a move does to an
  // existing account, the call that does it arrived with the authority for it. A password changes
  // only by a reset token for the address, signed when the call began; the address is verified and
  // two-factor turned on only by a session of the account, admitted when the call began, whose
  // code was the live one when it was compared; two-factor is turned off only by such a session
  // and the password; the role only by such a session; the stored hash only for tokens whose
  // caller earned them. Nothing else changes.
  lemma EveryWriteAuthorised(m0: Machine, moves: seq<Move>, move: Move, id: Id)
    requires Safe(m0) && m0.calls == map[] && id in Play(m0, moves).s.rows
    ensures var m, ledger := Play(m0, moves), Notes(m0, map[], moves);
            var m' := Take(m, move);
            && id in m'.s.rows
            && (m'.s.rows[id] == m.s.rows[id] ||
                (move.Advance? && move.call in m.calls && move.call in ledger &&
                 ChangeFrom(ledger[move.call], m.calls[move.call], id, m.s.rows[id], m'.s.rows[id])))
  {
    hide Play, Notes, Base, Next, ChangeFrom, From, PhaseOk;
    var m, ledger := Play(m0, moves), Notes(m0, map[], moves);
    NotesKeep(m0, map[], moves);
    if move.Advance? && move.call in m.calls {
      var phase := m.calls[move.call];
      if phase.Start? {
        StartWritesNothing(m.s, phase.request, move.pick);
      } else {
        WriteFrom(m.s, ledger[move.call], phase, move.pick, id);
      }
    }
  }

  lemma StartWritesNothing(s: State, r: Request, pick: bool)
    ensures Next(s, Start(r), pick).0 == s
  {
  }
}
