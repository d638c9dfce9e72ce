/**
 * The protocol with calls interleaved at their awaits. Each call is a sequence of steps: it
 * reads, keeps what it read, and writes later, with any steps of any number of other calls
 * in between. What the source's calls keep without being atomic is proved here; a call left
 * alone does what Protocol says.
 */
module Interleaving {
  import opened Wrappers
  import opened Credentials
  import opened CodeStore
  import opened Users
  import opened Protocol
  import opened Safety
  import opened Authority

  /** The arguments of createTokens, and the verification code to send once it is done. */
  datatype Grant = Grant(id: Id, email: string, verified: bool, mfa: bool, mail: Option<string>)

  /** What a call does once a code is accepted, with what it read before. */
  datatype Goal =
    | VerifyAddress(sub: Id, email: string)
    | TurnOn(id: Id, email: string, verified: bool)
    | GrantSecondFactor(id: Id)
    | GrantReset(email: string)

  /** Where a call is: what it is about to do next. */
  datatype Phase =
    | Start(request: Request)
    | Passed(request: Request)                                       // the guard let it through
    | Inserting(row: Row, mail: Option<string>)
    | Checking(goal: Goal, code: string)                             // about to read the stored code
    | Matched(goal: Goal)                                            // about to delete it
    | Accepted(goal: Goal)
    | Verifying(owner: Id, sub: Id, email: string)
    | Resending(email: string, code: string)
    | Saving(kind: Kind, id: string, code: string, response: Response)
    | SavingFor(grant: Grant, code: string)
    | ChangingRole(id: Id, role: UserType)
    | Disabling(id: Id, password: string, email: string, verified: bool)
    | TurningOff(id: Id, email: string, verified: bool)
    | Resetting(email: string, password: string)
    | SettingPassword(id: Id, password: string)
    | Minting(grant: Grant, access: Option<Token>, refresh: Option<Token>)
    | Finished(response: Response)

  datatype Machine = Machine(s: State, calls: map<nat, Phase>)

  /** A new request, one call running to its next await (`pick` chooses between the two tokens
      it mints side by side), or time passing. */
  datatype Move = Arrive(call: nat, request: Request) | Advance(call: nat, pick: bool) | Pass(seconds: nat)

  const REFUSED := Finished(Rejected)

  function Needs(goal: Goal): (Kind, string) {
    match goal
    case VerifyAddress(_, email) => (Email, email)
    case TurnOn(id, _, _) => (TwoFactorEnable, id)
    case GrantSecondFactor(id) => (TwoFactor, id)
    case GrantReset(email) => (Password, email)
  }

  function Mints(grant: Grant): Phase {
    Minting(grant, None, None)
  }

  function FromRow(row: Row, mfa: bool): Grant {
    Grant(row.id, row.email, row.isEmailVerified, mfa, None)
  }

  // ---- One step of one call ----

  ghost function Begin(s: State, r: Request): Phase {
    match r
    case SignUp(email, password, confirm, newId, code) =>
      if ByEmail(s.rows, email).Some? || password != confirm then REFUSED
      else Inserting(NewRow(newId, email, password, Local, false), Some(code))
    case Login(email, password, code) =>
      (match ByEmail(s.rows, email)
       case None => REFUSED
       case Some(id) =>
         var row := s.rows[id];
         var grant := Grant(id, row.email, row.isEmailVerified, false, None);
         if row.password != password then REFUSED
         else if row.twoFactorEnabled then SavingFor(grant, code) else Mints(grant))
    case FacebookAuth(email, newId, password) =>
      (match ByEmail(s.rows, email)
       case None => Inserting(NewRow(newId, email, password, Facebook, true), None)
       case Some(id) =>
         if s.rows[id].provider == Facebook then Mints(Grant(id, s.rows[id].email, true, false, None)) else REFUSED)
    case Refresh(t) => if Verifies(s, t, true) then Passed(r) else REFUSED
    case InitiateReset(email, code) =>
      (match ByEmail(s.rows, email)
       case None => REFUSED
       case Some(id) => if s.rows[id].provider == Facebook then REFUSED else Saving(Password, email, code, Done(true)))
    case VerifyResetCode(email, code) => Checking(GrantReset(email), code)
    case CompleteReset(t, password, confirm) =>
      if password != confirm || !Signed(s, t) || !t.Reset? ||
          t.email == "" then REFUSED else Resetting(t.email, password)
    case Tick(_) => Finished(Done(true))
    case VerifyTwoFactor(t, _) => if Admits(s, t, true) then Passed(r) else REFUSED
    case ResendTwoFactorCode(t, _) => if Admits(s, t, true) then Passed(r) else REFUSED
    case _ => if Admits(s, Acting(r).value, false) then Passed(r) else REFUSED
  }

  // The use case's first step, behind the guard.
  ghost function Enter(s: State, r: Request): Phase {
    match r
    case Refresh(t) =>
      if Verifies(s, t, true)
      then Mints(Grant(t.sub, t.email, t.isEmailVerified, t.twoFactorEnabled && t.twoFactorVerified, None))
      else REFUSED
    case VerifyEmail(Session(_, sub, email, _, _, _, _, _, _, _), code) => Checking(VerifyAddress(sub, email), code)
    case ResendVerification(t, code) => if Verifies(s, t, false) then Resending(t.email, code) else REFUSED
    case UpdateRole(Session(_, sub, _, _, _, _, _, _, _, _), role) => if sub in s.rows
        then ChangingRole(sub, role) else REFUSED
    case EnableTwoFactor(Session(_, sub, _, _, _, _, _, _, _, _), code) =>
      if sub !in s.rows || s.rows[sub].provider == Facebook || s.rows[sub].twoFactorEnabled then REFUSED
      else Saving(TwoFactorEnable, sub, code, Done(true))
    case ResendEnableCode(Session(_, sub, _, _, _, _, _, _, _, _), code) =>
      if sub in s.rows then Saving(TwoFactorEnable, sub, code, Done(true)) else REFUSED
    case ConfirmTwoFactor(Session(_, sub, _, _, _, _, _, _, _, _), code) =>
      if sub in s.rows then Checking(TurnOn(sub, s.rows[sub].email, s.rows[sub].isEmailVerified), code) else REFUSED
    case VerifyTwoFactor(Session(_, sub, _, _, _, _, _, _, _, _), code) => Checking(GrantSecondFactor(sub), code)
    case ResendTwoFactorCode(Session(_, sub, _, _, _, _, _, _, _, _), code) =>
      if sub in s.rows then Saving(TwoFactor, sub, code, Done(true)) else REFUSED
    case DisableTwoFactor(Session(_, sub, _, _, _, _, _, _, _, _), password) =>
      if sub in s.rows then Disabling(sub, password, s.rows[sub].email, s.rows[sub].isEmailVerified) else REFUSED
    case _ => REFUSED
  }

  ghost function Proceed(s: State, goal: Goal): (State, Phase) {
    match goal
    case VerifyAddress(sub, email) =>
      (match ByEmail(s.rows, email)
       case None => (s, REFUSED)
       case Some(owner) =>
         (s, if s.rows[owner].isEmailVerified then Finished(Done(false)) else Verifying(owner, sub, email)))
    case TurnOn(id, email, verified) =>
      if id !in s.rows then (s, REFUSED)
      else (SetRow(s, id, s.rows[id].(twoFactorEnabled := true)), Mints(Grant(id, email, verified, true, None)))
    case GrantSecondFactor(id) =>
      (s, if id in s.rows then Mints(Grant(id, s.rows[id].email, s.rows[id].isEmailVerified, true, None)) else REFUSED)
    case GrantReset(email) => (IssueReset(s, email), Finished(ResetGranted(ResetTokenFor(s, email))))
  }

  function Issue(s: State, t: Token): State {
    s.(issued := s.issued + {t}, nextJti := s.nextJti + 1)
  }

  // createTokens: the two tokens in either order, each from its own reading of the row, then
  // the hash of the refresh token.
  function MintSome(s: State, g: Grant, access: Option<Token>, refresh: Option<Token>, pick: bool): (State, Phase) {
    if g.id !in s.rows then (s, REFUSED)
    else if access.Some? && refresh.Some? then
      var response := Tokens(access.value, refresh.value);
      (SetRow(s, g.id, Stored(s.rows[g.id], refresh, s.now)),
       if g.mail.Some? then Saving(Email, g.email, g.mail.value, response) else Finished(response))
    else if access.None? && (pick || refresh.Some?) then
      var t := NewToken(s, g.id, g.email, g.verified, g.mfa, s.nextJti, SECONDS_PER_DAY);
      (Issue(s, t), Minting(g, Some(t), refresh))
    else
      var t := NewToken(s, g.id, g.email, g.verified, g.mfa, s.nextJti, 7 * SECONDS_PER_DAY);
      (Issue(s, t), Minting(g, access, Some(t)))
  }

  ghost function Next(s: State, phase: Phase, pick: bool): (State, Phase) {
    match phase
    case Start(r) => (s, Begin(s, r))
    case Passed(r) => (s, Enter(s, r))
    case Inserting(row, mail) =>
      if Creatable(s, row.id, row.email)
          then (Create(s, row), Mints(FromRow(row, false).(mail := mail))) else (s, REFUSED)
    case Checking(goal, code) =>
      if CodeMatches(s, Needs(goal).0, Needs(goal).1, code)
          then (s.(consumed := s.consumed + {Needs(goal)}), Matched(goal))
      else (s, REFUSED)
    case Matched(goal) => (s.(codes := Dropped(s.codes, Needs(goal).0, Needs(goal).1)), Accepted(goal))
    case Accepted(goal) => Proceed(s, goal)
    case Verifying(owner, sub, email) =>
      if owner !in s.rows then (s, REFUSED)
      else (SetRow(s, owner, s.rows[owner].(isEmailVerified := true)), Mints(Grant(sub, email, true, false, None)))
    case Resending(email, code) =>
      (match ByEmail(s.rows, email)
       case None => (s, REFUSED)
       case Some(owner) =>
         (s, if s.rows[owner].isEmailVerified then REFUSED else Saving(Email, email, code, Done(true))))
    case Saving(kind, id, code, response) => (SaveCode(s, kind, id, code), Finished(response))
    case SavingFor(grant, code) => (SaveCode(s, TwoFactor, grant.id, code), Mints(grant))
    case ChangingRole(id, role) =>
      if id !in s.rows then (s, REFUSED)
      else
        var row := s.rows[id].(userType := Some(role));
        (SetRow(s, id, row), Mints(Grant(id, row.email, row.isEmailVerified, row.twoFactorEnabled, None)))
    case Disabling(id, password, email, verified) =>
      (s, if id in s.rows && s.rows[id].password == password then TurningOff(id, email, verified) else REFUSED)
    case TurningOff(id, email, verified) =>
      if id !in s.rows then (s, REFUSED)
      else (SetRow(s, id, s.rows[id].(twoFactorEnabled := false)), Mints(Grant(id, email, verified, false, None)))
    case Resetting(email, password) =>
      (match ByEmail(s.rows, email)
       case None => (s, REFUSED)
       case Some(id) => (s, SettingPassword(id, password)))
    case SettingPassword(id, password) =>
      if id !in s.rows then (s, REFUSED)
      else (SetRow(s, id, s.rows[id].(password := password)), Finished(Done(true)))
    case Minting(grant, access, refresh) => MintSome(s, grant, access, refresh, pick)
    case Finished(_) => (s, phase)
  }

  ghost function Take(m: Machine, move: Move): Machine {
    match move
    case Arrive(call, r) => if call in m.calls then m else m.(calls := m.calls[call := Start(r)])
    case Advance(call, pick) =>
      if call !in m.calls then m
      else
        var (s, phase) := Next(m.s, m.calls[call], pick);
        Machine(s, m.calls[call := phase])
    case Pass(seconds) => m.(s := m.s.(now := m.s.now + seconds))
  }

  ghost function Play(m: Machine, moves: seq<Move>): Machine
    decreases |moves|
  {
    if moves == [] then m else Play(Take(m, moves[0]), moves[1..])
  }

  function Boot(now: nat): Machine {
    Machine(Init(now), map[])
  }

  // ---- What a call may rely on, because no other step undoes it ----

  predicate GrantOk(s: State, g: Grant) {
    && g.id in s.rows && g.email == s.rows[g.id].email
    && (g.verified ==> s.rows[g.id].isEmailVerified) && (g.mfa ==> SecondFactor(s, g.id))
  }

  predicate ReadOk(s: State, id: Id, email: string, verified: bool) {
    GrantOk(s, Grant(id, email, verified, false, None))
  }

  predicate GoalOk(s: State, goal: Goal) {
    match goal
    case VerifyAddress(sub, email) => ReadOk(s, sub, email, false)
    case TurnOn(id, email, verified) => ReadOk(s, id, email, verified)
    case GrantSecondFactor(id) => id in s.rows
    case GrantReset(_) => true
  }

  predicate OwnToken(s: State, t: Token, id: Id) {
    t in s.issued && t.Session? && t.sub == id && id in s.rows
  }

  predicate PhaseOk(s: State, phase: Phase) {
    match phase
    case Start(_) => true
    case Passed(r) => Acting(r).Some? ==> Acting(r).value.Session? && OwnToken(s, Acting(r).value, Acting(r).value.sub)
    case Inserting(row, _) => row.refreshToken.None? && !row.twoFactorEnabled &&
        (row.isEmailVerified <==> row.provider == Facebook)
    case Checking(goal, _) => GoalOk(s, goal)
    case Matched(goal) => GoalOk(s, goal) && Needs(goal) in s.consumed
    case Accepted(goal) => GoalOk(s, goal) && Needs(goal) in s.consumed
    case Verifying(owner, sub, email) =>
      ReadOk(s, owner, email, false) && ReadOk(s, sub, email, false) && (Email, email) in s.consumed
    case Resending(_, _) => true
    case Saving(kind, id, _, _) => kind == Password ==> LocalEmail(s, id)
    case SavingFor(grant, _) => GrantOk(s, grant)
    case ChangingRole(id, _) => id in s.rows
    case Disabling(id, _, email, verified) => ReadOk(s, id, email, verified)
    case TurningOff(id, email, verified) => ReadOk(s, id, email, verified)
    case Resetting(email, _) => (Password, email) in s.consumed
    case SettingPassword(id, _) => id in s.rows && (Password, s.rows[id].email) in s.consumed
    case Minting(grant, _, refresh) => GrantOk(s, grant) && (refresh.Some? ==> OwnToken(s, refresh.value, grant.id))
    case Finished(_) => true
  }

  ghost predicate Safe(m: Machine) {
    Base(m.s) && forall c :: c in m.calls ==> PhaseOk(m.s, m.calls[c])
  }

  // What no step undoes.
  ghost predicate Onward(s: State, s': State) {
    && s.rows.Keys <= s'.rows.Keys && s.created.Keys <= s'.created.Keys
    && (forall id :: id in s.rows ==> RowGrows(s.rows[id], s'.rows[id]))
    && (forall id :: id in s.created ==> s'.created[id] == s.created[id])
    && s.issued <= s'.issued && s.consumed <= s'.consumed && s.nextJti <= s'.nextJti && s.now <= s'.now
  }

  lemma OnwardTransitive(a: State, b: State, c: State)
    requires Onward(a, b) && Onward(b, c)
    ensures Onward(a, c)
  {
  }

  lemma PhaseStaysOk(s: State, s': State, phase: Phase)
    requires PhaseOk(s, phase) && Onward(s, s')
    ensures PhaseOk(s', phase)
  {
    if phase.Saving? && phase.kind == Password {
      LocalEmailGrows(s, s', phase.id);
    }
    hide LocalEmail;
  }

  // ---- Each step keeps it ----

  lemma GrowsOnward(s: State, s': State)
    requires Grows(s, s')
    ensures Onward(s, s')
  {
  }

  lemma OneRowOnward(s: State, s': State, x: Id)
    requires s.created.Keys == s.rows.Keys && OnlyRow(s, s', x)
    ensures Onward(s, s')
  {
    assert forall id :: id in s.rows && id != x ==> s'.rows[id] == s.rows[id];
  }

  // Rewriting one row, whatever happened since the call read it.
  lemma RewriteKeeps(s: State, id: Id, row: Row)
    requires Base(s) && id in s.rows && RowGrows(s.rows[id], row) && row.id == id && RowOk(SetRow(s, id, row), id)
    ensures Base(SetRow(s, id, row)) && Onward(s, SetRow(s, id, row))
  {
    var s' := SetRow(s, id, row);
    assert OnlyRow(s, s', id);
    hide RowOk, TokenOk, ResetCodesLocal, Onward;
    OneRowKeeps(s, s', id);
    OneRowOnward(s, s', id);
  }

  lemma InsertKeeps(s: State, row: Row)
    requires Base(s) && Creatable(s, row.id, row.email)
    requires row.refreshToken.None? && !row.twoFactorEnabled && (row.isEmailVerified <==> row.provider == Facebook)
    ensures Base(Create(s, row)) && Onward(s, Create(s, row)) && GrantOk(Create(s, row), FromRow(row, false))
  {
    var s' := Create(s, row);
    assert OnlyRow(s, s', row.id) && RowOk(s', row.id);
    hide RowOk, TokenOk, ResetCodesLocal, Onward;
    OneRowKeeps(s, s', row.id);
    OneRowOnward(s, s', row.id);
  }

  lemma IssueKeeps(s: State, t: Token)
    requires Base(s) && TokenOk(Issue(s, t), t)
    ensures Base(Issue(s, t)) && Onward(s, Issue(s, t))
  {
    var s' := Issue(s, t);
    hide GetKey;
    TokenOkGrows(s, s');
    ConsumedStaysLocal(s, s');
  }

  lemma MatchKeeps(s: State, kind: Kind, id: string, code: string)
    requires Base(s) && CodeMatches(s, kind, id, code)
    ensures var s' := s.(consumed := s.consumed + {(kind, id)});
            Base(s') && Onward(s, s')
  {
    hide GetKey;
    var s' := s.(consumed := s.consumed + {(kind, id)});
    TokenOkGrows(s, s');
    ConsumedStaysLocal(s, s');
  }

  lemma DeleteKeeps(s: State, kind: Kind, id: string)
    requires Base(s)
    ensures var s' := s.(codes := Dropped(s.codes, kind, id));
            Base(s') && Onward(s, s')
  {
    hide GetKey;
    ConsumedStaysLocal(s, s.(codes := Dropped(s.codes, kind, id)));
  }

  lemma PassKeeps(s: State, seconds: nat)
    requires Base(s)
    ensures Base(s.(now := s.now + seconds)) && Onward(s, s.(now := s.now + seconds))
  {
    var s' := s.(now := s.now + seconds);
    hide GetKey;
    TokenOkGrows(s, s');
    ConsumedStaysLocal(s, s');
    assert forall id :: id in s.rows ==> RowOk(s, id);
  }

  // The step leaves a good state, and the call in a phase whose facts hold there.
  ghost predicate Kept(s: State, next: (State, Phase)) {
    Base(next.0) && Onward(s, next.0) && PhaseOk(next.0, next.1)
  }

  lemma RowFacts(s: State, id: Id)
    requires Base(s) && id in s.rows
    ensures id in s.created && RowOk(s, id) && s.rows[id].id == id
  {
  }

  lemma BeginKeeps(s: State, r: Request)
    requires Base(s)
    ensures Kept(s, (s, Begin(s, r)))
  {
    hide Base, Onward, Verifies, LocalEmail, SecondFactor;
    StaysPut(s);
    if Acting(r).Some? {
      GuardKeeps(s, r);
      return;
    }
    match r
    case FacebookAuth(email, _, _) =>
      if ByEmail(s.rows, email).Some? {
        RowFacts(s, ByEmail(s.rows, email).value);
      }
    case CompleteReset(t, _, _) =>
      if Signed(s, t) {
        TokenFacts(s, t);
      }
    case InitiateReset(email, _) => ResetAsked(s, email);
    case _ =>
  }

  // Behind the guard stands a token minted earlier, for an account that exists.
  lemma GuardKeeps(s: State, r: Request)
    requires Acting(r).Some?
    ensures PhaseOk(s, Begin(s, r))
  {
    hide ClaimsValid, GoalOk, GrantOk, LocalEmail, ByEmail;
  }

  lemma ResetAsked(s: State, email: string)
    ensures ByEmail(s.rows, email).Some? && s.rows[ByEmail(s.rows, email).value].provider == Local ==>
            LocalEmail(s, email)
  {
  }

  lemma TokenFacts(s: State, t: Token)
    requires Base(s) && t in s.issued
    ensures TokenOk(s, t)
  {
  }

  lemma EnterKeeps(s: State, r: Request)
    requires Base(s) && PhaseOk(s, Passed(r))
    ensures Kept(s, (s, Enter(s, r)))
  {
    hide Base, Onward, ClaimsValid;
    StaysPut(s);
    if Acting(r).Some? {
      TokenFacts(s, Acting(r).value);
    }
  }

  lemma ProceedKeeps(s: State, goal: Goal)
    requires Base(s) && GoalOk(s, goal) && Needs(goal) in s.consumed
    ensures Kept(s, Proceed(s, goal))
  {
    hide Base, Onward, ByEmail;
    StaysPut(s);
    match goal
    case TurnOn(id, _, _) =>
      RowFacts(s, id);
      var row := s.rows[id].(twoFactorEnabled := true);
      RewriteKeeps(s, id, row);
    case GrantReset(email) => IssueKeeps(s, ResetTokenFor(s, email));
    case _ =>
  }

  lemma MintSomeKeeps(s: State, g: Grant, access: Option<Token>, refresh: Option<Token>, pick: bool)
    requires Base(s) && PhaseOk(s, Minting(g, access, refresh))
    ensures Kept(s, MintSome(s, g, access, refresh, pick))
  {
    hide Base, Onward, LocalEmail;
    RowFacts(s, g.id);
    if access.Some? && refresh.Some? {
      RewriteKeeps(s, g.id, Stored(s.rows[g.id], refresh, s.now));
    } else {
      var lifetime := if access.None? && (pick || refresh.Some?) then SECONDS_PER_DAY else 7 * SECONDS_PER_DAY;
      IssueKeeps(s, NewToken(s, g.id, g.email, g.verified, g.mfa, s.nextJti, lifetime));
    }
  }

  lemma VerifyingKeeps(s: State, owner: Id, sub: Id, email: string)
    requires Base(s) && PhaseOk(s, Verifying(owner, sub, email))
    ensures Kept(s, Next(s, Verifying(owner, sub, email), false))
  {
    hide Base, Onward;
    SameOwner(s, owner, sub);
    RowFacts(s, owner);
    RewriteKeeps(s, owner, s.rows[owner].(isEmailVerified := true));
  }

  lemma SameOwner(s: State, a: Id, b: Id)
    requires Base(s) && a in s.rows && b in s.rows && s.rows[a].email == s.rows[b].email
    ensures a == b
  {
  }

  lemma WriteKeeps(s: State, phase: Phase)
    requires Base(s) && PhaseOk(s, phase) && (phase.ChangingRole? || phase.TurningOff?)
    ensures Kept(s, Next(s, phase, false))
  {
    hide Base, Onward;
    var id := phase.id;
    RowFacts(s, id);
    match phase
    case ChangingRole(_, role) => RewriteKeeps(s, id, s.rows[id].(userType := Some(role)));
    case TurningOff(_, _, _) => RewriteKeeps(s, id, s.rows[id].(twoFactorEnabled := false));
  }

  lemma PasswordKeeps(s: State, id: Id, password: string)
    requires Base(s) && PhaseOk(s, SettingPassword(id, password))
    ensures Kept(s, Next(s, SettingPassword(id, password), false))
  {
    hide Base, Onward;
    RowFacts(s, id);
    ResetIsLocal(s, id);
    RewriteKeeps(s, id, s.rows[id].(password := password));
  }

  lemma ResetIsLocal(s: State, id: Id)
    requires Base(s) && id in s.rows && (Password, s.rows[id].email) in s.consumed
    ensures s.rows[id].provider == Local
  {
    assert LocalEmail(s, s.rows[id].email);
    hide TokenOk, RowOk;
  }

  lemma StaysPut(s: State)
    ensures Onward(s, s)
  {
  }

  lemma CodeKeeps(s: State, phase: Phase)
    requires Base(s) && PhaseOk(s, phase) && (phase.Checking? || phase.Matched? || phase.Saving? || phase.SavingFor?)
    ensures Kept(s, Next(s, phase, false))
  {
    hide Base, Onward, GoalOk, CodeMatches, Needs, Dropped, GetKey;
    StaysPut(s);
    var s' := Next(s, phase, false).0;
    match phase
    case Checking(goal, code) =>
      if CodeMatches(s, Needs(goal).0, Needs(goal).1, code) {
        MatchKeeps(s, Needs(goal).0, Needs(goal).1, code);
        PhaseStaysOk(s, s', phase);
      }
    case Matched(goal) =>
      DeleteKeeps(s, Needs(goal).0, Needs(goal).1);
      PhaseStaysOk(s, s', phase);
    case Saving(kind, id, code, _) =>
      SaveKeeps(s, kind, id, code);
      GrowsOnward(s, s');
    case SavingFor(grant, code) =>
      SaveKeeps(s, TwoFactor, grant.id, code);
      GrowsOnward(s, s');
      PhaseStaysOk(s, s', phase);
  }

  lemma InsertingKeeps(s: State, row: Row, mail: Option<string>)
    requires Base(s) && PhaseOk(s, Inserting(row, mail))
    ensures Kept(s, Next(s, Inserting(row, mail), false))
  {
    hide Base, Onward;
    StaysPut(s);
    if Creatable(s, row.id, row.email) {
      InsertKeeps(s, row);
    }
  }

  lemma NextKeeps(s: State, phase: Phase, pick: bool)
    requires Base(s) && PhaseOk(s, phase)
    ensures Kept(s, Next(s, phase, pick))
  {
    hide Base, Begin, Enter, Proceed, MintSome, Onward, PhaseOk;
    match phase
    case Start(r) => BeginKeeps(s, r);
    case Passed(r) => EnterKeeps(s, r);
    case Inserting(row, mail) => InsertingKeeps(s, row, mail);
    case Accepted(goal) => AcceptedKeeps(s, goal);
    case Minting(grant, access, refresh) => MintSomeKeeps(s, grant, access, refresh, pick);
    case Verifying(owner, sub, email) => VerifyingKeeps(s, owner, sub, email);
    case Checking(_, _) => CodeKeeps(s, phase);
    case Matched(_) => CodeKeeps(s, phase);
    case Saving(_, _, _, _) => CodeKeeps(s, phase);
    case SavingFor(_, _) => CodeKeeps(s, phase);
    case ChangingRole(_, _) => WriteKeeps(s, phase);
    case TurningOff(_, _, _) => WriteKeeps(s, phase);
    case SettingPassword(id, password) => PasswordKeeps(s, id, password);
    case _ => ReadKeeps(s, phase);
  }

  lemma AcceptedKeeps(s: State, goal: Goal)
    requires Base(s) && PhaseOk(s, Accepted(goal))
    ensures Kept(s, Proceed(s, goal))
  {
    ProceedKeeps(s, goal);
  }

  lemma ReadKeeps(s: State, phase: Phase)
    requires Base(s) && PhaseOk(s, phase) &&
             (phase.Resending? || phase.Disabling? || phase.Resetting? || phase.Finished?)
    ensures Kept(s, Next(s, phase, false))
  {
    hide Base, Onward;
    StaysPut(s);
  }

  lemma TakeKeeps(m: Machine, move: Move)
    requires Safe(m)
    ensures Safe(Take(m, move)) && Onward(m.s, Take(m, move).s)
  {
    hide Base, Next, Onward;
    match move
    case Arrive(_, _) => StaysPut(m.s);
    case Pass(seconds) =>
      PassKeeps(m.s, seconds);
      OthersStayOk(m, Take(m, move).s);
    case Advance(call, pick) =>
      StaysPut(m.s);
      if call in m.calls {
        NextKeeps(m.s, m.calls[call], pick);
        OthersStayOk(m, Take(m, move).s);
        hide PhaseOk;
      }
  }

  lemma OthersStayOk(m: Machine, s': State)
    requires Safe(m) && Onward(m.s, s')
    ensures forall c :: c in m.calls ==> PhaseOk(s', m.calls[c])
  {
    forall c | c in m.calls ensures PhaseOk(s', m.calls[c]) {
      PhaseStaysOk(m.s, s', m.calls[c]);
    }
  }

  lemma {:induction false} PlayKeeps(m: Machine, moves: seq<Move>)
    requires Safe(m)
    ensures Safe(Play(m, moves)) && Onward(m.s, Play(m, moves).s)
    decreases |moves|
  {
    hide Safe, Take, Onward;
    if moves == [] {
      SafeOnward(m);
    } else {
      var next := Take(m, moves[0]);
      TakeKeeps(m, moves[0]);
      PlayKeeps(next, moves[1..]);
      OnwardTransitive(m.s, next.s, Play(next, moves[1..]).s);
    }
  }

  lemma SafeOnward(m: Machine)
    requires Safe(m)
    ensures Onward(m.s, m.s)
  {
    StaysPut(m.s);
  }

  lemma BootSafe(now: nat)
    ensures Safe(Boot(now))
  {
  }

  // ---- What holds without atomicity ----

  // Under every interleaving of any calls at their awaits: a session token carries the address
  // of its own account, and says "verified" only of a verified one; Facebook accounts are
  // verified, a password account only if a code sent to its address was accepted, and
  // verification is for ever.
  lemma EmailVerificationAnyway(now: nat, moves: seq<Move>, later: seq<Move>)
    ensures var m := Play(Boot(now), moves);
            var s, s' := m.s, Play(m, later).s;
            && (forall t :: t in s.issued && t.Session? ==>
                  t.sub in s.rows && t.email == s.rows[t.sub].email &&
                      (t.isEmailVerified ==> s.rows[t.sub].isEmailVerified))
            && (forall id :: id in s.rows && s.rows[id].provider == Facebook ==> s.rows[id].isEmailVerified)
            && (forall id :: id in s.rows && s.rows[id].provider == Local && s.rows[id].isEmailVerified ==>
                  (Email, s.rows[id].email) in s.consumed)
            && (forall id :: id in s.rows && s.rows[id].isEmailVerified ==>
                 id in s'.rows && s'.rows[id].isEmailVerified)
  {
    hide Play, ResetCodesLocal, PhaseOk;
    var m := Play(Boot(now), moves);
    BootSafe(now);
    PlayKeeps(Boot(now), moves);
    PlayKeeps(m, later);
    assert forall t :: t in m.s.issued ==> TokenOk(m.s, t);
    assert forall id :: id in m.s.rows ==> RowOk(m.s, id);
    assert forall id :: id in m.s.rows ==> RowGrows(m.s.rows[id], Play(m, later).s.rows[id]);
  }

  // Under every interleaving: 2FA is on, and a token claims a second factor, only where a code
  // of that user was accepted.
  lemma SecondFactorAnyway(now: nat, moves: seq<Move>)
    ensures var s := Play(Boot(now), moves).s;
            && (forall id :: id in s.rows && s.rows[id].twoFactorEnabled ==> (TwoFactorEnable, id) in s.consumed)
            && (forall t :: t in s.issued && t.Session? && t.twoFactorVerified ==> SecondFactor(s, t.sub))
            && (forall t :: Admits(s, t, false) && t.twoFactorEnabled ==> SecondFactor(s, t.sub))
  {
    hide Play, ResetCodesLocal, PhaseOk;
    var s := Play(Boot(now), moves).s;
    BootSafe(now);
    PlayKeeps(Boot(now), moves);
    assert forall t :: t in s.issued ==> TokenOk(s, t);
    assert forall id :: id in s.rows ==> RowOk(s, id);
  }

  // Under every interleaving: a password differs from the first only if a reset code for the
  // address was accepted; a Facebook account keeps its password for ever.
  lemma PasswordAnyway(now: nat, moves: seq<Move>, later: seq<Move>, id: Id)
    requires id in Play(Boot(now), moves).s.rows
    ensures var m := Play(Boot(now), moves);
            var s, s' := m.s, Play(m, later).s;
            && id in s.created && id in s'.rows
            && (s.rows[id].password != s.created[id] ==> (Password, s.rows[id].email) in s.consumed)
            && (s.rows[id].provider == Facebook ==>
                  && s'.rows[id].password == s.rows[id].password == s.created[id]
                  && GetKey(Password, s.rows[id].email) !in s.codes
                  && forall t :: t in s.issued && t.Reset? ==> t.email != s.rows[id].email)
  {
    hide Play, PhaseOk, GetKey;
    var m := Play(Boot(now), moves);
    var s, s' := m.s, Play(m, later).s;
    BootSafe(now);
    PlayKeeps(Boot(now), moves);
    PlayKeeps(m, later);
    assert RowOk(s, id) && RowOk(s', id) && RowGrows(s.rows[id], s'.rows[id]);
    if s.rows[id].provider == Facebook {
      assert !LocalEmail(s, s.rows[id].email);
      assert forall t :: t in s.issued ==> TokenOk(s, t);
    }
  }
}
