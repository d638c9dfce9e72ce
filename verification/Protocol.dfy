/**
 * The session and account protocol: one step per call of the HTTP interface, over user
 * rows, one-time codes, minted tokens and a clock. Each call is atomic here;
 * Interleaving looks at calls interleaved at their awaits.
 */
module Protocol {
  import opened Wrappers
  import opened Credentials
  import opened CodeStore
  import opened Slug
  import opened Users

  /** `consumed` (accepted codes) and `created` (each row's first password) are history. */
  datatype State = State(
    rows: Table, codes: Store, issued: set<Token>, nextJti: nat, now: nat,
    consumed: set<(Kind, string)>, created: map<Id, string>)

  datatype Response =
    | Rejected
    | Tokens(access: Token, refresh: Token)
    | Done(success: bool)
    | ResetGranted(resetToken: Token)

  function Init(now: nat): State {
    State(map[], map[], {}, 0, now, {}, map[])
  }

  // ---- Building blocks ----

  function SaveCode(s: State, kind: Kind, id: string, code: string): State {
    s.(codes := Saved(s.codes, kind, id, code, s.now))
  }

  predicate CodeMatches(s: State, kind: Kind, id: string, code: string) {
    Matches(s.codes, kind, id, code, s.now)
  }

  function ConsumeCode(s: State, kind: Kind, id: string): State {
    s.(codes := Dropped(s.codes, kind, id), consumed := s.consumed + {(kind, id)})
  }

  function Create(s: State, row: Row): State {
    s.(rows := s.rows[row.id := row], created := s.created[row.id := row.password])
  }

  function SetRow(s: State, id: Id, row: Row): State {
    s.(rows := s.rows[id := row])
  }

  // createToken: the user fields are read from the row, the rest are arguments.
  function NewToken(s: State, id: Id, email: string, verified: bool, mfa: bool, jti: nat, lifetime: int): Token
    requires id in s.rows
  {
    Session(jti, id, email, verified, s.rows[id].twoFactorEnabled, mfa, s.rows[id].userType, s.rows[id].provider,
            s.now, s.now + lifetime)
  }

  function AccessToken(s: State, id: Id, email: string, verified: bool, mfa: bool): Token
    requires id in s.rows
  {
    NewToken(s, id, email, verified, mfa, s.nextJti, SECONDS_PER_DAY)
  }

  function RefreshToken(s: State, id: Id, email: string, verified: bool, mfa: bool): Token
    requires id in s.rows
  {
    NewToken(s, id, email, verified, mfa, s.nextJti + 1, 7 * SECONDS_PER_DAY)
  }

  // createTokens: mint both, store the hash of the refresh token.
  function Mint(s: State, id: Id, email: string, verified: bool, mfa: bool): State
    requires id in s.rows
  {
    var refresh := RefreshToken(s, id, email, verified, mfa);
    s.(rows := s.rows[id := Stored(s.rows[id], Some(refresh), s.now)],
       issued := s.issued + {AccessToken(s, id, email, verified, mfa), refresh},
       nextJti := s.nextJti + 2)
  }

  function MintTokens(s: State, id: Id, email: string, verified: bool, mfa: bool): (State, Response)
    requires id in s.rows
  {
    (Mint(s, id, email, verified, mfa),
     Tokens(AccessToken(s, id, email, verified, mfa), RefreshToken(s, id, email, verified, mfa)))
  }

  function ResetTokenFor(s: State, email: string): Token {
    Reset(s.nextJti, email, s.now, s.now + RESET_LIFETIME)
  }

  function IssueReset(s: State, email: string): State {
    s.(issued := s.issued + {ResetTokenFor(s, email)}, nextJti := s.nextJti + 1)
  }

  predicate Signed(s: State, t: Token) {
    t in s.issued && Unexpired(t.exp, s.now)
  }

  // validateRefreshToken: the stored hash verifies exactly this token.
  predicate Current(s: State, t: Token) {
    t.Session? && t.sub in s.rows && s.rows[t.sub].refreshToken == Some(t)
  }

  // verifyToken: signature and expiry, payload shape, stored hash, user, claims.
  predicate Verifies(s: State, t: Token, isRefresh: bool) {
    && Signed(s, t)
    && t.Session?
    && (isRefresh ==> Current(s, t))
    && t.sub in s.rows
    && ClaimsValid(t.sub, t.email, t.iat, t.exp, s.now)
  }

  // The authentication stage of the guard, on a route with or without the two-factor mark.
  predicate Admits(s: State, t: Token, twoFactorRoute: bool) {
    Verifies(s, t, false) && (twoFactorRoute || !t.twoFactorEnabled || t.twoFactorVerified)
  }

  // ---- The calls ----

  datatype Request =
    | SignUp(email: string, password: string, confirmPassword: string, newId: Id, code: string)
    | Login(email: string, password: string, code: string)
    | FacebookAuth(email: string, newId: Id, password: string)
    | Refresh(token: Token)
    | VerifyEmail(token: Token, code: string)
    | ResendVerification(token: Token, code: string)
    | UpdateRole(token: Token, role: UserType)
    | EnableTwoFactor(token: Token, code: string)
    | ResendEnableCode(token: Token, code: string)
    | ConfirmTwoFactor(token: Token, code: string)
    | VerifyTwoFactor(token: Token, code: string)
    | ResendTwoFactorCode(token: Token, code: string)
    | DisableTwoFactor(token: Token, password: string)
    | InitiateReset(email: string, code: string)
    | VerifyResetCode(email: string, code: string)
    | CompleteReset(resetToken: Token, newPassword: string, confirmPassword: string)
    | Tick(seconds: nat)

  function NewRow(id: Id, email: string, password: string, provider: Provider, verified: bool): Row {
    Row(id, email, password, provider, verified, false, None, None, None,
        Profile(Names(None, None, None), None, None), map[])
  }

  ghost predicate Creatable(s: State, id: Id, email: string) {
    id != "" && id !in s.rows && email != "" && ByEmail(s.rows, email).None?
  }

  ghost function DoSignUp(s: State, email: string, password: string, confirm: string, newId: Id,
      code: string): (State, Response) {
    if !Creatable(s, newId, email) || password != confirm then (s, Rejected)
    else
      var (s1, r) := MintTokens(Create(s, NewRow(newId, email, password, Local, false)), newId, email, false, false);
      (SaveCode(s1, Email, email, code), r)
  }

  ghost function DoLogin(s: State, email: string, password: string, code: string): (State, Response) {
    match ByEmail(s.rows, email)
    case None => (s, Rejected)
    case Some(id) =>
      var row := s.rows[id];
      if row.password != password then (s, Rejected)
      else
        var s1 := if row.twoFactorEnabled then SaveCode(s, TwoFactor, id, code) else s;
        MintTokens(s1, id, row.email, row.isEmailVerified, false)
  }

  ghost function DoFacebookAuth(s: State, email: string, newId: Id, password: string): (State, Response) {
    match ByEmail(s.rows, email)
    case Some(id) =>
      if s.rows[id].provider == Facebook then MintTokens(s, id, s.rows[id].email, true, false) else (s, Rejected)
    case None =>
      if !Creatable(s, newId, email) then (s, Rejected)
      else MintTokens(Create(s, NewRow(newId, email, password, Facebook, true)), newId, email, true, false)
  }

  function DoRefresh(s: State, t: Token): (State, Response) {
    if !Verifies(s, t, true) then (s, Rejected)
    else MintTokens(s, t.sub, t.email, t.isEmailVerified, t.twoFactorEnabled && t.twoFactorVerified)
  }

  ghost function DoVerifyEmail(s: State, id: Id, email: string, code: string): (State, Response) {
    if !CodeMatches(s, Email, email, code) then (s, Rejected)
    else
      var s1 := ConsumeCode(s, Email, email);
      match ByEmail(s.rows, email)
      case None => (s1, Rejected)
      case Some(owner) =>
        if s.rows[owner].isEmailVerified then (s1, Done(false))
        else
          var s2 := SetRow(s1, owner, s.rows[owner].(isEmailVerified := true));
          if id in s.rows then MintTokens(s2, id, email, true, false) else (s2, Rejected)
  }

  ghost function DoResendVerification(s: State, email: string, code: string): (State, Response) {
    match ByEmail(s.rows, email)
    case None => (s, Rejected)
    case Some(owner) =>
      if s.rows[owner].isEmailVerified then (s, Rejected) else (SaveCode(s, Email, email, code), Done(true))
  }

  function DoUpdateRole(s: State, id: Id, role: UserType): (State, Response) {
    if id !in s.rows then (s, Rejected)
    else
      var row := s.rows[id].(userType := Some(role));
      MintTokens(SetRow(s, id, row), id, row.email, row.isEmailVerified, row.twoFactorEnabled)
  }

  function DoEnableTwoFactor(s: State, id: Id, code: string): (State, Response) {
    if id !in s.rows || s.rows[id].provider == Facebook || s.rows[id].twoFactorEnabled then (s, Rejected)
    else (SaveCode(s, TwoFactorEnable, id, code), Done(true))
  }

  function DoConfirmTwoFactor(s: State, id: Id, code: string): (State, Response) {
    if id !in s.rows || !CodeMatches(s, TwoFactorEnable, id, code) then (s, Rejected)
    else
      var row := s.rows[id].(twoFactorEnabled := true);
      MintTokens(SetRow(ConsumeCode(s, TwoFactorEnable, id), id, row), id, row.email, row.isEmailVerified, true)
  }

  // The code is spent before the user is looked up.
  function DoVerifyTwoFactor(s: State, id: Id, code: string): (State, Response) {
    if !CodeMatches(s, TwoFactor, id, code) then (s, Rejected)
    else if id !in s.rows then (ConsumeCode(s, TwoFactor, id), Rejected)
    else MintTokens(ConsumeCode(s, TwoFactor, id), id, s.rows[id].email, s.rows[id].isEmailVerified, true)
  }

  function DoDisableTwoFactor(s: State, id: Id, password: string): (State, Response) {
    if id !in s.rows || s.rows[id].password != password then (s, Rejected)
    else
      var row := s.rows[id].(twoFactorEnabled := false);
      MintTokens(SetRow(s, id, row), id, row.email, row.isEmailVerified, false)
  }

  // An unknown address is an error: the lookup throws before the source's neutral answer.
  ghost function DoInitiateReset(s: State, email: string, code: string): (State, Response) {
    match ByEmail(s.rows, email)
    case None => (s, Rejected)
    case Some(id) =>
      if s.rows[id].provider == Facebook then (s, Rejected) else (SaveCode(s, Password, email, code), Done(true))
  }

  function DoVerifyResetCode(s: State, email: string, code: string): (State, Response) {
    if !CodeMatches(s, Password, email, code) then (s, Rejected)
    else
      var s1 := ConsumeCode(s, Password, email);
      (IssueReset(s1, email), ResetGranted(ResetTokenFor(s1, email)))
  }

  ghost function DoCompleteReset(s: State, t: Token, password: string, confirm: string): (State, Response) {
    if password != confirm || !Signed(s, t) || !t.Reset? || t.email == "" then (s, Rejected)
    else
      match ByEmail(s.rows, t.email)
      case None => (s, Rejected)
      case Some(id) => (SetRow(s, id, s.rows[id].(password := password)), Done(true))
  }

  // One HTTP call: the guard of its route, then the use case.
  ghost function Handle(s: State, r: Request): (State, Response) {
    match r
    case SignUp(email, password, confirm, newId, code) => DoSignUp(s, email, password, confirm, newId, code)
    case Login(email, password, code) => DoLogin(s, email, password, code)
    case FacebookAuth(email, newId, password) => DoFacebookAuth(s, email, newId, password)
    case Refresh(t) => DoRefresh(s, t)
    case VerifyEmail(t, code) =>
      if Admits(s, t, false) then DoVerifyEmail(s, t.sub, t.email, code) else (s, Rejected)
    case ResendVerification(t, code) =>
      if Admits(s, t, false) then DoResendVerification(s, t.email, code) else (s, Rejected)
    case UpdateRole(t, role) =>
      if Admits(s, t, false) then DoUpdateRole(s, t.sub, role) else (s, Rejected)
    case EnableTwoFactor(t, code) =>
      if Admits(s, t, false) then DoEnableTwoFactor(s, t.sub, code) else (s, Rejected)
    case ResendEnableCode(t, code) =>
      if Admits(s, t, false) then (SaveCode(s, TwoFactorEnable, t.sub, code), Done(true)) else (s, Rejected)
    case ConfirmTwoFactor(t, code) =>
      if Admits(s, t, false) then DoConfirmTwoFactor(s, t.sub, code) else (s, Rejected)
    case VerifyTwoFactor(t, code) =>
      if Admits(s, t, true) then DoVerifyTwoFactor(s, t.sub, code) else (s, Rejected)
    case ResendTwoFactorCode(t, code) =>
      if Admits(s, t, true) then (SaveCode(s, TwoFactor, t.sub, code), Done(true)) else (s, Rejected)
    case DisableTwoFactor(t, password) =>
      if Admits(s, t, false) then DoDisableTwoFactor(s, t.sub, password) else (s, Rejected)
    case InitiateReset(email, code) => DoInitiateReset(s, email, code)
    case VerifyResetCode(email, code) => DoVerifyResetCode(s, email, code)
    case CompleteReset(t, password, confirm) => DoCompleteReset(s, t, password, confirm)
    case Tick(seconds) => (s.(now := s.now + seconds), Done(true))
  }

  ghost function Run(s: State, requests: seq<Request>): State
    decreases |requests|
  {
    if requests == [] then s else Run(Handle(s, requests[0]).0, requests[1..])
  }
}
