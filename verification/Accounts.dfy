/**
 * What a new account is and which password opens it, when each call succeeds, and what a code
 * sent again is good for.
 */
module Accounts {
  import opened Wrappers
  import opened Credentials
  import opened CodeStore
  import opened Users
  import opened Protocol
  import opened Safety
  import opened Guarantees
  import opened Authority
  import opened EndToEnd

  predicate AddressFree(s: State, email: string) {
    forall id <- s.rows :: s.rows[id].email != email
  }

  // ---- When each call succeeds ----

  // The calls that open accounts or start from an address.
  lemma OpenCallsSucceed(s: State, r: Request)
    requires Inv(s)
    ensures var answer := Handle(s, r).1;
            match r
            case SignUp(email, password, confirm, id, _) =>
              answer.Tokens? <==>
              id != "" && id !in s.rows && email != "" && AddressFree(s, email) && password == confirm
            case Login(email, password, _) =>
              answer.Tokens? <==> exists id <- s.rows :: s.rows[id].email == email && s.rows[id].password == password
            case FacebookAuth(email, id, _) =>
              answer.Tokens? <==>
              (exists other <- s.rows :: s.rows[other].email == email && s.rows[other].provider == Facebook) ||
              (id != "" && id !in s.rows && email != "" && AddressFree(s, email))
            case VerifyResetCode(email, code) => answer.ResetGranted? <==> CodeMatches(s, Password, email, code)
            case CompleteReset(t, password, confirm) =>
              answer == Done(true) <==>
              password == confirm && Signed(s, t) && t.Reset? && t.email != "" && !AddressFree(s, t.email)
            case InitiateReset(email, _) => answer == Done(true) <==> LocalEmail(s, email)
            case _ => true
  {
    hide GetKey, Matches, Mint, AccessToken, RefreshToken, ResetTokenFor, Inv;
    match r
    case Login(email, password, _) => ByAddress(s, email);
    case FacebookAuth(email, _, _) => ByAddress(s, email);
    case InitiateReset(email, _) => ByAddress(s, email);
    case _ =>
  }

  lemma ByAddress(s: State, email: string)
    requires Inv(s)
    ensures forall id :: id in s.rows && s.rows[id].email == email ==> ByEmail(s.rows, email) == Some(id)
  {
    hide ResetCodesLocal, TokenOk, RowOk, Coherent;
  }

  // The calls of a session.
  lemma SessionCallsSucceed(s: State, r: Request)
    requires Inv(s)
    ensures var answer := Handle(s, r).1;
            match r
            case Refresh(t) => answer.Tokens? <==> Verifies(s, t, true)
            case VerifyEmail(t, code) =>
              var live := Admits(s, t, false) && CodeMatches(s, Email, t.email, code);
              && (answer.Tokens? <==> live && !s.rows[t.sub].isEmailVerified)
              && (answer == Done(false) <==> live && s.rows[t.sub].isEmailVerified)
            case ResendVerification(t, _) =>
              answer == Done(true) <==> Admits(s, t, false) && !s.rows[t.sub].isEmailVerified
            case UpdateRole(t, _) => answer.Tokens? <==> Admits(s, t, false)
            case EnableTwoFactor(t, _) =>
              answer == Done(true) <==>
              Admits(s, t, false) && s.rows[t.sub].provider == Local && !s.rows[t.sub].twoFactorEnabled
            case ResendEnableCode(t, _) => answer == Done(true) <==> Admits(s, t, false)
            case ConfirmTwoFactor(t, code) =>
              answer.Tokens? <==> Admits(s, t, false) && CodeMatches(s, TwoFactorEnable, t.sub, code)
            case VerifyTwoFactor(t, code) =>
              answer.Tokens? <==> Admits(s, t, true) && CodeMatches(s, TwoFactor, t.sub, code)
            case ResendTwoFactorCode(t, _) => answer == Done(true) <==> Admits(s, t, true)
            case DisableTwoFactor(t, password) =>
              answer.Tokens? <==> Admits(s, t, false) && s.rows[t.sub].password == password
            case _ => true
  {
    hide GetKey, Matches, ClaimsValid, Mint, AccessToken, RefreshToken, Inv;
    if (r.VerifyEmail? || r.ResendVerification?) && Admits(s, r.token, false) {
      AddressIsOwn(s, r.token);
    }
  }

  // Nothing is minted but what is handed to the caller, and only time makes time pass.
  lemma NothingMintedUnseen(s: State, r: Request)
    ensures var (s', answer) := Handle(s, r);
            && s'.now == s.now + (if r.Tick? then r.seconds else 0)
            && (match answer
                case Tokens(access, refresh) => s'.issued == s.issued + {access, refresh} && s'.nextJti == s.nextJti + 2
                case ResetGranted(t) => s'.issued == s.issued + {t} && s'.nextJti == s.nextJti + 1
                case _ => s'.issued == s.issued && s'.nextJti == s.nextJti)
  {
    hide GetKey, Matches, ClaimsValid, NewToken;
  }

  // ---- The password of an account ----

  // The call sets, by a reset token, the password of the account with this address.
  ghost predicate ResetsPassword(s: State, r: Request, email: string) {
    r.CompleteReset? && r.resetToken.Reset? && r.resetToken.email == email && Handle(s, r).1 == Done(true)
  }

  ghost predicate NeverReset(s: State, requests: seq<Request>, email: string)
    decreases |requests|
  {
    requests == [] || (!ResetsPassword(s, requests[0], email) &&
        NeverReset(Handle(s, requests[0]).0, requests[1..], email))
  }

  // The account of this address, and its password.
  predicate Opens(s: State, id: Id, email: string, password: string) {
    id in s.rows && s.rows[id].email == email && s.rows[id].password == password
  }

  lemma PasswordStep(s: State, r: Request, id: Id, email: string, password: string)
    requires Inv(s) && Opens(s, id, email, password) && !ResetsPassword(s, r, email)
    ensures Inv(Handle(s, r).0) && Opens(Handle(s, r).0, id, email, password)
  {
    hide Inv, Handle, Grows, Signed;
    HandleStep(s, r);
    EveryChangeAuthorised(s, r, id);
    if r.CompleteReset? {
      RefusedResetKeeps(s, r);
    }
  }

  lemma RefusedResetKeeps(s: State, r: Request)
    requires r.CompleteReset?
    ensures Handle(s, r).1 == Done(true) || Handle(s, r).0 == s
  {
  }

  lemma {:induction false} PasswordRun(s: State, requests: seq<Request>, id: Id, email: string, password: string)
    requires Inv(s) && Opens(s, id, email, password) && NeverReset(s, requests, email)
    ensures Inv(Run(s, requests)) && Opens(Run(s, requests), id, email, password)
    decreases |requests|
  {
    hide Inv, Handle, Opens, ResetsPassword;
    if requests != [] {
      PasswordStep(s, requests[0], id, email, password);
      PasswordRun(Handle(s, requests[0]).0, requests[1..], id, email, password);
    }
  }

  // The password opens its account, and no other password does.
  lemma OnlyThisPassword(s: State, id: Id, email: string, password: string, other: string, code: string)
    requires Inv(s) && Opens(s, id, email, password) && other != password
    ensures var answer := Handle(s, Login(email, password, code)).1;
            answer.Tokens? && answer.access.Session? && answer.access.sub == id && answer.refresh.Session? &&
                answer.refresh.sub == id
    ensures Handle(s, Login(email, other, code)) == (s, Rejected)
  {
    ByAddress(s, email);
    hide Inv, Mint, GetKey;
  }

  // A sign-up that succeeds opens a password account with the password given: unverified, without
  // a role, two-factor off, everyone else's account as it was. After any calls by anyone, as long
  // as no reset token for the address sets another password, that password logs into it and any
  // other is refused.
  lemma PasswordAccount(s: State, id: Id, email: string, password: string, other: string, code: string,
                        mid: seq<Request>, loginCode: string)
    requires Inv(s) && Handle(s, SignUp(email, password, password, id, code)).1.Tokens? && other != password
    requires NeverReset(Handle(s, SignUp(email, password, password, id, code)).0, mid, email)
    ensures var (s1, signed) := Handle(s, SignUp(email, password, password, id, code));
            var s2 := Run(s1, mid);
            && id !in s.rows && s1.rows.Keys == s.rows.Keys + {id} && (forall o <- s.rows :: s1.rows[o] == s.rows[o])
            && (var row := s1.rows[id];
                && row.id == id && row.email == email && row.password == password && row.provider == Local
                && !row.isEmailVerified && row.userType == None && !row.twoFactorEnabled && row.details == map[]
                && row.profile.slug == row.profile.slugId == None)
            && signed.access.Session? && signed.access.sub == id
            && (var answer := Handle(s2, Login(email, password, loginCode)).1;
                answer.Tokens? && answer.access.Session? && answer.access.sub == id)
            && Handle(s2, Login(email, other, loginCode)) == (s2, Rejected)
  {
    hide Inv, Run, NeverReset;
    var s1 := Handle(s, SignUp(email, password, password, id, code)).0;
    SignUpOpens(s, id, email, password, code);
    hide Handle;
    HandleStep(s, SignUp(email, password, password, id, code));
    StepInv(s, s1);
    PasswordRun(s1, mid, id, email, password);
    OnlyThisPassword(Run(s1, mid), id, email, password, other, loginCode);
  }

  lemma SignUpOpens(s: State, id: Id, email: string, password: string, code: string)
    requires Handle(s, SignUp(email, password, password, id, code)).1.Tokens?
    ensures var (s1, signed) := Handle(s, SignUp(email, password, password, id, code));
            && id !in s.rows && s1.rows.Keys == s.rows.Keys + {id} && (forall o <- s.rows :: s1.rows[o] == s.rows[o])
            && Opens(s1, id, email, password)
            && (var row := s1.rows[id];
                && row.id == id && row.provider == Local && !row.isEmailVerified && row.userType == None
                && !row.twoFactorEnabled && row.details == map[] && row.profile.slug == row.profile.slugId == None)
            && signed.access.Session? && signed.access.sub == id
  {
    hide GetKey;
  }

  // A Facebook login at a free address opens a verified Facebook account with the password passed
  // in. From then on, whatever anyone does, Facebook logs into that account, its password is that
  // one, and the address can neither be signed up nor have its password reset.
  lemma FacebookAccount(s: State, id: Id, email: string, password: string, other: string, mid: seq<Request>,
                        newId: Id, unused: string, code: string)
    requires Inv(s) && AddressFree(s, email) && Handle(s, FacebookAuth(email, id, password)).1.Tokens? &&
             other != password
    ensures var (s1, opening) := Handle(s, FacebookAuth(email, id, password));
            var s2 := Run(s1, mid);
            && id !in s.rows && s1.rows.Keys == s.rows.Keys + {id} && (forall o <- s.rows :: s1.rows[o] == s.rows[o])
            && (var row := s1.rows[id];
                && row.id == id && row.email == email && row.password == password && row.provider == Facebook
                && row.isEmailVerified && row.userType == None && !row.twoFactorEnabled && row.details == map[]
                && row.profile.slug == row.profile.slugId == None)
            && opening.access.Session? && opening.access.sub == id
            && (var again := Handle(s2, FacebookAuth(email, newId, unused)).1;
                again.Tokens? && again.access.Session? && again.access.sub == id && again.access.isEmailVerified)
            && (var answer := Handle(s2, Login(email, password, code)).1;
                answer.Tokens? && answer.access.Session? && answer.access.sub == id)
            && Handle(s2, Login(email, other, code)) == (s2, Rejected)
            && Handle(s2, SignUp(email, other, other, newId, code)) == (s2, Rejected)
            && Handle(s2, InitiateReset(email, code)) == (s2, Rejected)
  {
    hide Inv, Run;
    var s1 := Handle(s, FacebookAuth(email, id, password)).0;
    FacebookOpens(s, id, email, password);
    hide Handle;
    HandleStep(s, FacebookAuth(email, id, password));
    StepInv(s, s1);
    RunStep(s1, mid);
    StepInv(s1, Run(s1, mid));
    FacebookStays(s1, Run(s1, mid), id);
    OnlyThisPassword(Run(s1, mid), id, email, password, other, code);
    FacebookLogsIn(Run(s1, mid), id, email, newId, unused, other, code);
  }

  lemma FacebookOpens(s: State, id: Id, email: string, password: string)
    requires AddressFree(s, email) && Handle(s, FacebookAuth(email, id, password)).1.Tokens?
    ensures var (s1, opening) := Handle(s, FacebookAuth(email, id, password));
            && id !in s.rows && s1.rows.Keys == s.rows.Keys + {id} && (forall o <- s.rows :: s1.rows[o] == s.rows[o])
            && Opens(s1, id, email, password)
            && (var row := s1.rows[id];
                && row.id == id && row.provider == Facebook && row.isEmailVerified && row.userType == None
                && !row.twoFactorEnabled && row.details == map[] && row.profile.slug == row.profile.slugId == None)
            && opening.access.Session? && opening.access.sub == id
  {
  }

  lemma FacebookStays(s: State, s': State, id: Id)
    requires Inv(s) && Step(s, s') && id in s.rows && s.rows[id].provider == Facebook
    ensures id in s'.rows && s'.rows[id].provider == Facebook
    ensures s'.rows[id].email == s.rows[id].email && s'.rows[id].password == s.rows[id].password
  {
    assert RowOk(s, id) && RowOk(s', id) && RowGrows(s.rows[id], s'.rows[id]);
    hide ResetCodesLocal, TokenOk, Coherent;
  }

  lemma FacebookLogsIn(s: State, id: Id, email: string, newId: Id, unused: string, password: string, code: string)
    requires Inv(s) && id in s.rows && s.rows[id].email == email && s.rows[id].provider == Facebook
    ensures var again := Handle(s, FacebookAuth(email, newId, unused)).1;
            again.Tokens? && again.access.Session? && again.access.sub == id && again.access.isEmailVerified
    ensures Handle(s, SignUp(email, password, password, newId, code)) == (s, Rejected)
    ensures Handle(s, InitiateReset(email, code)) == (s, Rejected)
  {
    ByAddress(s, email);
    hide Inv, Mint, GetKey;
  }

  // ---- A code sent again ----

  // A session that is admitted to the two-factor exchange, so one that owes its second factor too,
  // may have the code sent again. The code before is refused from then on; the new one, submitted
  // within 300 s, gives a session admitted everywhere.
  lemma SecondFactorResent(s: State, t: Token, code: string, stale: string, mid: seq<Request>)
    requires Inv(s) && s.now > 0 && Admits(s, t, true) && stale != code
    requires var s1 := Handle(s, ResendTwoFactorCode(t, code)).0;
             Undisturbed(s1, mid, TwoFactor, t.sub, code) && Run(s1, mid).now < s.now + 300 &&
             Verifies(Run(s1, mid), t, false)
    ensures var (s1, sent) := Handle(s, ResendTwoFactorCode(t, code));
            var (s3, answer) := Handle(Run(s1, mid), VerifyTwoFactor(t, code));
            && sent == Done(true) && Handle(s1, VerifyTwoFactor(t, stale)) == (s1, Rejected)
            && answer.Tokens? && answer.access.Session? && answer.access.sub == t.sub &&
                 Admits(s3, answer.access, false)
  {
    hide Inv, Run, Undisturbed, Holds, ClaimsValid, Signed;
    var s1 := Handle(s, ResendTwoFactorCode(t, code)).0;
    SecondFactorSent(s, t, code, stale);
    hide Handle;
    HandleStep(s, ResendTwoFactorCode(t, code));
    StepInv(s, s1);
    UndisturbedRun(s1, mid, TwoFactor, t.sub, code, s.now + 300);
    RunStep(s1, mid);
    StepInv(s1, Run(s1, mid));
    TimePasses(s1, Run(s1, mid));
    SecondFactorSettles(Run(s1, mid), t, code, s.now + 300);
  }

  lemma SecondFactorSent(s: State, t: Token, code: string, stale: string)
    requires Admits(s, t, true) && stale != code
    ensures var (s1, sent) := Handle(s, ResendTwoFactorCode(t, code));
            && sent == Done(true) && Holds(s1, TwoFactor, t.sub, code, s.now + 300) && s1.now == s.now
            && Handle(s1, VerifyTwoFactor(t, stale)) == (s1, Rejected)
  {
    hide GetKey, ClaimsValid;
  }

  lemma SecondFactorSettles(s: State, t: Token, code: string, expiresAt: nat)
    requires Inv(s) && 0 < s.now < expiresAt && Verifies(s, t, false) && Holds(s, TwoFactor, t.sub, code, expiresAt)
    ensures var (s', answer) := Handle(s, VerifyTwoFactor(t, code));
            answer.Tokens? && answer.access.Session? && answer.access.sub == t.sub && Admits(s', answer.access, false)
  {
    hide Inv, Holds, GetKey, Matches;
    RowNamed(s, t.sub);
    HeldMatches(s, TwoFactor, t.sub, code, expiresAt);
  }

  // The holder of an unverified address may have the code sent again. The code before is refused
  // from then on; the new one, submitted within 300 s, verifies the account.
  lemma VerificationResent(s: State, t: Token, code: string, stale: string, mid: seq<Request>)
    requires Inv(s) && Admits(s, t, false) && !s.rows[t.sub].isEmailVerified && stale != code
    requires var s1 := Handle(s, ResendVerification(t, code)).0;
             Undisturbed(s1, mid, Email, t.email, code) && Run(s1, mid).now < s.now + 300 &&
             Verifies(Run(s1, mid), t, false)
    ensures var (s1, sent) := Handle(s, ResendVerification(t, code));
            var (s3, answer) := Handle(Run(s1, mid), VerifyEmail(t, code));
            && sent == Done(true) && Handle(s1, VerifyEmail(t, stale)) == (s1, Rejected)
            && answer.Tokens? && answer.access.Session? && answer.access.sub == t.sub && answer.access.isEmailVerified
            && t.sub in s3.rows && s3.rows[t.sub].isEmailVerified
  {
    hide Inv, Run, Undisturbed, Holds, ClaimsValid;
    var s1 := Handle(s, ResendVerification(t, code)).0;
    AddressIsOwn(s, t);
    hide Signed;
    VerificationSent(s, t, code, stale);
    hide Handle;
    HandleStep(s, ResendVerification(t, code));
    StepInv(s, s1);
    UndisturbedRun(s1, mid, Email, t.email, code, s.now + 300);
    UnverifiedRun(s1, mid, t.sub, t.email, code, s.now + 300);
    CodeVerifiesNow(Run(s1, mid), t, code, s.now + 300);
  }

  lemma VerificationSent(s: State, t: Token, code: string, stale: string)
    requires Admits(s, t, false) && ByEmail(s.rows, t.email) == Some(t.sub) && !s.rows[t.sub].isEmailVerified &&
             stale != code
    ensures var (s1, sent) := Handle(s, ResendVerification(t, code));
            && sent == Done(true) && Holds(s1, Email, t.email, code, s.now + 300) && s1.now == s.now &&
                 s1.rows == s.rows
            && Handle(s1, VerifyEmail(t, stale)) == (s1, Rejected)
  {
    hide GetKey, ClaimsValid;
  }

  lemma CodeVerifiesNow(s: State, t: Token, code: string, expiresAt: nat)
    requires Admits(s, t, false) && ByEmail(s.rows, t.email) == Some(t.sub) && !s.rows[t.sub].isEmailVerified
    requires Holds(s, Email, t.email, code, expiresAt) && s.now < expiresAt
    ensures var (s', answer) := Handle(s, VerifyEmail(t, code));
            && answer.Tokens? && answer.access.Session? && answer.access.sub == t.sub && answer.access.isEmailVerified
            && t.sub in s'.rows && s'.rows[t.sub].isEmailVerified
  {
    hide GetKey, ClaimsValid;
    HeldMatches(s, Email, t.email, code, expiresAt);
  }
}
