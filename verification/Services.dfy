/**
 * The services as the source writes them: objects that update the rows, the code store and
 * the token service step by step. AuthController.Handle is proved to perform exactly the
 * protocol's steps, so everything proved of the protocol's runs holds of them.
 */
module Services {
  import opened Wrappers
  import opened Credentials
  import opened CodeStore
  import opened Slug
  import opened Users
  import opened Protocol
  import Safety

  /** `TokenService`; `issued` stands for the set of tokens signed with its key. */
  class TokenService {
    const users: UserRepository
    var issued: set<Token>
    var nextJti: nat

    constructor (users: UserRepository)
      ensures this.users == users && issued == {} && nextJti == 0
    {
      this.users, issued, nextJti := users, {}, 0;
    }

    // None: the user lookup or the duration threw.
    method CreateToken(id: Id, email: string, verified: bool, expiresIn: string, mfa: bool, now: nat)
      returns (t: Option<Token>)
      modifies this
      ensures t.Some? <==> id in users.rows && CalculateExpirationTime(expiresIn, now).Some?
      ensures t.Some? ==>
                && t.value == Session(old(nextJti), id, email, verified, users.rows[id].twoFactorEnabled, mfa,
                                      users.rows[id].userType, users.rows[id].provider, now,
                                      CalculateExpirationTime(expiresIn, now).value)
                && issued == old(issued) + {t.value} && nextJti == old(nextJti) + 1
      ensures t.None? ==> issued == old(issued) && nextJti == old(nextJti)
    {
      var user := users.FindById(id);
      var exp := CalculateExpirationTime(expiresIn, now);
      if user.None? || exp.None? {
        return None;
      }
      var payload := Session(nextJti, id, email, verified, user.value.twoFactorEnabled, mfa,
                             user.value.userType, user.value.provider, now, exp.value);
      nextJti := nextJti + 1;
      issued := issued + {payload};
      t := Some(payload);
    }

    method CreateTokens(id: Id, email: string, verified: bool, mfa: bool, now: nat) returns (r: Response)
      requires Unique(users.rows)
      modifies this, users`rows
      ensures Unique(users.rows)
      ensures forall s: State ::
                s.rows == old(users.rows) && s.issued == old(issued) && s.nextJti == old(nextJti) && s.now == now &&
                    id in s.rows ==>
                var (s', r') := MintTokens(s, id, email, verified, mfa);
                users.rows == s'.rows && issued == s'.issued && nextJti == s'.nextJti && r == r'
      ensures id !in old(users.rows) ==>
                r == Rejected && users.rows == old(users.rows) && issued == old(issued) && nextJti == old(nextJti)
    {
      var access := CreateToken(id, email, verified, "1d", mfa, now);
      var refresh := CreateToken(id, email, verified, "7d", mfa, now);
      if access.None? || refresh.None? {
        return Rejected;
      }
      var ok := users.UpdateRefreshToken(id, refresh, now);
      r := Tokens(access.value, refresh.value);
    }

    method ValidateRefreshToken(id: Id, t: Token) returns (ok: bool)
      ensures ok <==> id in users.rows && users.rows[id].refreshToken == Some(t)
    {
      var user := users.FindById(id);
      if user.None? || user.value.refreshToken.None? {
        return false;
      }
      ok := user.value.refreshToken.value == t;
    }

    // No token carries the claim that `requireMfa` asks for, so with it every token is refused.
    method VerifyToken(t: Token, isRefresh: bool, requireMfa: bool, now: nat) returns (ok: bool)
      ensures forall s: State :: s.rows == users.rows && s.issued == issued && s.now == now ==>
                (ok <==> Verifies(s, t, isRefresh) && !requireMfa)
      ensures ok ==> t.Session?
    {
      if t !in issued || !Unexpired(t.exp, now) || !t.Session? {
        return false;
      }
      if isRefresh {
        var current := ValidateRefreshToken(t.sub, t);
        if !current {
          return false;
        }
      }
      var user := users.FindById(t.sub);
      if user.None? {
        return false;
      }
      ok := ClaimsValid(t.sub, t.email, t.iat, t.exp, now) && !requireMfa;
    }

    method CreatePasswordResetToken(email: string, now: nat) returns (t: Token)
      modifies this
      ensures t == Reset(old(nextJti), email, now, now + 900)
      ensures issued == old(issued) + {t} && nextJti == old(nextJti) + 1
    {
      t := Reset(nextJti, email, now, now + RESET_LIFETIME);
      nextJti := nextJti + 1;
      issued := issued + {t};
    }

    // The address the token was issued for; None when it is refused.
    method VerifyPasswordResetToken(t: Token, now: nat) returns (email: Option<string>)
      ensures email == if t in issued && Unexpired(t.exp, now) && t.Reset? && t.email != "" then Some(t.email) else None
    {
      if t !in issued || !Unexpired(t.exp, now) || !t.Reset? || t.email == "" {
        return None;
      }
      email := Some(t.email);
    }
  }

  // The global guard's authentication stage: the token verifies and its second factor is settled.
  method SettleSession(tokens: TokenService, t: Token, twoFactorRoute: bool, now: nat) returns (ok: bool)
    ensures forall s: State :: s.rows == tokens.users.rows && s.issued == tokens.issued && s.now == now ==>
              (ok <==> Admits(s, t, twoFactorRoute))
    ensures ok ==> t.Session?
  {
    ok := tokens.VerifyToken(t, false, false, now);
    if ok && !twoFactorRoute && t.twoFactorEnabled && !t.twoFactorVerified {
      ok := false;
    }
  }

  /** `EmailUseCase` over `EmailService`: writing and consuming codes sent by mail. */
  class EmailUseCase {
    const users: UserRepository
    const redis: RedisService

    constructor (users: UserRepository, redis: RedisService)
      ensures this.users == users && this.redis == redis
    {
      this.users, this.redis := users, redis;
    }

    method SendVerificationEmail(to: string, code: string, now: nat)
      requires redis.Valid()
      modifies redis
      ensures redis.Valid() && redis.store == Saved(old(redis.store), Email, to, code, now)
      ensures Consumed(redis.history) == Consumed(old(redis.history))
    {
      redis.Save(Email, to, code, now);
    }

    // None: the code was refused or the user lookup threw. Some(false): already verified;
    // the code is spent all the same.
    method VerifyEmailCode(email: string, code: string, nano: string, now: nat) returns (r: Option<bool>)
      requires redis.Valid() && Unique(users.rows) && NanoId(nano)
      modifies redis, users`rows
      ensures redis.Valid() && Unique(users.rows)
      ensures var accepted := Matches(old(redis.store), Email, email, code, now);
              && redis.store == (if accepted then Dropped(old(redis.store), Email, email) else old(redis.store))
              && Consumed(redis.history) ==
                   (if accepted then Consumed(old(redis.history)) + {(Email, email)} else Consumed(old(redis.history)))
              && var owner := ByEmail(old(users.rows), email);
                 if !accepted || owner.None? then r == None && users.rows == old(users.rows)
                 else if old(users.rows)[owner.value].isEmailVerified then r == Some(false) &&
                     users.rows == old(users.rows)
                 else r == Some(true) &&
                      users.rows == old(users.rows)[owner.value :=
                          old(users.rows)[owner.value].(isEmailVerified := true)]
    {
      hide TakenBySlug, UpdateProfile;
      var valid := redis.Verify(Email, email, code, now);
      if !valid {
        return None;
      }
      var user := users.FindByEmail(email);
      if user.None? {
        return None;
      }
      if user.value.isEmailVerified {
        return Some(false);
      }
      var updated := users.Update(user.value.id, NO_CHANGE.(isEmailVerified := Some(true)), nano);
      r := Some(true);
    }

    method SendPasswordResetEmail(to: string, code: string, now: nat)
      requires redis.Valid()
      modifies redis
      ensures redis.Valid() && redis.store == Saved(old(redis.store), Password, to, code, now)
      ensures Consumed(redis.history) == Consumed(old(redis.history))
    {
      redis.Save(Password, to, code, now);
    }

    method VerifyPasswordResetCode(email: string, code: string, now: nat) returns (ok: bool)
      requires redis.Valid()
      modifies redis
      ensures redis.Valid() && (ok <==> Matches(old(redis.store), Password, email, code, now))
      ensures redis.store == if ok then Dropped(old(redis.store), Password, email) else old(redis.store)
      ensures Consumed(redis.history) ==
              if ok then Consumed(old(redis.history)) + {(Password, email)} else Consumed(old(redis.history))
    {
      ok := redis.Verify(Password, email, code, now);
    }
  }

  /** `TwoFactorUseCase`. A result of false stands for the exception thrown. */
  class TwoFactorUseCase {
    const users: UserRepository
    const redis: RedisService

    constructor (users: UserRepository, redis: RedisService)
      ensures this.users == users && this.redis == redis
    {
      this.users, this.redis := users, redis;
    }

    method SendCode(kind: Kind, id: Id, code: string, now: nat) returns (ok: bool)
      requires redis.Valid()
      modifies redis
      ensures redis.Valid() && (ok <==> id in users.rows)
      ensures redis.store == if ok then Saved(old(redis.store), kind, id, code, now) else old(redis.store)
      ensures Consumed(redis.history) == Consumed(old(redis.history))
    {
      var user := users.FindById(id);
      if user.None? {
        return false;
      }
      redis.Save(kind, id, code, now);
      ok := true;
    }

    method InitiateEnable(id: Id, code: string, now: nat) returns (ok: bool)
      requires redis.Valid()
      modifies redis
      ensures redis.Valid()
      ensures ok <==> id in users.rows && users.rows[id].provider != Facebook && !users.rows[id].twoFactorEnabled
      ensures redis.store == if ok then Saved(old(redis.store), TwoFactorEnable, id, code, now) else old(redis.store)
      ensures Consumed(redis.history) == Consumed(old(redis.history))
    {
      var user := users.FindById(id);
      if user.None? || user.value.provider == Facebook || user.value.twoFactorEnabled {
        return false;
      }
      redis.Save(TwoFactorEnable, id, code, now);
      ok := true;
    }

    method ConfirmEnable(id: Id, code: string, now: nat) returns (ok: bool)
      requires redis.Valid() && Unique(users.rows)
      modifies redis, users`rows
      ensures redis.Valid() && Unique(users.rows)
      ensures var accepted := Matches(old(redis.store), TwoFactorEnable, id, code, now);
              && redis.store == (if accepted then Dropped(old(redis.store), TwoFactorEnable, id) else old(redis.store))
              && Consumed(redis.history) ==
                   (if accepted then Consumed(old(redis.history)) + {(TwoFactorEnable, id)}
                       else Consumed(old(redis.history)))
              && (ok <==> accepted && id in old(users.rows))
              && users.rows == if ok then old(users.rows)[id := old(users.rows)[id].(twoFactorEnabled := true)]
                               else old(users.rows)
    {
      ok := redis.Verify(TwoFactorEnable, id, code, now);
      if ok {
        ok := users.SetTwoFactor(id, true);
      }
    }

    method Disable(id: Id, password: string) returns (ok: bool)
      requires Unique(users.rows)
      modifies users`rows
      ensures Unique(users.rows)
      ensures ok <==> id in old(users.rows) && old(users.rows)[id].password == password
      ensures users.rows == if ok then old(users.rows)[id := old(users.rows)[id].(twoFactorEnabled := false)]
                            else old(users.rows)
    {
      var user := users.FindById(id);
      if user.None? || user.value.password != password {
        return false;
      }
      ok := users.SetTwoFactor(id, false);
    }

    method VerifyAuthCode(id: Id, code: string, now: nat) returns (ok: bool)
      requires redis.Valid()
      modifies redis
      ensures redis.Valid() && (ok <==> Matches(old(redis.store), TwoFactor, id, code, now))
      ensures redis.store == if ok then Dropped(old(redis.store), TwoFactor, id) else old(redis.store)
      ensures Consumed(redis.history) ==
              if ok then Consumed(old(redis.history)) + {(TwoFactor, id)} else Consumed(old(redis.history))
    {
      ok := redis.Verify(TwoFactor, id, code, now);
    }
  }

  /** `AuthUseCase`. Randomness (codes, row ids, nano ids) comes in as arguments. */
  class AuthUseCase {
    const users: UserRepository
    const redis: RedisService
    const tokens: TokenService
    const emails: EmailUseCase
    const twoFactor: TwoFactorUseCase

    constructor (users: UserRepository, redis: RedisService)
      requires redis.Valid() && Unique(users.rows)
      ensures Valid() && this.users == users && this.redis == redis && fresh(tokens)
      ensures tokens.issued == {} && tokens.nextJti == 0
    {
      this.users, this.redis := users, redis;
      this.tokens := new TokenService(users);
      this.emails := new EmailUseCase(users, redis);
      this.twoFactor := new TwoFactorUseCase(users, redis);
    }

    ghost predicate Valid()
      reads users, redis
    {
      && redis.Valid() && Unique(users.rows) && tokens.users == users
      && emails.users == users && emails.redis == redis && twoFactor.users == users && twoFactor.redis == redis
    }

    // The protocol state these objects hold.
    ghost function View(now: nat): State
      reads users, redis, tokens
    {
      State(users.rows, redis.store, tokens.issued, tokens.nextJti, now, Consumed(redis.history), users.created)
    }

    method SignUp(email: string, password: string, confirm: string, newId: Id, code: string, now: nat)
        returns (r: Response)
      requires Valid()
      modifies users, redis, tokens
      ensures Valid()
      ensures (View(now), r) == DoSignUp(old(View(now)), email, password, confirm, newId, code)
    {
      var existing := users.FindByEmail(email);
      if existing.Some? || password != confirm {
        return Rejected;
      }
      var created := users.Create(NewRow(newId, email, password, Local, false));
      if !created {
        return Rejected;
      }
      ghost var s := View(now);
      r := tokens.CreateTokens(newId, email, false, false, now);
      assert View(now) == MintTokens(s, newId, email, false, false).0;
      emails.SendVerificationEmail(email, code, now);
    }

    method Login(email: string, password: string, code: string, now: nat) returns (r: Response)
      requires Valid()
      modifies users, redis, tokens
      ensures Valid()
      ensures (View(now), r) == DoLogin(old(View(now)), email, password, code)
    {
      var user := users.FindByEmail(email);
      if user.None? || user.value.password != password {
        return Rejected;
      }
      if user.value.twoFactorEnabled {
        var sent := twoFactor.SendCode(TwoFactor, user.value.id, code, now);
      }
      ghost var s := View(now);
      r := tokens.CreateTokens(user.value.id, user.value.email, user.value.isEmailVerified, false, now);
      assert View(now) == MintTokens(s, user.value.id, user.value.email, user.value.isEmailVerified, false).0;
    }

    method FacebookAuth(email: string, newId: Id, password: string, now: nat) returns (r: Response)
      requires Valid()
      modifies users, redis, tokens
      ensures Valid()
      ensures (View(now), r) == DoFacebookAuth(old(View(now)), email, newId, password)
    {
      var existing := users.FindByEmail(email);
      if existing.Some? {
        if existing.value.provider == Facebook {
          r := tokens.CreateTokens(existing.value.id, existing.value.email, true, false, now);
          assert View(now) == MintTokens(old(View(now)), existing.value.id, existing.value.email, true, false).0;
          return r;
        }
        return Rejected;
      }
      var created := users.Create(NewRow(newId, email, password, Facebook, true));
      if !created {
        return Rejected;
      }
      ghost var s := View(now);
      r := tokens.CreateTokens(newId, email, true, false, now);
      assert View(now) == MintTokens(s, newId, email, true, false).0;
    }

    method VerifyTwoFactor(id: Id, code: string, now: nat) returns (r: Response)
      requires Valid()
      modifies users, redis, tokens
      ensures Valid()
      ensures (View(now), r) == DoVerifyTwoFactor(old(View(now)), id, code)
    {
      var valid := twoFactor.VerifyAuthCode(id, code, now);
      if !valid {
        return Rejected;
      }
      var user := users.FindById(id);
      if user.None? {
        return Rejected;
      }
      ghost var s := View(now);
      r := tokens.CreateTokens(user.value.id, user.value.email, user.value.isEmailVerified, true, now);
      assert View(now) == MintTokens(s, id, user.value.email, user.value.isEmailVerified, true).0;
    }

    method ConfirmTwoFactor(id: Id, code: string, now: nat) returns (r: Response)
      requires Valid()
      modifies users, redis, tokens
      ensures Valid()
      ensures (View(now), r) == DoConfirmTwoFactor(old(View(now)), id, code)
    {
      var user := users.FindById(id);
      if user.None? {
        return Rejected;
      }
      var valid := twoFactor.ConfirmEnable(id, code, now);
      if !valid {
        return Rejected;
      }
      ghost var s := View(now);
      r := tokens.CreateTokens(id, user.value.email, user.value.isEmailVerified, true, now);
      assert View(now) == MintTokens(s, id, user.value.email, user.value.isEmailVerified, true).0;
    }

    method DisableTwoFactor(id: Id, password: string, now: nat) returns (r: Response)
      requires Valid()
      modifies users, redis, tokens
      ensures Valid()
      ensures (View(now), r) == DoDisableTwoFactor(old(View(now)), id, password)
    {
      var user := users.FindById(id);
      if user.None? {
        return Rejected;
      }
      var disabled := twoFactor.Disable(id, password);
      if !disabled {
        return Rejected;
      }
      ghost var s := View(now);
      r := tokens.CreateTokens(id, user.value.email, user.value.isEmailVerified, false, now);
      assert View(now) == MintTokens(s, id, user.value.email, user.value.isEmailVerified, false).0;
    }

    method RefreshTokens(t: Token, now: nat) returns (r: Response)
      requires Valid()
      modifies users, redis, tokens
      ensures Valid()
      ensures (View(now), r) == DoRefresh(old(View(now)), t)
    {
      var valid := tokens.VerifyToken(t, true, false, now);
      assert valid <==> Verifies(View(now), t, true);
      if !valid {
        return Rejected;
      }
      var mfa := t.twoFactorEnabled && t.twoFactorVerified;
      r := tokens.CreateTokens(t.sub, t.email, t.isEmailVerified, mfa, now);
      assert View(now) == MintTokens(old(View(now)), t.sub, t.email, t.isEmailVerified, mfa).0;
    }

    method VerifyEmailCode(id: Id, email: string, code: string, nano: string, now: nat) returns (r: Response)
      requires Valid() && NanoId(nano)
      modifies users, redis, tokens
      ensures Valid()
      ensures (View(now), r) == DoVerifyEmail(old(View(now)), id, email, code)
    {
      var verified := emails.VerifyEmailCode(email, code, nano, now);
      if verified.None? {
        return Rejected;
      }
      if !verified.value {
        return Done(false);
      }
      ghost var s := View(now);
      r := tokens.CreateTokens(id, email, true, false, now);
      assert id in s.rows ==> View(now) == MintTokens(s, id, email, true, false).0;
    }

    method ResendVerificationCode(t: Token, code: string, now: nat) returns (r: Response)
      requires Valid()
      modifies users, redis, tokens
      ensures Valid()
      ensures (View(now), r) ==
              if Verifies(old(View(now)), t, false) then DoResendVerification(old(View(now)), t.email, code)
              else (old(View(now)), Rejected)
    {
      var valid := tokens.VerifyToken(t, false, false, now);
      assert valid <==> Verifies(View(now), t, false);
      if !valid {
        return Rejected;
      }
      var user := users.FindByEmail(t.email);
      if user.None? || user.value.isEmailVerified {
        return Rejected;
      }
      emails.SendVerificationEmail(t.email, code, now);
      r := Done(true);
    }

    method UpdateUserRole(id: Id, role: UserType, nano: string, now: nat) returns (r: Response)
      requires Valid() && NanoId(nano)
      modifies users, redis, tokens
      ensures Valid()
      ensures (View(now), r) == DoUpdateRole(old(View(now)), id, role)
    {
      hide TakenBySlug, UpdateProfile;
      var user := users.FindById(id);
      if user.None? {
        return Rejected;
      }
      var updated := users.Update(id, NO_CHANGE.(userType := Some(Some(role))), nano);
      if updated.None? {
        return Rejected;
      }
      ghost var s := View(now);
      r := tokens.CreateTokens(updated.value.id, updated.value.email, updated.value.isEmailVerified,
                               updated.value.twoFactorEnabled, now);
      assert View(now) ==
             MintTokens(s, id, updated.value.email, updated.value.isEmailVerified, updated.value.twoFactorEnabled).0;
    }

    method InitiatePasswordReset(email: string, code: string, now: nat) returns (r: Response)
      requires Valid()
      modifies users, redis, tokens
      ensures Valid()
      ensures (View(now), r) == DoInitiateReset(old(View(now)), email, code)
    {
      var user := users.FindByEmail(email);
      if user.None? || user.value.provider == Facebook {
        return Rejected;
      }
      emails.SendPasswordResetEmail(email, code, now);
      r := Done(true);
    }

    method VerifyPasswordResetCode(email: string, code: string, now: nat) returns (r: Response)
      requires Valid()
      modifies users, redis, tokens
      ensures Valid()
      ensures (View(now), r) == DoVerifyResetCode(old(View(now)), email, code)
    {
      hide Matches, Unique, TakenBySlug, Consumed, Replay;
      var verified := emails.VerifyPasswordResetCode(email, code, now);
      if !verified {
        return Rejected;
      }
      var t := tokens.CreatePasswordResetToken(email, now);
      r := ResetGranted(t);
    }

    method CompletePasswordReset(t: Token, password: string, confirm: string, nano: string, now: nat)
        returns (r: Response)
      requires Valid() && NanoId(nano)
      modifies users, redis, tokens
      ensures Valid()
      ensures (View(now), r) == DoCompleteReset(old(View(now)), t, password, confirm)
    {
      hide TakenBySlug, UpdateProfile;
      if password != confirm {
        return Rejected;
      }
      var email := tokens.VerifyPasswordResetToken(t, now);
      if email.None? {
        return Rejected;
      }
      var user := users.FindByEmail(email.value);
      if user.None? {
        return Rejected;
      }
      var updated := users.Update(user.value.id, NO_CHANGE.(password := Some(password)), nano);
      r := Done(true);
    }
  }

  /** `AuthController` behind the global guard, with the clock it reads. */
  class AuthController {
    const auth: AuthUseCase
    var now: nat

    constructor (lower: LowerCase, now: nat)
      ensures Valid() && fresh(auth) && fresh(auth.users) && fresh(auth.redis) && fresh(auth.tokens)
      ensures View() == Init(now) && Safety.Inv(View())
    {
      var users := new UserRepository(lower);
      var redis := new RedisService();
      var auth := new AuthUseCase(users, redis);
      this.auth, this.now := auth, now;
    }

    ghost predicate Valid()
      reads auth.users, auth.redis
    {
      auth.Valid()
    }

    ghost function View(): State
      reads this, auth.users, auth.redis, auth.tokens
    {
      auth.View(now)
    }

    method Authenticate(t: Token, twoFactorRoute: bool) returns (ok: bool)
      requires Valid()
      ensures ok <==> Admits(View(), t, twoFactorRoute)
      ensures ok ==> t.Session? && t.sub in auth.users.rows && Verifies(View(), t, false)
    {
      ok := SettleSession(auth.tokens, t, twoFactorRoute, now);
      assert ok <==> Admits(View(), t, twoFactorRoute);
    }

    // Serving a request is one step of the protocol, so it keeps what every run keeps.
    method Handle(r: Request, nano: string) returns (response: Response)
      requires Valid() && NanoId(nano)
      modifies this`now, auth.users, auth.redis, auth.tokens
      ensures Valid()
      ensures (View(), response) == Protocol.Handle(old(View()), r)
      ensures Safety.Inv(old(View())) ==> Safety.Inv(View()) && Safety.Grows(old(View()), View())
    {
      hide Protocol.Handle, Safety.Inv, Safety.Grows;
      if Safety.Inv(View()) {
        Safety.HandleStep(View(), r);
      }
      if NeedsSession(r) {
        response := HandleSession(r, nano);
      } else {
        response := HandleOpen(r, nano);
      }
    }

    // Routes behind the guard's authentication stage.
    static predicate NeedsSession(r: Request) {
      r.VerifyEmail? || r.ResendVerification? || r.UpdateRole? || r.EnableTwoFactor? || r.ResendEnableCode? ||
      r.ConfirmTwoFactor? || r.VerifyTwoFactor? || r.ResendTwoFactorCode? || r.DisableTwoFactor?
    }

    // Public routes, the refresh route (which checks its own token), and time passing.
    method HandleOpen(r: Request, nano: string) returns (response: Response)
      requires Valid() && NanoId(nano) && !NeedsSession(r)
      modifies this`now, auth.users, auth.redis, auth.tokens
      ensures Valid()
      ensures (View(), response) == Protocol.Handle(old(View()), r)
    {
      hide Consumed, Replay, Unique, DoSignUp, DoLogin, DoFacebookAuth, DoRefresh, DoInitiateReset, DoVerifyResetCode,
           DoCompleteReset;
      match r
      case SignUp(email, password, confirm, newId, code) =>
        response := auth.SignUp(email, password, confirm, newId, code, now);
      case Login(email, password, code) =>
        response := auth.Login(email, password, code, now);
      case FacebookAuth(email, newId, password) =>
        response := auth.FacebookAuth(email, newId, password, now);
      case Refresh(t) =>
        response := auth.RefreshTokens(t, now);
      case InitiateReset(email, code) =>
        response := auth.InitiatePasswordReset(email, code, now);
      case VerifyResetCode(email, code) =>
        response := auth.VerifyPasswordResetCode(email, code, now);
      case CompleteReset(t, password, confirm) =>
        response := auth.CompletePasswordReset(t, password, confirm, nano, now);
      case Tick(seconds) =>
        now := now + seconds;
        response := Done(true);
    }

    method HandleSession(r: Request, nano: string) returns (response: Response)
      requires Valid() && NanoId(nano) && NeedsSession(r)
      modifies auth.users, auth.redis, auth.tokens
      ensures Valid()
      ensures (View(), response) == Protocol.Handle(old(View()), r)
    {
      hide Admits, Verifies, Consumed, Replay, Saved, Unique, DoVerifyEmail, DoResendVerification, DoUpdateRole;
      if !r.VerifyEmail? && !r.ResendVerification? && !r.UpdateRole? {
        response := HandleTwoFactor(r);
        return;
      }
      response := Rejected;
      match r
      case VerifyEmail(t, code) =>
        var ok := Authenticate(t, false);
        if ok {
          response := auth.VerifyEmailCode(t.sub, t.email, code, nano, now);
        }
      case ResendVerification(t, code) =>
        var ok := Authenticate(t, false);
        if ok {
          response := auth.ResendVerificationCode(t, code, now);
        }
      case UpdateRole(t, role) =>
        var ok := Authenticate(t, false);
        if ok {
          response := auth.UpdateUserRole(t.sub, role, nano, now);
        }
    }

    method HandleTwoFactor(r: Request) returns (response: Response)
      requires Valid() && NeedsSession(r) && !r.VerifyEmail? && !r.ResendVerification? && !r.UpdateRole?
      modifies auth.users, auth.redis, auth.tokens
      ensures Valid()
      ensures (View(), response) == Protocol.Handle(old(View()), r)
    {
      hide Admits, Verifies, Consumed, Replay, Saved, Unique, DoConfirmTwoFactor, DoVerifyTwoFactor, DoDisableTwoFactor;
      response := Rejected;
      match r
      case EnableTwoFactor(t, code) =>
        var ok := Authenticate(t, false);
        if ok {
          ok := auth.twoFactor.InitiateEnable(t.sub, code, now);
          response := if ok then Done(true) else Rejected;
        }
      case ResendEnableCode(t, code) =>
        var ok := Authenticate(t, false);
        if ok {
          ok := auth.twoFactor.SendCode(TwoFactorEnable, t.sub, code, now);
          response := if ok then Done(true) else Rejected;
        }
      case ConfirmTwoFactor(t, code) =>
        var ok := Authenticate(t, false);
        if ok {
          response := auth.ConfirmTwoFactor(t.sub, code, now);
        }
      case VerifyTwoFactor(t, code) =>
        var ok := Authenticate(t, true);
        if ok {
          response := auth.VerifyTwoFactor(t.sub, code, now);
        }
      case ResendTwoFactorCode(t, code) =>
        var ok := Authenticate(t, true);
        if ok {
          ok := auth.twoFactor.SendCode(TwoFactor, t.sub, code, now);
          response := if ok then Done(true) else Rejected;
        }
      case DisableTwoFactor(t, password) =>
        var ok := Authenticate(t, false);
        if ok {
          response := auth.DisableTwoFactor(t.sub, password, now);
        }
    }
  }
}
