/**
 * Refresh rotation over all calls interleaved at their awaits: accounts opened meanwhile, a
 * clock, every way of being handed tokens. Which token is accepted, for how long, and that a
 * dead one never comes back.
 */
module Renewal {
  import opened Wrappers
  import opened Credentials
  import opened CodeStore
  import opened Users
  import opened Protocol
  import opened Safety
  import opened Interleaving

  // The call has minted t as its refresh token and not yet stored it.
  predicate HeldBy(phase: Phase, t: Token) {
    phase.Minting? && phase.refresh == Some(t)
  }

  ghost predicate Held(m: Machine, t: Token) {
    exists c :: c in m.calls && HeldBy(m.calls[c], t)
  }

  // A held token is minted, held by one call, and not the accepted one.
  ghost predicate HoldersOk(m: Machine) {
    && (forall c, t :: c in m.calls && HeldBy(m.calls[c], t) ==> t in m.s.issued && !Current(m.s, t))
    && (forall c, d, t :: c in m.calls && d in m.calls && c != d && HeldBy(m.calls[c], t) ==> !HeldBy(m.calls[d], t))
  }

  // The call's next step stores its refresh token for this account.
  predicate Stores(s: State, phase: Phase, id: Id) {
    phase.Minting? && phase.access.Some? && phase.refresh.Some? && phase.grant.id == id && id in s.rows
  }

  predicate MoveStores(m: Machine, move: Move, id: Id) {
    move.Advance? && move.call in m.calls && Stores(m.s, m.calls[move.call], id)
  }

  function StoredFor(s: State, id: Id): Option<Token> {
    if id in s.rows then s.rows[id].refreshToken else None
  }

  // A step changes a stored token only by storing the one its call holds, and the token a call
  // comes to hold is new.
  lemma NextTokens(s: State, phase: Phase, pick: bool, id: Id)
    requires Base(s) && PhaseOk(s, phase)
    ensures var (s', phase') := Next(s, phase, pick);
            && StoredFor(s', id) == (if Stores(s, phase, id) then phase.refresh else StoredFor(s, id))
            && (phase'.Minting? && phase'.refresh.Some? ==>
                  || (phase.Minting? && phase'.refresh == phase.refresh && !Stores(s, phase, phase.grant.id))
                  || (phase'.refresh.value.jti == s.nextJti && phase'.refresh.value in s'.issued))
  {
    hide Base, CodeMatches, Verifies, GoalOk, GrantOk, LocalEmail, Dropped, Saved, SecondFactor, MintSome, Creatable;
    match phase
    case Start(r) => BeginHolds(s, r);
    case Passed(r) => EnterHolds(s, r);
    case Minting(_, _, _) => MintTokenOf(s, phase, pick, id);
    case Inserting(_, _) => InsertToken(s, phase, pick, id);
    case _ =>
  }

  lemma MintTokenOf(s: State, phase: Phase, pick: bool, id: Id)
    requires phase.Minting?
    ensures var (s', phase') := Next(s, phase, pick);
            && StoredFor(s', id) == (if Stores(s, phase, id) then phase.refresh else StoredFor(s, id))
            && (phase'.Minting? && phase'.refresh.Some? ==>
                  || (phase'.refresh == phase.refresh && !Stores(s, phase, phase.grant.id))
                  || (phase'.refresh.value.jti == s.nextJti && phase'.refresh.value in s'.issued))
  {
  }

  lemma InsertToken(s: State, phase: Phase, pick: bool, id: Id)
    requires phase.Inserting? && PhaseOk(s, phase)
    ensures StoredFor(Next(s, phase, pick).0, id) == StoredFor(s, id)
    ensures Next(s, phase, pick).1.Minting? ==> Next(s, phase, pick).1.refresh.None?
  {
  }

  lemma BeginHolds(s: State, r: Request)
    ensures Begin(s, r).Minting? ==> Begin(s, r).refresh.None?
  {
    hide Verifies;
  }

  lemma EnterHolds(s: State, r: Request)
    ensures Enter(s, r).Minting? ==> Enter(s, r).refresh.None?
  {
    hide Verifies;
  }

  lemma Numbered(s: State, t: Token)
    requires Base(s) && t in s.issued
    ensures t.jti < s.nextJti
  {
    assert TokenOk(s, t);
  }

  // What one move does to one token that already exists.
  lemma MoveToken(m: Machine, move: Move, t: Token)
    requires Safe(m) && HoldersOk(m) && t in m.s.issued && t.Session?
    ensures var m' := Take(m, move);
            && t in m'.s.issued
            && (Held(m', t) ==> Held(m, t))
            && (Current(m'.s, t) ==> Current(m.s, t) || Held(m, t))
            && (Current(m.s, t) ==> (Current(m'.s, t) <==> !MoveStores(m, move, t.sub)))
            && (Current(m'.s, t) ==> !Held(m', t))
  {
    hide Base, Next, Onward, PhaseOk;
    Numbered(m.s, t);
    TakeKeeps(m, move);
    KeepsIssued(m.s, Take(m, move).s);
    if move.Advance? && move.call in m.calls {
      NextTokens(m.s, m.calls[move.call], move.pick, t.sub);
      if Held(m, t) {
        var c :| c in m.calls && HeldBy(m.calls[c], t);
        assert c == move.call || HeldBy(Take(m, move).calls[c], t);
      }
    }
  }

  lemma KeepsIssued(s: State, s': State)
    requires Onward(s, s')
    ensures s.issued <= s'.issued && s.nextJti <= s'.nextJti && s.rows.Keys <= s'.rows.Keys && s.now <= s'.now
  {
  }

  lemma StoredIsIssued(s: State, id: Id)
    requires Base(s) && StoredFor(s, id).Some?
    ensures StoredFor(s, id).value in s.issued
  {
    assert RowOk(s, id);
  }

  // The token a call has just minted is nobody's accepted token.
  lemma NewNotCurrent(m: Machine, move: Move, t: Token)
    requires Safe(m) && HoldersOk(m) && t.jti == m.s.nextJti
    ensures !Current(Take(m, move).s, t)
  {
    hide Base, Next, Onward, PhaseOk;
    if t.Session? {
      var id := t.sub;
      if StoredFor(m.s, id) == Some(t) {
        StoredIsIssued(m.s, id);
        Numbered(m.s, t);
      }
      if move.Advance? && move.call in m.calls {
        var phase := m.calls[move.call];
        NextTokens(m.s, phase, move.pick, id);
        if Stores(m.s, phase, id) && phase.refresh == Some(t) {
          assert HeldBy(phase, t);
          Numbered(m.s, t);
        }
      }
    }
  }

  // Whoever holds a token after a move held it before, or has just minted it.
  lemma HolderBefore(m: Machine, move: Move, c: nat, t: Token)
    requires Safe(m) && c in Take(m, move).calls && HeldBy(Take(m, move).calls[c], t)
    ensures (c in m.calls && HeldBy(m.calls[c], t)) ||
            (move.Advance? && move.call == c && t.jti == m.s.nextJti && t in Take(m, move).s.issued)
  {
    hide Base, Next, Onward, PhaseOk;
    if move.Advance? && move.call == c && c in m.calls {
      NextTokens(m.s, m.calls[c], move.pick, "");
    }
  }

  lemma HoldersStep(m: Machine, move: Move)
    requires Safe(m) && HoldersOk(m)
    ensures HoldersOk(Take(m, move))
  {
    hide Safe, Take, Current;
    var m' := Take(m, move);
    forall c, t | c in m'.calls && HeldBy(m'.calls[c], t) ensures t in m'.s.issued && !Current(m'.s, t) {
      HeldStays(m, move, c, t);
    }
    forall c, d, t | c in m'.calls && d in m'.calls && c != d &&
        HeldBy(m'.calls[c], t) ensures !HeldBy(m'.calls[d], t) {
      HolderBefore(m, move, c, t);
      if HeldBy(m'.calls[d], t) {
        HolderBefore(m, move, d, t);
        OneHolder(m, c, d, t);
      }
    }
    hide HeldBy;
  }

  // A held token is older than any that is being minted.
  lemma OneHolder(m: Machine, c: nat, d: nat, t: Token)
    requires Safe(m) && HoldersOk(m) && c != d
    ensures !(c in m.calls && HeldBy(m.calls[c], t) && d in m.calls && HeldBy(m.calls[d], t))
    ensures t.jti == m.s.nextJti ==>
            !(c in m.calls && HeldBy(m.calls[c], t)) && !(d in m.calls && HeldBy(m.calls[d], t))
  {
    hide PhaseOk;
    if t in m.s.issued {
      Numbered(m.s, t);
    }
  }

  lemma HeldStays(m: Machine, move: Move, c: nat, t: Token)
    requires Safe(m) && HoldersOk(m) && c in Take(m, move).calls && HeldBy(Take(m, move).calls[c], t)
    ensures t in Take(m, move).s.issued && !Current(Take(m, move).s, t)
  {
    hide Take, Safe, Base;
    HolderBefore(m, move, c, t);
    if c in m.calls && HeldBy(m.calls[c], t) {
      assert t in m.s.issued;
      if t.Session? {
        MoveToken(m, move, t);
        assert Held(Take(m, move), t);
      } else {
        TakeKeeps(m, move);
        KeepsIssued(m.s, Take(m, move).s);
      }
    } else {
      NewNotCurrent(m, move, t);
    }
  }

  lemma BootHolders(now: nat)
    ensures Safe(Boot(now)) && HoldersOk(Boot(now))
  {
    BootSafe(now);
  }

  lemma {:induction false} PlayHolders(m: Machine, moves: seq<Move>)
    requires Safe(m) && HoldersOk(m)
    ensures Safe(Play(m, moves)) && HoldersOk(Play(m, moves))
    decreases |moves|
  {
    hide Safe, HoldersOk, Take;
    if moves != [] {
      TakeKeeps(m, moves[0]);
      HoldersStep(m, moves[0]);
      PlayHolders(Take(m, moves[0]), moves[1..]);
    }
  }

  lemma Reachable(now: nat, moves: seq<Move>)
    ensures Safe(Play(Boot(now), moves)) && HoldersOk(Play(Boot(now), moves))
  {
    BootHolders(now);
    PlayHolders(Boot(now), moves);
  }

  // ---- What every interleaving keeps ----

  datatype Status = Unwritten | Live | Dead

  ghost function StatusOf(m: Machine, t: Token): Status {
    if Held(m, t) then Unwritten else if Current(m.s, t) then Live else Dead
  }

  function Rank(status: Status): nat {
    match status
    case Unwritten => 0
    case Live => 1
    case Dead => 2
  }

  // Under every interleaving a token in existence goes from unwritten to accepted to dead, and
  // only in that direction: a token that has been overwritten, or was never to be stored, is
  // never accepted again.
  lemma {:induction false} StatusNeverGoesBack(m: Machine, moves: seq<Move>, t: Token)
    requires Safe(m) && HoldersOk(m) && t in m.s.issued && t.Session?
    ensures Rank(StatusOf(Play(m, moves), t)) >= Rank(StatusOf(m, t))
    decreases |moves|
  {
    hide Safe, HoldersOk, Take, Held, Current;
    if moves != [] {
      MoveToken(m, moves[0], t);
      TakeKeeps(m, moves[0]);
      HoldersStep(m, moves[0]);
      StatusNeverGoesBack(Take(m, moves[0]), moves[1..], t);
    }
  }

  // No move of the play stores a token for the account.
  ghost predicate NoStore(m: Machine, moves: seq<Move>, id: Id)
    decreases |moves|
  {
    moves == [] || (!MoveStores(m, moves[0], id) && NoStore(Take(m, moves[0]), moves[1..], id))
  }

  // An accepted token stays accepted exactly as long as nothing is stored for its account.
  lemma {:induction false} AcceptedUntilStore(m: Machine, moves: seq<Move>, t: Token)
    requires Safe(m) && HoldersOk(m) && t in m.s.issued && Current(m.s, t)
    ensures Current(Play(m, moves).s, t) <==> NoStore(m, moves, t.sub)
    decreases |moves|
  {
    hide Safe, HoldersOk, Take, MoveStores, Current, Held;
    if moves != [] {
      var next := Take(m, moves[0]);
      MoveCurrent(m, moves[0], t);
      if Current(next.s, t) {
        AcceptedUntilStore(next, moves[1..], t);
      } else {
        StatusNeverGoesBack(next, moves[1..], t);
      }
    }
  }

  lemma MoveCurrent(m: Machine, move: Move, t: Token)
    requires Safe(m) && HoldersOk(m) && t in m.s.issued && Current(m.s, t)
    ensures var m' := Take(m, move);
            && Safe(m') && HoldersOk(m') && t in m'.s.issued && t.Session? && !Held(m', t)
            && (Current(m'.s, t) <==> !MoveStores(m, move, t.sub))
  {
    hide Safe, Take, MoveStores;
    NotHeldWhenCurrent(m, t);
    MoveToken(m, move, t);
    TakeKeeps(m, move);
    HoldersStep(m, move);
    hide HoldersOk;
  }

  lemma NotHeldWhenCurrent(m: Machine, t: Token)
    requires HoldersOk(m) && Current(m.s, t)
    ensures !Held(m, t)
  {
  }

  // The token last stored for the account in the play, starting from `last`.
  ghost function LastStored(m: Machine, moves: seq<Move>, id: Id, last: Option<Token>): Option<Token>
    decreases |moves|
  {
    if moves == [] then last
    else
      LastStored(Take(m, moves[0]), moves[1..], id,
                 if MoveStores(m, moves[0], id) then m.calls[moves[0].call].refresh else last)
  }

  lemma {:induction false} StoredIsLast(m: Machine, moves: seq<Move>, id: Id)
    requires Safe(m)
    ensures StoredFor(Play(m, moves).s, id) == LastStored(m, moves, id, StoredFor(m.s, id))
    decreases |moves|
  {
    hide Safe, Take, MoveStores, StoredFor;
    if moves != [] {
      MoveStoredFor(m, moves[0], id);
      TakeKeeps(m, moves[0]);
      StoredIsLast(Take(m, moves[0]), moves[1..], id);
    }
  }

  lemma MoveStoredFor(m: Machine, move: Move, id: Id)
    requires Safe(m)
    ensures StoredFor(Take(m, move).s, id) ==
            if MoveStores(m, move, id) then m.calls[move.call].refresh else StoredFor(m.s, id)
  {
    hide Base, Next, PhaseOk;
    if move.Advance? && move.call in m.calls {
      NextTokens(m.s, m.calls[move.call], move.pick, id);
    }
  }

  // From an empty database, under every interleaving: the accepted refresh token of an account,
  // whenever it was opened, is the one last stored for it; so there is at most one.
  lemma AcceptedIsLastStored(now: nat, moves: seq<Move>, t: Token)
    ensures Current(Play(Boot(now), moves).s, t) <==>
            t.Session? && LastStored(Boot(now), moves, t.sub, None) == Some(t)
  {
    hide Play, LastStored, Safe;
    BootSafe(now);
    if t.Session? {
      StoredIsLast(Boot(now), moves, t.sub);
    }
  }

  // A refresh call that has passed the guard with a token accepted at m goes on to mint exactly
  // when nothing was stored for the account meanwhile and the token is not too old. So of two
  // calls with one token both redeem it exactly when the second's last check comes before the
  // first store.
  lemma LastCheck(m: Machine, moves: seq<Move>, t: Token, call: nat, pick: bool)
    requires Safe(m) && HoldersOk(m) && Verifies(m.s, t, true)
    requires call in Play(m, moves).calls && Play(m, moves).calls[call] == Passed(Refresh(t))
    ensures Next(Play(m, moves).s, Passed(Refresh(t)), pick).1 ==
            if NoStore(m, moves, t.sub) && Play(m, moves).s.now < t.exp && Play(m, moves).s.now - t.iat <= MAX_TOKEN_AGE
            then Mints(Grant(t.sub, t.email, t.isEmailVerified, t.twoFactorEnabled && t.twoFactorVerified, None))
            else REFUSED
  {
    hide Play, Safe, HoldersOk, NoStore, Onward;
    AcceptedUntilStore(m, moves, t);
    PlayKeeps(m, moves);
    KeepsIssued(m.s, Play(m, moves).s);
  }
}
