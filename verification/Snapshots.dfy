/**
 * How old the claims of a token are, with calls interleaved at their awaits. createTokens reads
 * some fields from the row when it mints and is given others as arguments; a refresh takes those
 * from the token presented (token.service.ts:77-120, auth.use-case.ts:184-194). Any number of
 * calls may be between any two of these steps. Renewal says which token is accepted; this says
 * what the accepted token knows.
 */
module Snapshots {
  import opened Wrappers

  type User = string
  type Jti = nat

  /** `role` stands for the fields createToken reads from the row, `claim` for the ones it is
      given as arguments (the address, its verification). The state lists the writes to each. */
  datatype Row = Row(role: string, claim: string, stored: Option<Jti>)

  /** A minted refresh token: its owner, the role and how many changes of role had been made when
      it was read, the claim and how many changes of claim had been made when that was read, and
      when it expires. */
  datatype Minted = Minted(owner: User, role: string, seen: nat, claim: string, taken: nat, exp: nat)

  const LIFETIME := 604800

  /** Where a call is. */
  datatype Phase =
    | Presented(jti: Jti)                 // a refresh token arrived, nothing checked yet
    | Guarded(jti: Jti)                   // the guard's check passed
    | Entering(user: User)                // a login about to read the row
    | Opening(user: User, role: string, claim: string) // a sign-up about to insert the row
    | Changing(user: User, role: string)  // a call about to update the role
    | Claiming(user: User, claim: string) // a call about to update the claim
    | Ready(user: User, claim: string, taken: nat) // about to mint with this argument
    | Holding(user: User, jti: Jti)       // minted, hash not yet stored
    | Finished(jti: Jti)
    | Refused

  datatype State = State(
    rows: map<User, Row>, tokens: map<Jti, Minted>, next: Jti, calls: map<nat, Phase>,
    changes: Changes, claims: Changes, now: nat)

  type Changes = seq<(User, string)>

  datatype Arrival =
    | RefreshCall(jti: Jti) | LoginCall(user: User) | OpenCall(user: User, role: string, claim: string)
    | ChangeCall(user: User, role: string) | ClaimCall(user: User, claim: string)

  /** One scheduler step: a new call, one call running to its next await, or time passing. */
  datatype Step = Arrive(call: nat, arrival: Arrival) | Advance(call: nat) | Pass(seconds: nat)

  function Init(accounts: map<User, (string, string)>, now: nat): State {
    State(map u | u in accounts :: Row(accounts[u].0, accounts[u].1, None), map[], 0, map[], [], [], now)
  }

  // What validateRefreshToken decides when it reads the row.
  predicate Accepted(s: State, j: Jti) {
    j in s.tokens && s.tokens[j].owner in s.rows && s.rows[s.tokens[j].owner].stored == Some(j)
  }

  // What verifyToken decides of a refresh token: it has not expired and is the stored one.
  predicate Redeemable(s: State, j: Jti) {
    Accepted(s, j) && s.now < s.tokens[j].exp
  }

  // A refresh passes on the claim of the token presented.
  function Redeeming(t: Minted): Phase {
    Ready(t.owner, t.claim, t.taken)
  }

  function AdvanceCall(s: State, call: nat): State
    requires call in s.calls
  {
    match s.calls[call]
    case Presented(j) => s.(calls := s.calls[call := if Redeemable(s, j) then Guarded(j) else Refused])
    case Guarded(j) => s.(calls := s.calls[call := if Redeemable(s, j) then Redeeming(s.tokens[j]) else Refused])
    case Entering(u) =>
      s.(calls := s.calls[call := if u in s.rows then Ready(u, s.rows[u].claim, |s.claims|) else Refused])
    case Opening(u, role, claim) =>
      if u in s.rows then s.(calls := s.calls[call := Refused])
      else s.(rows := s.rows[u := Row(role, claim, None)], calls := s.calls[call := Ready(u, claim, |s.claims|)])
    case Changing(u, role) =>
      if u !in s.rows then s.(calls := s.calls[call := Refused])
      else s.(rows := s.rows[u := s.rows[u].(role := role)], changes := s.changes + [(u, role)],
              calls := s.calls[call := Ready(u, s.rows[u].claim, |s.claims|)])
    case Claiming(u, claim) =>
      if u !in s.rows then s.(calls := s.calls[call := Refused])
      else s.(rows := s.rows[u := s.rows[u].(claim := claim)], claims := s.claims + [(u, claim)],
              calls := s.calls[call := Ready(u, claim, |s.claims| + 1)])
    case Ready(u, claim, taken) =>
      if u !in s.rows then s.(calls := s.calls[call := Refused])
      else s.(tokens := s.tokens[s.next := Minted(u, s.rows[u].role, |s.changes|, claim, taken, s.now + LIFETIME)],
              next := s.next + 1,
              calls := s.calls[call := Holding(u, s.next)])
    case Holding(u, j) =>
      if u !in s.rows then s.(calls := s.calls[call := Refused])
      else s.(rows := s.rows[u := s.rows[u].(stored := Some(j))],
              calls := s.calls[call := Finished(j)])
    case Finished(_) => s
    case Refused => s
  }

  function Take(s: State, step: Step): State {
    match step
    case Arrive(call, arrival) =>
      if call in s.calls then s
      else
        s.(calls := s.calls[call :=
          match arrival
          case RefreshCall(j) => Presented(j)
          case LoginCall(u) => Entering(u)
          case OpenCall(u, role, claim) => Opening(u, role, claim)
          case ChangeCall(u, role) => Changing(u, role)
          case ClaimCall(u, claim) => Claiming(u, claim)])
    case Advance(call) => if call in s.calls then AdvanceCall(s, call) else s
    case Pass(seconds) => s.(now := s.now + seconds)
  }

  function Run(s: State, steps: seq<Step>): State
    decreases |steps|
  {
    if steps == [] then s else Run(Take(s, steps[0]), steps[1..])
  }

  // ---- The invariant ----

  // The last value logged for u.
  function LastWrite(log: Changes, u: User): Option<string> {
    if |log| == 0 then None
    else
      var n := |log| - 1;
      if log[n].0 == u then Some(log[n].1) else LastWrite(log[..n], u)
  }

  // What u's field is now is the value read, overwritten by the changes made since the read.
  predicate Reflects(log: Changes, read: nat, u: User, value: string, current: string) {
    read <= |log| && current == LastWrite(log[read..], u).GetOr(value)
  }

  predicate TokenOk(s: State, j: Jti)
    requires j in s.tokens
  {
    var t := s.tokens[j];
    && j < s.next && t.owner in s.rows
    && Reflects(s.changes, t.seen, t.owner, t.role, s.rows[t.owner].role)
    && Reflects(s.claims, t.taken, t.owner, t.claim, s.rows[t.owner].claim)
  }

  predicate ReadyOk(s: State, phase: Phase) {
    phase.Ready? ==> phase.user in s.rows &&
                     Reflects(s.claims, phase.taken, phase.user, phase.claim, s.rows[phase.user].claim)
  }

  ghost predicate TokensOk(s: State) {
    forall j :: j in s.tokens ==> TokenOk(s, j)
  }

  ghost predicate CallsOk(s: State) {
    forall c :: c in s.calls ==> ReadyOk(s, s.calls[c])
  }

  ghost predicate Inv(s: State) {
    TokensOk(s) && CallsOk(s)
  }

  lemma LastWriteAppend(log: Changes, u: User, x: string, v: User)
    ensures LastWrite(log + [(u, x)], v) == if u == v then Some(x) else LastWrite(log, v)
  {
    assert (log + [(u, x)])[..|log|] == log;
  }

  // Steps that mint nothing and change no role or claim.
  lemma IdleKeeps(s: State, s': State)
    requires Inv(s) && s'.tokens == s.tokens && s'.next == s.next && s'.changes == s.changes && s'.claims == s.claims
    requires s'.rows.Keys == s.rows.Keys
    requires forall u :: u in s.rows ==> s'.rows[u].role == s.rows[u].role && s'.rows[u].claim == s.rows[u].claim
    requires forall c :: c in s'.calls ==>
               (c in s.calls && s'.calls[c] == s.calls[c]) || ReadyOk(s, s'.calls[c])
    ensures Inv(s')
  {
    hide Reflects;
    assert forall j :: j in s.tokens ==> TokenOk(s, j) && TokenOk(s', j);
    assert forall c :: c in s.calls ==> ReadyOk(s, s.calls[c]);
    hide TokenOk;
  }

  lemma ReflectsLater(log: Changes, read: nat, u: User, value: string, current: string, v: User, x: string)
    requires Reflects(log, read, u, value, current)
    ensures Reflects(log + [(v, x)], read, u, value, if u == v then x else current)
  {
    assert (log + [(v, x)])[read..] == log[read..] + [(v, x)];
    LastWriteAppend(log[read..], v, x, u);
  }

  lemma ReflectsNow(log: Changes, u: User, value: string)
    ensures Reflects(log, |log|, u, value, value)
  {
    assert log[|log|..] == [];
  }

  lemma ChangeKeeps(s: State, call: nat)
    requires Inv(s) && call in s.calls && s.calls[call].Changing? && s.calls[call].user in s.rows
    ensures Inv(AdvanceCall(s, call))
  {
    hide Reflects;
    var Changing(u, role) := s.calls[call];
    var s' := AdvanceCall(s, call);
    forall j | j in s'.tokens ensures TokenOk(s', j) {
      assert TokenOk(s, j);
      var t := s.tokens[j];
      ReflectsLater(s.changes, t.seen, t.owner, t.role, s.rows[t.owner].role, u, role);
    }
    ReflectsNow(s.claims, u, s.rows[u].claim);
    forall c | c in s'.calls ensures ReadyOk(s', s'.calls[c]) {
      assert c != call ==> ReadyOk(s, s.calls[c]);
    }
  }

  // A row nobody had: no token, call or stored hash names it yet.
  lemma OpenKeeps(s: State, call: nat)
    requires Inv(s) && call in s.calls && s.calls[call].Opening? && s.calls[call].user !in s.rows
    ensures Inv(AdvanceCall(s, call))
  {
    hide Reflects;
    var Opening(u, role, claim) := s.calls[call];
    var s' := AdvanceCall(s, call);
    forall j | j in s'.tokens ensures TokenOk(s', j) {
      assert TokenOk(s, j);
    }
    ReflectsNow(s.claims, u, claim);
    forall c | c in s'.calls ensures ReadyOk(s', s'.calls[c]) {
      assert c != call ==> ReadyOk(s, s.calls[c]);
    }
  }

  lemma ClaimKeeps(s: State, call: nat)
    requires Inv(s) && call in s.calls && s.calls[call].Claiming? && s.calls[call].user in s.rows
    ensures Inv(AdvanceCall(s, call))
  {
    hide Reflects;
    var Claiming(u, claim) := s.calls[call];
    var s' := AdvanceCall(s, call);
    forall j | j in s'.tokens ensures TokenOk(s', j) {
      assert TokenOk(s, j);
      var t := s.tokens[j];
      ReflectsLater(s.claims, t.taken, t.owner, t.claim, s.rows[t.owner].claim, u, claim);
    }
    ReflectsNow(s'.claims, u, claim);
    forall c | c in s'.calls ensures ReadyOk(s', s'.calls[c]) {
      assert c != call ==> ReadyOk(s, s.calls[c]);
      if c != call && s.calls[c].Ready? {
        var Ready(v, value, taken) := s.calls[c];
        ReflectsLater(s.claims, taken, v, value, s.rows[v].claim, u, claim);
      }
    }
  }

  lemma MintKeeps(s: State, call: nat)
    requires Inv(s) && call in s.calls && s.calls[call].Ready? && s.calls[call].user in s.rows
    ensures Inv(AdvanceCall(s, call))
  {
    hide Reflects;
    var s' := AdvanceCall(s, call);
    assert forall c :: c in s.calls ==> ReadyOk(s, s.calls[c]);
    ReflectsNow(s.changes, s.calls[call].user, s.rows[s.calls[call].user].role);
    assert forall j :: j in s.tokens ==> TokenOk(s, j) && j != s.next && TokenOk(s', j);
    assert TokenOk(s', s.next);
    hide TokenOk;
  }

  lemma RedeemingOk(s: State, j: Jti)
    requires Inv(s) && Accepted(s, j)
    ensures ReadyOk(s, Redeeming(s.tokens[j]))
  {
    assert TokenOk(s, j);
  }

  // A call that has read what it mints from.
  lemma ReadKeeps(s: State, call: nat)
    requires Inv(s) && call in s.calls && (s.calls[call].Guarded? || s.calls[call].Entering?)
    ensures Inv(AdvanceCall(s, call))
  {
    hide Inv, Accepted, Reflects;
    var s' := AdvanceCall(s, call);
    match s.calls[call]
    case Guarded(j) =>
      if Redeemable(s, j) {
        RedeemingOk(s, j);
      }
      IdleKeeps(s, s');
    case Entering(u) =>
      if u in s.rows {
        ReflectsNow(s.claims, u, s.rows[u].claim);
      }
      IdleKeeps(s, s');
  }

  lemma StepKeeps(s: State, step: Step)
    requires Inv(s)
    ensures Inv(Take(s, step))
  {
    hide Inv, Accepted, Reflects;
    var s' := Take(s, step);
    if step.Advance? && step.call in s.calls {
      match s.calls[step.call]
      case Changing(u, _) =>
        if u in s.rows {
          ChangeKeeps(s, step.call);
        } else {
          IdleKeeps(s, s');
        }
      case Opening(u, _, _) =>
        if u in s.rows {
          IdleKeeps(s, s');
        } else {
          OpenKeeps(s, step.call);
        }
      case Claiming(u, _) =>
        if u in s.rows {
          ClaimKeeps(s, step.call);
        } else {
          IdleKeeps(s, s');
        }
      case Ready(u, _, _) =>
        if u in s.rows {
          MintKeeps(s, step.call);
        } else {
          IdleKeeps(s, s');
        }
      case Guarded(_) => ReadKeeps(s, step.call);
      case Entering(_) => ReadKeeps(s, step.call);
      case _ => IdleKeeps(s, s');
    } else {
      IdleKeeps(s, s');
    }
  }

  lemma {:induction false} RunKeeps(s: State, steps: seq<Step>)
    requires Inv(s)
    ensures Inv(Run(s, steps))
    decreases |steps|
  {
    hide Inv, Take;
    if steps != [] {
      StepKeeps(s, steps[0]);
      RunKeeps(Take(s, steps[0]), steps[1..]);
    }
  }

  lemma Reachable(accounts: map<User, (string, string)>, now: nat, steps: seq<Step>)
    ensures Inv(Run(Init(accounts, now), steps))
  {
    RunKeeps(Init(accounts, now), steps);
  }

  // ---- What every interleaving keeps ----

  // A value read is still the field's value exactly when no change landed after the read, or the
  // last one that did wrote the same value.
  predicate Unchanged(log: Changes, read: nat, u: User, value: string)
    requires read <= |log|
  {
    LastWrite(log[read..], u) == None || LastWrite(log[read..], u) == Some(value)
  }

  // Under every interleaving: a token's role agrees with its owner's row exactly when the role
  // is unchanged since the token was minted, and its claim exactly when the claim is unchanged
  // since the call, or the first of a chain of refreshes, that read it from the row.
  lemma SnapshotExact(accounts: map<User, (string, string)>, now: nat, steps: seq<Step>, j: Jti)
    requires j in Run(Init(accounts, now), steps).tokens
    ensures var s := Run(Init(accounts, now), steps);
            var t := s.tokens[j];
            && t.owner in s.rows && t.seen <= |s.changes| && t.taken <= |s.claims|
            && (t.role == s.rows[t.owner].role <==> Unchanged(s.changes, t.seen, t.owner, t.role))
            && (t.claim == s.rows[t.owner].claim <==> Unchanged(s.claims, t.taken, t.owner, t.claim))
  {
    hide Run, LastWrite, Inv;
    Reachable(accounts, now, steps);
    SnapshotIn(Run(Init(accounts, now), steps), j);
  }

  lemma SnapshotIn(s: State, j: Jti)
    requires Inv(s) && j in s.tokens
    ensures var t := s.tokens[j];
            && t.owner in s.rows
            && Reflects(s.changes, t.seen, t.owner, t.role, s.rows[t.owner].role)
            && Reflects(s.claims, t.taken, t.owner, t.claim, s.rows[t.owner].claim)
  {
    assert TokenOk(s, j);
  }

  // ---- What interleaving breaks ----

  lemma {:induction false} RunAppend(s: State, first: seq<Step>, second: seq<Step>)
    ensures Run(s, first + second) == Run(Run(s, first), second)
    decreases |first|
  {
    if first == [] {
      assert first + second == second;
    } else {
      assert (first + second)[1..] == first[1..] + second;
      RunAppend(Take(s, first[0]), first[1..], second);
    }
  }

  lemma RunFive(s: State, p1: seq<Step>, p2: seq<Step>, p3: seq<Step>, p4: seq<Step>, p5: seq<Step>)
    ensures Run(s, p1 + p2 + p3 + p4 + p5) == Run(Run(Run(Run(Run(s, p1), p2), p3), p4), p5)
  {
    hide Run;
    RunAppend(s, p1 + p2 + p3 + p4, p5);
    RunAppend(s, p1 + p2 + p3, p4);
    RunAppend(s, p1 + p2, p3);
    RunAppend(s, p1, p2);
  }

  lemma RunOne(s: State, x: Step)
    ensures Run(s, [x]) == Take(s, x)
  {
    hide Take;
    assert [x][1..] == [];
  }

  lemma RunPair(s: State, x: Step, y: Step)
    ensures Run(s, [x, y]) == Take(Take(s, x), y)
  {
    hide Take;
    assert [x, y][1..] == [y] && [y][1..] == [];
    assert Run(Take(Take(s, x), y), []) == Take(Take(s, x), y);
  }

  // A call ready to mint runs to its end.
  lemma MintAndStore(s: State, call: nat)
    requires call in s.calls && s.calls[call].Ready? && s.calls[call].user in s.rows
    ensures var Ready(u, claim, taken) := s.calls[call];
            Run(s, [Advance(call), Advance(call)]) ==
            s.(tokens := s.tokens[s.next := Minted(u, s.rows[u].role, |s.changes|, claim, taken, s.now + LIFETIME)],
                next := s.next + 1,
               rows := s.rows[u := s.rows[u].(stored := Some(s.next))],
               calls := s.calls[call := Finished(s.next)])
  {
    RunPair(s, Advance(call), Advance(call));
    assert s.calls[call := Holding(s.calls[call].user, s.next)][call := Finished(s.next)] ==
        s.calls[call := Finished(s.next)];
  }

  // The accepted token mirrors the row only with calls atomic: a refresh that mints before a role change
  // and stores after it leaves, as the accepted token, one with the old role.
  lemma StaleSnapshot(s: State, j: Jti, role: string, a: nat, b: nat)
    requires Inv(s) && Redeemable(s, j) && a !in s.calls && b !in s.calls && a != b
    requires role != s.rows[s.tokens[j].owner].role
    ensures var u := s.tokens[j].owner;
            var steps := [Arrive(a, RefreshCall(j)), Arrive(b, ChangeCall(u, role))] + [Advance(a), Advance(a)] +
                         [Advance(a), Advance(b)] + [Advance(b), Advance(b)] + [Advance(a)];
            var s' := Run(s, steps);
            Accepted(s', s.next) && s'.tokens[s.next].owner == u && s'.tokens[s.next].role != s'.rows[u].role == role
  {
    var u := s.tokens[j].owner;
    var p1, p2 := [Arrive(a, RefreshCall(j)), Arrive(b, ChangeCall(u, role))], [Advance(a), Advance(a)];
    var p3, p4, p5 := [Advance(a), Advance(b)], [Advance(b), Advance(b)], [Advance(a)];
    assert TokenOk(s, j);
    hide Inv, TokenOk, Run, Take;
    RunFive(s, p1, p2, p3, p4, p5);
    StaleChecks(s, j, role, a, b);
    var s2 := Run(Run(s, p1), p2);
    MintThenChange(s2, u, role, a, b);
    StoreLate(Run(s2, p3), u, s.next, a, b);
  }

  lemma StoreLate(s: State, u: User, j: Jti, a: nat, b: nat)
    requires a in s.calls && b in s.calls && s.calls[a] == Holding(u, j) && s.calls[b].Ready? &&
             s.calls[b].user == u && u in s.rows && a != b
    requires j in s.tokens && s.tokens[j].owner == u && j < s.next
    ensures var s' := Run(Run(s, [Advance(b), Advance(b)]), [Advance(a)]);
            Accepted(s', j) && s'.tokens[j] == s.tokens[j] && s'.rows[u] == s.rows[u].(stored := Some(j))
  {
    MintAndStore(s, b);
    RunOne(Run(s, [Advance(b), Advance(b)]), Advance(a));
    hide Run;
  }

  lemma StaleChecks(s: State, j: Jti, role: string, a: nat, b: nat)
    requires Redeemable(s, j) && a !in s.calls && b !in s.calls && a != b
    ensures var u := s.tokens[j].owner;
            Run(Run(s, [Arrive(a, RefreshCall(j)), Arrive(b, ChangeCall(u, role))]), [Advance(a), Advance(a)]) ==
            s.(calls := s.calls[a := Redeeming(s.tokens[j])][b := Changing(u, role)])
  {
    var u := s.tokens[j].owner;
    var s1 := s.(calls := s.calls[a := Presented(j)][b := Changing(u, role)]);
    hide Run;
    RunPair(s, Arrive(a, RefreshCall(j)), Arrive(b, ChangeCall(u, role)));
    RunPair(s1, Advance(a), Advance(a));
    assert s1.calls[a := Guarded(j)][a := Redeeming(s.tokens[j])] ==
        s.calls[a := Redeeming(s.tokens[j])][b := Changing(u, role)];
  }

  lemma MintThenChange(s: State, u: User, role: string, a: nat, b: nat)
    requires a in s.calls && b in s.calls && s.calls[a].Ready? && s.calls[a].user == u &&
             s.calls[b] == Changing(u, role) && u in s.rows && a != b
    ensures var s' := Run(s, [Advance(a), Advance(b)]);
            && a in s'.calls && b in s'.calls && s'.calls[a] == Holding(u, s.next) && s'.calls[b].Ready? &&
                 s'.calls[b].user == u
            && s.next in s'.tokens && s'.tokens[s.next].owner == u && s'.tokens[s.next].role == s.rows[u].role
            && u in s'.rows && s'.rows[u].role == role && s'.next == s.next + 1
  {
    hide Run;
    RunPair(s, Advance(a), Advance(b));
  }

  // A claim passed as an argument is older still: a claim change that lands between a refresh's
  // last check and its mint, so before the row is read for the token, is missed.
  lemma StaleClaim(s: State, j: Jti, claim: string, a: nat, b: nat)
    requires Inv(s) && Redeemable(s, j) && a !in s.calls && b !in s.calls && a != b && claim != s.tokens[j].claim
    ensures var u := s.tokens[j].owner;
            var steps := [Arrive(a, RefreshCall(j)), Arrive(b, ClaimCall(u, claim))] + [Advance(a), Advance(a)] +
                         [Advance(b), Advance(a)] + [Advance(b), Advance(b)] + [Advance(a)];
            var s' := Run(s, steps);
            && Accepted(s', s.next) && s'.tokens[s.next].owner == u
            && s'.tokens[s.next].claim == s.tokens[j].claim != s'.rows[u].claim == claim
  {
    var u := s.tokens[j].owner;
    var p1, p2 := [Arrive(a, RefreshCall(j)), Arrive(b, ClaimCall(u, claim))], [Advance(a), Advance(a)];
    var p3, p4, p5 := [Advance(b), Advance(a)], [Advance(b), Advance(b)], [Advance(a)];
    hide Inv, Run, Take;
    RunFive(s, p1, p2, p3, p4, p5);
    StaleClaimChecks(s, j, claim, a, b);
    var s2 := Run(Run(s, p1), p2);
    ClaimThenMint(s2, u, claim, a, b);
    StoreLate(Run(s2, p3), u, s.next, a, b);
  }

  lemma StaleClaimChecks(s: State, j: Jti, claim: string, a: nat, b: nat)
    requires Redeemable(s, j) && a !in s.calls && b !in s.calls && a != b
    ensures var u := s.tokens[j].owner;
            Run(Run(s, [Arrive(a, RefreshCall(j)), Arrive(b, ClaimCall(u, claim))]), [Advance(a), Advance(a)]) ==
            s.(calls := s.calls[a := Redeeming(s.tokens[j])][b := Claiming(u, claim)])
  {
    var u := s.tokens[j].owner;
    var s1 := s.(calls := s.calls[a := Presented(j)][b := Claiming(u, claim)]);
    hide Run;
    RunPair(s, Arrive(a, RefreshCall(j)), Arrive(b, ClaimCall(u, claim)));
    RunPair(s1, Advance(a), Advance(a));
    assert s1.calls[a := Guarded(j)][a := Redeeming(s.tokens[j])] ==
        s.calls[a := Redeeming(s.tokens[j])][b := Claiming(u, claim)];
  }

  lemma ClaimThenMint(s: State, u: User, claim: string, a: nat, b: nat)
    requires a in s.calls && b in s.calls && s.calls[a].Ready? && s.calls[a].user == u &&
             s.calls[b] == Claiming(u, claim)
    requires u in s.rows && a != b
    ensures var s' := Run(s, [Advance(b), Advance(a)]);
            && a in s'.calls && b in s'.calls && s'.calls[a] == Holding(u, s.next) && s'.calls[b].Ready? &&
                 s'.calls[b].user == u
            && s.next in s'.tokens && s'.tokens[s.next].owner == u && s'.tokens[s.next].claim == s.calls[a].claim
            && u in s'.rows && s'.rows[u].claim == claim && s'.next == s.next + 1
  {
    hide Run;
    RunPair(s, Advance(b), Advance(a));
  }
}
