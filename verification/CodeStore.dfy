/**
 * The one-time code store (redis.service.ts, email.service.ts): a key/value
 * store with a 300-second time to live, shared by four kinds of code.
 * The store is proved to refine its own history: whether a code is accepted is
 * a property of the calls made so far, stated without mentioning keys.
 */
module CodeStore {
  datatype Kind = Email | Password | TwoFactor | TwoFactorEnable | Auth

  const TTL: nat := 300

  function Prefix(kind: Kind): string {
    match kind
    case Email => "email:verification:"
    case Password => "password:reset:"
    case TwoFactor => "2fa:verification:"
    case TwoFactorEnable => "2fa:enable:"
    case Auth => "auth:keys:"
  }

  function GetKey(kind: Kind, id: string): string {
    Prefix(kind) + id
  }

  // No prefix is a prefix of another, so distinct (kind, id) pairs never share a key,
  // whatever the ids are.
  lemma KeyInjective(k: Kind, id: string, k': Kind, id': string)
    ensures GetKey(k, id) == GetKey(k', id') <==> k == k' && id == id'
  {
    if GetKey(k, id) == GetKey(k', id') {
      var key := GetKey(k, id);
      assert key[0] == Prefix(k)[0] == Prefix(k')[0];
      assert key[4] == Prefix(k)[4] == Prefix(k')[4];
      assert k == k';
      assert id == key[|Prefix(k)|..] == id';
    }
  }

  // The texts of the keys.
  lemma KeyTexts(id: string)
    ensures GetKey(Email, id) == "email:verification:" + id && GetKey(Password, id) == "password:reset:" + id
    ensures GetKey(TwoFactor, id) == "2fa:verification:" + id && GetKey(TwoFactorEnable, id) == "2fa:enable:" + id
    ensures GetKey(Auth, id) == "auth:keys:" + id
  {
  }

  datatype Entry = Entry(code: string, expiresAt: nat)
  type Store = map<string, Entry>

  function Saved(store: Store, kind: Kind, id: string, code: string, now: nat): Store {
    store[GetKey(kind, id) := Entry(code, now + TTL)]
  }

  function Dropped(store: Store, kind: Kind, id: string): Store {
    store - {GetKey(kind, id)}
  }

  // What `get` followed by `===` decides: an expired key reads as absent.
  predicate Matches(store: Store, kind: Kind, id: string, code: string, now: nat) {
    var key := GetKey(kind, id);
    key in store && now < store[key].expiresAt && store[key].code == code
  }

  /** A call on the service, with the time at which it ran. */
  datatype Event =
    | Save(kind: Kind, id: string, code: string, at: nat)
    | Verify(kind: Kind, id: string, code: string, at: nat)
    | Delete(kind: Kind, id: string, at: nat)

  type History = seq<Event>

  function Apply(store: Store, e: Event): Store {
    match e
    case Save(k, id, code, at) => Saved(store, k, id, code, at)
    case Verify(k, id, code, at) => if Matches(store, k, id, code, at) then Dropped(store, k, id) else store
    case Delete(k, id, _) => Dropped(store, k, id)
  }

  function Replay(h: History): Store {
    if |h| == 0 then map[] else Apply(Replay(h[..|h| - 1]), h[|h| - 1])
  }

  lemma ReplayAppend(h: History, e: Event)
    ensures Replay(h + [e]) == Apply(Replay(h), e)
  {
    assert (h + [e])[..|h|] == h;
  }

  // The codes that have been accepted so far.
  function Consumed(h: History): (c: set<(Kind, string)>) {
    if |h| == 0 then {}
    else
      var before, e := h[..|h| - 1], h[|h| - 1];
      Consumed(before) +
      (if e.Verify? && Matches(Replay(before), e.kind, e.id, e.code, e.at) then {(e.kind, e.id)} else {})
  }

  lemma ConsumedAppend(h: History, e: Event)
    ensures Consumed(h + [e]) ==
            Consumed(h) + if e.Verify? && Matches(Replay(h), e.kind, e.id, e.code, e.at) then {(e.kind, e.id)} else {}
  {
    assert (h + [e])[..|h|] == h;
  }

  // ---- The specification: acceptance as a property of the history alone ----

  // The code saved by event `save` is spent, replaced or deleted by event `e`.
  predicate Ends(e: Event, save: Event)
    requires save.Save?
  {
    e.kind == save.kind && e.id == save.id &&
    match e
    case Save(_, _, _, _) => true
    case Delete(_, _, _) => true
    case Verify(_, _, code, at) => code == save.code && at < save.at + TTL
  }

  ghost predicate LiveSave(h: History, i: nat) {
    i < |h| && h[i].Save? && forall j :: i < j < |h| ==> !Ends(h[j], h[i])
  }

  ghost predicate Accepts(h: History, kind: Kind, id: string, code: string, now: nat) {
    exists i: nat ::
      LiveSave(h, i) && h[i].kind == kind && h[i].id == id && h[i].code == code && now < h[i].at + TTL
  }

  // Where the one live save of (kind, id) stands, or -1.
  ghost function LiveIndex(h: History, kind: Kind, id: string): (i: int)
    ensures -1 <= i < |h|
    ensures i >= 0 ==> h[i].Save? && h[i].kind == kind && h[i].id == id
  {
    if |h| == 0 then -1
    else
      var n := |h| - 1;
      var i := LiveIndex(h[..n], kind, id);
      if h[n].Save? && h[n].kind == kind && h[n].id == id then n
      else if i >= 0 && Ends(h[n], h[i]) then -1
      else i
  }

  lemma {:induction false} LiveIndexIsLive(h: History, kind: Kind, id: string)
    ensures LiveIndex(h, kind, id) >= 0 ==> LiveSave(h, LiveIndex(h, kind, id))
  {
    if |h| > 0 {
      LiveIndexIsLive(h[..|h| - 1], kind, id);
    }
  }

  lemma {:induction false} LiveIsLiveIndex(h: History, kind: Kind, id: string, j: nat)
    requires LiveSave(h, j) && h[j].kind == kind && h[j].id == id
    ensures j == LiveIndex(h, kind, id)
  {
    var n := |h| - 1;
    if j < n {
      assert forall m :: j < m < n ==> h[..n][m] == h[m];
      LiveIsLiveIndex(h[..n], kind, id, j);
    }
  }

  // The key of (kind, id) holds exactly the save that nothing has ended.
  lemma {:induction false} EntryIsLiveSave(h: History, kind: Kind, id: string)
    ensures GetKey(kind, id) in Replay(h) <==> LiveIndex(h, kind, id) >= 0
    ensures LiveIndex(h, kind, id) >= 0 ==>
              var save := h[LiveIndex(h, kind, id)];
              Replay(h)[GetKey(kind, id)] == Entry(save.code, save.at + TTL)
  {
    hide GetKey;
    if |h| > 0 {
      var n := |h| - 1;
      EntryIsLiveSave(h[..n], kind, id);
      KeyInjective(kind, id, h[n].kind, h[n].id);
    }
  }

  // The store refines its history: a code is accepted exactly when the latest save for its
  // (kind, id) carried that code, is younger than 300 s, and was not consumed or deleted since.
  lemma StoreRefinesHistory(h: History, kind: Kind, id: string, code: string, now: nat)
    ensures Matches(Replay(h), kind, id, code, now) <==> Accepts(h, kind, id, code, now)
  {
    EntryIsLiveSave(h, kind, id);
    LiveIndexIsLive(h, kind, id);
    if Accepts(h, kind, id, code, now) {
      var i: nat :| LiveSave(h, i) && h[i].kind == kind && h[i].id == id && h[i].code == code && now < h[i].at + TTL;
      LiveIsLiveIndex(h, kind, id, i);
    }
  }

  // The verification at position i of the history found its code in the store.
  predicate Succeeds(h: History, i: nat) {
    i < |h| && h[i].Verify? && Matches(Replay(h[..i]), h[i].kind, h[i].id, h[i].code, h[i].at)
  }

  // Each saved code is accepted at most once: two successes on the same code of the same
  // (kind, id) are separated by a fresh save of it.
  lemma SingleUse(h: History, i: nat, j: nat)
    requires i < j && Succeeds(h, i) && Succeeds(h, j)
    requires h[i].kind == h[j].kind && h[i].id == h[j].id
    ensures exists m :: i < m < j && h[m].Save? && h[m].kind == h[j].kind && h[m].id == h[j].id &&
                   h[m].code == h[j].code
  {
    hide Matches, GetKey, Replay;
    StoreRefinesHistory(h[..i], h[i].kind, h[i].id, h[i].code, h[i].at);
    StoreRefinesHistory(h[..j], h[j].kind, h[j].id, h[j].code, h[j].at);
    var p: nat :| LiveSave(h[..i], p) && h[p].kind == h[i].kind && h[p].id == h[i].id &&
                  h[p].code == h[i].code && h[i].at < h[p].at + TTL;
    var q: nat :| LiveSave(h[..j], q) && h[q].kind == h[j].kind && h[q].id == h[j].id &&
                  h[q].code == h[j].code && h[j].at < h[q].at + TTL;
    if q <= i {
      LiveIsLiveIndex(h[..i], h[i].kind, h[i].id, p);
      LiveIsLiveIndex(h[..i], h[i].kind, h[i].id, q);
      assert false;
    }
  }

  predicate About(e: Event, kind: Kind, id: string) {
    e.kind == kind && e.id == id
  }

  function Restrict(h: History, kind: Kind, id: string): History {
    if |h| == 0 then []
    else Restrict(h[..|h| - 1], kind, id) + if About(h[|h| - 1], kind, id) then [h[|h| - 1]] else []
  }

  // Two stores hold the same at one key.
  predicate SameAt(s: Store, t: Store, key: string) {
    && (key in s <==> key in t)
    && (key in s ==> s[key] == t[key])
  }

  lemma ApplySameAt(s: Store, t: Store, e: Event)
    requires SameAt(s, t, GetKey(e.kind, e.id))
    ensures SameAt(Apply(s, e), Apply(t, e), GetKey(e.kind, e.id))
  {
    hide GetKey;
  }

  lemma ApplyElsewhere(s: Store, e: Event, kind: Kind, id: string)
    requires !About(e, kind, id)
    ensures SameAt(Apply(s, e), s, GetKey(kind, id))
  {
    KeyInjective(kind, id, e.kind, e.id);
    hide GetKey;
  }

  // Kinds and ids never interfere: deleting every call about other (kind, id) pairs
  // from the history changes no answer.
  lemma {:induction false} NoInterference(h: History, kind: Kind, id: string)
    ensures SameAt(Replay(h), Replay(Restrict(h, kind, id)), GetKey(kind, id))
    ensures forall code, now :: Matches(Replay(h), kind, id, code, now) <==>
                                Matches(Replay(Restrict(h, kind, id)), kind, id, code, now)
  {
    hide GetKey;
    if |h| > 0 {
      var before, e := h[..|h| - 1], h[|h| - 1];
      NoInterference(before, kind, id);
      if About(e, kind, id) {
        ReplayAppend(Restrict(before, kind, id), e);
        ApplySameAt(Replay(before), Replay(Restrict(before, kind, id)), e);
      } else {
        assert Restrict(h, kind, id) == Restrict(before, kind, id);
        ApplyElsewhere(Replay(before), e, kind, id);
      }
    }
  }

  /** `RedisService`, with the history of the calls made on it. */
  class RedisService {
    var store: Store
    ghost var history: History

    ghost predicate Valid()
      reads this
    {
      store == Replay(history)
    }

    constructor ()
      ensures Valid() && history == []
    {
      store, history := map[], [];
    }

    method Save(kind: Kind, id: string, code: string, now: nat)
      requires Valid()
      modifies this
      ensures Valid() && history == old(history) + [Event.Save(kind, id, code, now)]
      ensures store == Saved(old(store), kind, id, code, now)
      ensures Consumed(history) == Consumed(old(history))
    {
      hide GetKey, Replay, Consumed, Matches;
      var key := GetKey(kind, id);
      store := store[key := Entry(code, now + TTL)];
      ReplayAppend(history, Event.Save(kind, id, code, now));
      ConsumedAppend(history, Event.Save(kind, id, code, now));
      history := history + [Event.Save(kind, id, code, now)];
    }

    method Delete(kind: Kind, id: string, now: nat)
      requires Valid()
      modifies this
      ensures Valid() && history == old(history) + [Event.Delete(kind, id, now)]
      ensures store == Dropped(old(store), kind, id)
      ensures Consumed(history) == Consumed(old(history))
    {
      hide GetKey, Replay, Consumed, Matches;
      var key := GetKey(kind, id);
      store := store - {key};
      ReplayAppend(history, Event.Delete(kind, id, now));
      ConsumedAppend(history, Event.Delete(kind, id, now));
      history := history + [Event.Delete(kind, id, now)];
    }

    // Both `verify` and `verify2FACode`: read, compare, delete on success.
    method Verify(kind: Kind, id: string, code: string, now: nat) returns (ok: bool)
      requires Valid()
      modifies this
      ensures Valid() && history == old(history) + [Event.Verify(kind, id, code, now)]
      ensures ok <==> Accepts(old(history), kind, id, code, now)
      ensures ok <==> Matches(old(store), kind, id, code, now)
      ensures store == if ok then Dropped(old(store), kind, id) else old(store)
      ensures Consumed(history) == if ok then Consumed(old(history)) + {(kind, id)} else Consumed(old(history))
    {
      hide GetKey, Replay, Consumed;
      var key := GetKey(kind, id);
      ghost var called := history + [Event.Verify(kind, id, code, now)];
      StoreRefinesHistory(history, kind, id, code, now);
      ReplayAppend(history, Event.Verify(kind, id, code, now));
      ConsumedAppend(history, Event.Verify(kind, id, code, now));
      ok := key in store && now < store[key].expiresAt && store[key].code == code;
      if ok {
        Delete(kind, id, now);
      }
      history := called;
    }
  }
}
