/** The expiring token lock: SET NX PX on entry, then GET and DELETE as two separate steps on exit. */
module SegmentLock {

  const LOCK_TIMEOUT_MS: int := 5000

  type Token = nat

  datatype Held = Held(token: Token, expiry: int)

  // ---- The shared store ----

  /** A key past its expiry is gone. */
  predicate Live<K>(store: map<K, Held>, key: K, now: int) {
    key in store && now < store[key].expiry
  }

  predicate HeldBy<K>(store: map<K, Held>, key: K, token: Token, now: int) {
    Live(store, key, now) && store[key].token == token
  }

  function SetNx<K>(store: map<K, Held>, key: K, token: Token, now: int): map<K, Held> {
    if Live(store, key, now) then store else store[key := Held(token, now + LOCK_TIMEOUT_MS)]
  }

  class LockStore<K(==)> {
    var entries: map<K, Held>

    constructor ()
      ensures entries == map[]
    {
      entries := map[];
    }

    /** `redis.set(key, token, nx=True, px=LOCK_TIMEOUT_MS)`; a refusal becomes a LockAcquisitionError. */
    method Acquire(key: K, token: Token, now: int) returns (acquired: bool)
      modifies this
      ensures acquired == !Live(old(entries), key, now)
      ensures entries == SetNx(old(entries), key, token, now)
      ensures acquired <==> key !in old(entries) || old(entries)[key].expiry <= now
      ensures acquired ==> entries == old(entries)[key := Held(token, now + 5000)]
      ensures !acquired ==> entries == old(entries)
      ensures acquired ==> HeldBy(entries, key, token, now)
    {
      acquired := !(key in entries && now < entries[key].expiry);
      if acquired { entries := entries[key := Held(token, now + LOCK_TIMEOUT_MS)]; }
    }

    method StoredIsMine(key: K, token: Token, now: int) returns (mine: bool)
      ensures mine == HeldBy(entries, key, token, now)
      ensures mine <==> key in entries && entries[key].token == token && now < entries[key].expiry
    {
      mine := key in entries && now < entries[key].expiry && entries[key].token == token;
    }

    /** The second half of the exit: whatever is stored under the key is deleted if the GET had matched. */
    method DeleteIf(key: K, mine: bool)
      modifies this
      ensures entries == if mine then old(entries) - {key} else old(entries)
    {
      if mine { entries := entries - {key}; }
    }
  }

  // ---- All interleavings of many clients ----

  /** A client that entered the block: still in the body, or past its GET. */
  datatype Client<K> = Client(key: K, since: int, left: bool, mine: bool)

  datatype State<K> = State(now: int, store: map<K, Held>, clients: map<Token, Client<K>>, issued: Token)

  datatype Step<K> = Tick(ms: nat) | Enter(key: K) | Read(token: Token) | Delete(token: Token) | Crash(token: Token)

  function Init<K>(): State<K> { State(0, map[], map[], 0) }

  /** The effect of a step; `limit` bounds how long any client may stay between its SET and its DELETE. */
  ghost predicate Next<K>(limit: int, s: State<K>, step: Step<K>, s': State<K>) {
    match step
    case Tick(ms) =>
      && (forall t :: t in s.clients ==> s.now + ms < s.clients[t].since + limit)
      && s' == s.(now := s.now + ms)
    case Enter(key) =>
      && s' == (if Live(s.store, key, s.now) then s else
                s.(store := SetNx(s.store, key, s.issued, s.now),
                   clients := s.clients[s.issued := Client(key, s.now, false, false)],
                   issued := s.issued + 1))
    case Read(t) =>
      && t in s.clients && !s.clients[t].left
      && var mine := HeldBy(s.store, s.clients[t].key, t, s.now);
         s' == s.(clients := s.clients[t := s.clients[t].(left := true, mine := mine)])
    case Delete(t) =>
      && t in s.clients && s.clients[t].left
      && s' == s.(clients := s.clients - {t},
           store := if s.clients[t].mine then s.store - {s.clients[t].key} else s.store)
    case Crash(t) =>
      && t in s.clients && s' == s.(clients := s.clients - {t})
  }

  ghost predicate IsRun<K>(limit: int, states: seq<State<K>>, steps: seq<Step<K>>) {
    && |states| == |steps| + 1 && states[0] == Init()
    && forall i :: 0 <= i < |steps| ==> Next(limit, states[i], steps[i], states[i + 1])
  }

  /** Everyone between SET and DELETE still owns the stored token: nobody else has entered and nobody's release took it
      away. */
  ghost predicate Safe<K(!new)>(s: State<K>) {
    forall t :: t in s.clients ==> HeldBy(s.store, s.clients[t].key, t, s.now)
  }

  ghost predicate Exclusive<K(!new)>(s: State<K>) {
    forall t, u :: t in s.clients && u in s.clients && s.clients[t].key == s.clients[u].key ==> t == u
  }

  lemma SafeIsExclusive<K(!new)>(s: State<K>)
    requires Safe(s)
    ensures Exclusive(s)
  {}

  ghost predicate Inv<K(!new)>(s: State<K>) {
    && Safe(s)
    && (forall t :: t in s.clients ==> t < s.issued && (s.clients[t].left ==> s.clients[t].mine)
                                       && s.store[s.clients[t].key].expiry == s.clients[t].since + LOCK_TIMEOUT_MS)
  }

  lemma StepKeepsInv<K(!new)>(limit: int, s: State<K>, step: Step<K>, s': State<K>)
    requires limit <= LOCK_TIMEOUT_MS && Inv(s) && Next(limit, s, step, s')
    ensures Inv(s')
  {
    SafeIsExclusive(s);
  }

  lemma {:induction false} RunIsSafe<K(!new)>(limit: int, states: seq<State<K>>, steps: seq<Step<K>>, i: nat)
    requires limit <= LOCK_TIMEOUT_MS && IsRun(limit, states, steps) && i < |states|
    ensures Inv(states[i])
  {
    if i > 0 {
      RunIsSafe(limit, states, steps, i - 1);
      StepKeepsInv(limit, states[i - 1], steps[i - 1], states[i]);
    }
  }

  /** The first client is in. */
  function OneInside<K>(key: K): State<K> {
    State(0, map[key := Held(0, LOCK_TIMEOUT_MS)], map[0 := Client(key, 0, false, false)], 1)
  }

  /** It overstays to the very millisecond of expiry. */
  function Expired<K>(key: K): State<K> { OneInside(key).(now := LOCK_TIMEOUT_MS) }

  /** A second client walks in. */
  function TwoInside<K>(key: K): State<K> {
    State(LOCK_TIMEOUT_MS, map[key := Held(1, 2 * LOCK_TIMEOUT_MS)],
          map[0 := Client(key, 0, false, false), 1 := Client(key, LOCK_TIMEOUT_MS, false, false)], 2)
  }

  lemma OverstayIsPossible<K(!new)>(limit: int, key: K)
    requires limit > LOCK_TIMEOUT_MS
    ensures Next(limit, Init(), Enter(key), OneInside(key))
    ensures Next(limit, OneInside(key), Tick(LOCK_TIMEOUT_MS as nat), Expired(key))
    ensures Next(limit, Expired(key), Enter(key), TwoInside(key))
    ensures !Exclusive(TwoInside(key))
  {
    var late, both := Expired(key), TwoInside(key);
    assert 0 in both.clients && 1 in both.clients;
    assert both.clients == late.clients[1 := Client(key, LOCK_TIMEOUT_MS, false, false)];
    assert both.store == late.store[key := Held(1, 2 * LOCK_TIMEOUT_MS)];
  }

  /** Mutual exclusion over every interleaving, exactly for holds that must end within the expiry. */
  lemma ExclusiveIffHoldsAreShort<K(!new)>(limit: int, key: K)
    ensures (forall states: seq<State<K>>, steps: seq<Step<K>>, i ::
               IsRun(limit, states, steps) && 0 <= i < |states| ==> Exclusive(states[i])) <==> limit <= 5000
  {
    if limit <= LOCK_TIMEOUT_MS {
      forall states: seq<State<K>>, steps: seq<Step<K>>, i | IsRun(limit, states, steps) && 0 <= i < |states|
        ensures Exclusive(states[i])
      {
        RunIsSafe(limit, states, steps, i);
        SafeIsExclusive(states[i]);
      }
    } else {
      OverstayIsPossible(limit, key);
      var states := [Init(), OneInside(key), Expired(key), TwoInside(key)];
      var steps := [Enter(key), Tick(LOCK_TIMEOUT_MS as nat), Enter(key)];
      assert IsRun(limit, states, steps) && !Exclusive(states[3]);
    }
  }

  /** In such runs every DELETE removes the deleter's own token. */
  lemma NoReleaseStealsTheLock<K(!new)>(states: seq<State<K>>, steps: seq<Step<K>>, i: nat, t: Token)
    requires IsRun(LOCK_TIMEOUT_MS, states, steps) && i < |steps| && steps[i] == Delete(t)
    ensures t in states[i].clients && HeldBy(states[i].store, states[i].clients[t].key, t, states[i].now)
    ensures states[i + 1].store == states[i].store - {states[i].clients[t].key}
  {
    RunIsSafe(LOCK_TIMEOUT_MS, states, steps, i);
    assert Next(LOCK_TIMEOUT_MS, states[i], steps[i], states[i + 1]);
  }

  /** No DELETE of the run removes a live token that is not the deleter's own. */
  ghost predicate StealsNothing<K(!new)>(states: seq<State<K>>, steps: seq<Step<K>>)
    requires |states| == |steps| + 1
  {
    forall i, t :: 0 <= i < |steps| && steps[i] == Delete(t) && t in states[i].clients ==>
      var key := states[i].clients[t].key;
      key in states[i].store && key !in states[i + 1].store ==> states[i].store[key].token == t
  }

  /** A client reads its token in time, but deletes after the expiry, when another client has moved in. */
  lemma LateDeleteSteals<K(!new)>(limit: int, key: K) returns (states: seq<State<K>>, steps: seq<Step<K>>)
    requires limit > LOCK_TIMEOUT_MS
    ensures IsRun(limit, states, steps) && !StealsNothing(states, steps)
  {
    var early := OneInside(key).(now := LOCK_TIMEOUT_MS - 1);
    var read := early.(clients := map[0 := Client(key, 0, true, true)]);
    var late := read.(now := LOCK_TIMEOUT_MS);
    var second := Client(key, LOCK_TIMEOUT_MS, false, false);
    var both := State(LOCK_TIMEOUT_MS, map[key := Held(1, 2 * LOCK_TIMEOUT_MS)],
                      map[0 := Client(key, 0, true, true), 1 := second], 2);
    var stolen := both.(store := map[], clients := map[1 := second]);
    states := [Init(), OneInside(key), early, read, late, both, stolen];
    steps := [Enter(key), Tick(4999), Read(0), Tick(1), Enter(key), Delete(0)];
    OverstayIsPossible(limit, key);
    assert early.clients[0 := Client(key, 0, true, true)] == read.clients;
    assert both.clients == late.clients[1 := second] && both.store == late.store[key := Held(1, 2 * LOCK_TIMEOUT_MS)];
    assert both.clients - {0} == stolen.clients && both.store - {key} == stolen.store;
    assert steps[5] == Delete(0) && states[5] == both && states[6] == stolen;
  }

  /** With GET and DELETE as two steps, releases are harmless in every run, exactly if holds end within the expiry. */
  lemma HarmlessIffHoldsAreShort<K(!new)>(limit: int, key: K)
    ensures (forall states: seq<State<K>>, steps: seq<Step<K>> ::
          IsRun(limit, states, steps) ==> StealsNothing(states, steps))
       <==> limit <= 5000
  {
    if limit <= LOCK_TIMEOUT_MS {
      forall states: seq<State<K>>, steps: seq<Step<K>> | IsRun(limit, states, steps)
        ensures StealsNothing(states, steps)
      {
        forall i: nat | i < |steps| { RunIsSafe(limit, states, steps, i); }
        forall i: nat, t | i < |steps| && steps[i] == Delete(t)
          ensures t in states[i].clients && HeldBy(states[i].store, states[i].clients[t].key, t, states[i].now)
        {
          assert Next(limit, states[i], steps[i], states[i + 1]) && Inv(states[i]);
        }
      }
    } else {
      var states, steps := LateDeleteSteals(limit, key);
    }
  }
}
