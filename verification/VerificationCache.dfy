/** Plate verification: an expiring cache, fed by booking events and by read-through, in front of a database query. */
module VerificationCache {
  import opened Basics

  const JOURNEY_WINDOW: int := 2 * 3600 * SECOND
  const DEFAULT_TTL_SECONDS := 3600
  const GRACE_SECONDS := 300

  /** A plate as the callers pass it: upper case, without surrounding blanks. */
  type Plate = string

  /** A row of public.bookings with the plate the query resolves for it. */
  datatype Journey = Journey(plate: Plate, departure: int, confirmed: bool)

  datatype Cached = Cached(booking: Id, departure: int, windowEnd: int, expiry: int)

  datatype Source = FromCache | FromDatabase

  datatype Answer = Authorized(booking: Id, departure: int, windowEnd: int, source: Source) | NotAuthorized

  type Entries = map<Plate, Cached>

  type Bookings = map<Id, Journey>

  // ---- The expiry of an entry ----

  /** `int(timedelta.total_seconds())`, which truncates toward zero. */
  function WholeSeconds(us: int): (s: int)
    ensures 0 <= us ==> s * 1_000_000 <= us < (s + 1) * 1_000_000
    ensures us < 0 ==> (s - 1) * 1_000_000 < us <= s * 1_000_000 && s <= 0
  {
    if us >= 0 then us / SECOND else -((-us) / SECOND)
  }

  /** An entry never expires before its window ends, and not more than the grace period after it unless the window was
      over (or within a second of it) when the entry was written. */
  function ExpiryFor(windowEnd: int, now: int): (expiry: int)
    ensures windowEnd <= expiry && now < expiry
    ensures windowEnd - now >= SECOND ==> expiry <= windowEnd + 300 * SECOND
    ensures windowEnd - now < SECOND ==> expiry == now + 3600 * SECOND
  {
    var remaining := WholeSeconds(windowEnd - now);
    var ttl := if remaining > 0 then remaining + GRACE_SECONDS else DEFAULT_TTL_SECONDS;
    now + ttl * SECOND
  }

  function EntryFor(b: Id, departure: int, now: int): Cached {
    Cached(b, departure, departure + JOURNEY_WINDOW, ExpiryFor(departure + JOURNEY_WINDOW, now))
  }

  // ---- The query ----

  predicate Matches(bookings: Bookings, plate: Plate, now: int, b: Id) {
    && b in bookings && bookings[b].plate == plate && bookings[b].confirmed
    && now - JOURNEY_WINDOW <= bookings[b].departure <= now
  }

  /** ORDER BY departure_time DESC LIMIT 1 */
  predicate IsLatest(bookings: Bookings, plate: Plate, now: int, b: Id) {
    Matches(bookings, plate, now, b)
    && forall c :: c in bookings && Matches(bookings, plate, now, c) ==> bookings[c].departure <= bookings[b].departure
  }

  lemma {:induction false} SomeLatest(bookings: Bookings, plate: Plate, now: int, todo: set<Id>) returns (b: Id)
    requires todo != {} && forall c :: c in todo ==> Matches(bookings, plate, now, c)
    ensures b in todo && b in bookings && forall c :: c in todo ==>
          c in bookings && bookings[c].departure <= bookings[b].departure
    decreases todo
  {
    b :| b in todo;
    if todo != {b} {
      var c := SomeLatest(bookings, plate, now, todo - {b});
      if bookings[b].departure < bookings[c].departure { b := c; }
    }
  }

  // ---- Verification against a given cache ----

  predicate Alive(entries: Entries, plate: Plate, now: int) {
    plate in entries && now < entries[plate].expiry
  }

  /** The entry is there and its window has not ended. */
  predicate Hit(entries: Entries, plate: Plate, now: int) {
    Alive(entries, plate, now) && now <= entries[plate].windowEnd
  }

  ghost predicate Verified(bookings: Bookings, entries: Entries, plate: Plate, now: int, a: Answer, after: Entries) {
    if Hit(entries, plate, now) then
      a == Authorized(entries[plate].booking, entries[plate].departure, entries[plate].windowEnd, FromCache)
          && after == entries
    else
      QueryAnswers(bookings, plate, now, a)
      && var rest := if Alive(entries, plate, now) then entries - {plate} else entries;
         after == if a.Authorized? then rest[plate := EntryFor(a.booking, a.departure, now)] else rest
  }

  ghost predicate QueryAnswers(bookings: Bookings, plate: Plate, now: int, a: Answer) {
    match a
    case NotAuthorized => forall b :: !Matches(bookings, plate, now, b)
    case Authorized(b, departure, windowEnd, source) =>
      && IsLatest(bookings, plate, now, b) && source == FromDatabase
      && departure == bookings[b].departure && windowEnd == departure + JOURNEY_WINDOW
  }

  /** `plate` as the payload has it: null makes the handler raise, a blank or absent one is skipped. */
  datatype Event = ConfirmedEvent(plate: Option<Plate>, booking: Id,
                                  departure: Option<int>) | DroppedEvent(plate: Option<Plate>, booking: Id)

  /** What handling an event does to the cache; the consumer falls back to the current time for an
      unreadable departure. */
  function Handled(entries: Entries, e: Event, now: int): Entries {
    match e
    case ConfirmedEvent(Some(plate), b, departure) =>
      if plate == "" then entries else entries[plate
          := EntryFor(b, if departure.Some? then departure.value else now, now)]
    case DroppedEvent(Some(plate), _) => if plate == "" then entries else entries - {plate}
    case _ => entries
  }

  class Cache {
    var entries: Entries

    constructor ()
      ensures entries == map[]
    {
      entries := map[];
    }

    method CacheActiveBooking(plate: Plate, b: Id, departure: int, windowEnd: int, now: int)
      modifies this
      ensures entries == old(entries)[plate := Cached(b, departure, windowEnd, ExpiryFor(windowEnd, now))]
    {
      var ttl := DEFAULT_TTL_SECONDS;
      var remaining := WholeSeconds(windowEnd - now);
      if remaining > 0 { ttl := remaining + GRACE_SECONDS; }
      entries := entries[plate := Cached(b, departure, windowEnd, now + ttl * SECOND)];
    }

    method GetCachedBooking(plate: Plate, now: int) returns (r: Option<Cached>)
      ensures r == if plate in entries && now < entries[plate].expiry then Some(entries[plate]) else None
    {
      if plate in entries && now < entries[plate].expiry { r := Some(entries[plate]); } else { r := None; }
    }

    method InvalidateBooking(plate: Plate)
      modifies this
      ensures entries == old(entries) - {plate}
    {
      entries := entries - {plate};
    }

    /** False when the handler raises and the message is requeued. */
    method HandleEvent(e: Event, now: int) returns (handled: bool)
      modifies this
      ensures handled <==> e.plate.Some?
      ensures entries == Handled(old(entries), e, now)
      // A plate that is null or blank changes nothing; any other only its own entry.
      ensures e.plate.None? || e.plate.value == "" ==> entries == old(entries)
      ensures e.plate.Some? ==> entries - {e.plate.value} == old(entries) - {e.plate.value}
      ensures e.DroppedEvent? && e.plate.Some? && e.plate.value != "" ==> e.plate.value !in entries
      ensures e.ConfirmedEvent? && e.plate.Some? && e.plate.value != "" ==>
        var departure := if e.departure.Some? then e.departure.value else now;
        && e.plate.value in entries && entries[e.plate.value].booking == e.booking
        && entries[e.plate.value].departure == departure
        && entries[e.plate.value].windowEnd == departure + 2 * 3600 * SECOND <= entries[e.plate.value].expiry
    {
      if e.plate.None? { return false; }
      handled := true;
      var plate := e.plate.value;
      if plate == "" { return; }
      if e.ConfirmedEvent? {
        var departure := if e.departure.Some? then e.departure.value else now;
        CacheActiveBooking(plate, e.booking, departure, departure + JOURNEY_WINDOW, now);
      } else {
        InvalidateBooking(plate);
      }
    }

    method LookupDb(bookings: Bookings, plate: Plate, now: int) returns (a: Answer)
      modifies this
      ensures QueryAnswers(bookings, plate, now, a)
      ensures a.NotAuthorized? <==> forall c :: c in bookings && bookings[c].plate == plate && bookings[c].confirmed ==>
        bookings[c].departure < now - 2 * 3600 * SECOND || now < bookings[c].departure
      ensures a.Authorized? ==>
        && a.booking in bookings && bookings[a.booking].plate == plate && bookings[a.booking].confirmed
        && a.departure == bookings[a.booking].departure && a.windowEnd == a.departure + 2 * 3600 * SECOND
        && a.departure <= now <= a.windowEnd
        && (forall c :: c in bookings && bookings[c].plate == plate && bookings[c].confirmed ==>
              now < bookings[c].departure || bookings[c].departure <= a.departure)
      ensures entries == if a.Authorized? then old(entries)[plate := EntryFor(a.booking, a.departure, now)]
              else old(entries)
    {
      var matching := set b | b in bookings && Matches(bookings, plate, now, b);
      forall c | c in bookings && bookings[c].plate == plate && bookings[c].confirmed
        ensures c in matching <==> now - 2 * 3600 * SECOND <= bookings[c].departure <= now
      {
        assert Matches(bookings, plate, now, c) <==> c in matching;
      }
      if matching == {} {
        assert forall b :: Matches(bookings, plate, now, b) ==> b in matching;
        return NotAuthorized;
      }
      ghost var latest := SomeLatest(bookings, plate, now, matching);
      var b :| b in bookings && IsLatest(bookings, plate, now, b);
      assert IsLatest(bookings, plate, now, b) && Matches(bookings, plate, now, b);
      forall c | c in bookings && bookings[c].plate == plate && bookings[c].confirmed && bookings[c].departure <= now
        ensures bookings[c].departure <= bookings[b].departure
      {
        if Matches(bookings, plate, now, c) {}
      }
      var departure := bookings[b].departure;
      a := Authorized(b, departure, departure + JOURNEY_WINDOW, FromDatabase);
      CacheActiveBooking(plate, b, departure, departure + JOURNEY_WINDOW, now);
    }

    method VerifyPlate(bookings: Bookings, plate: Plate, now: int) returns (a: Answer)
      modifies this
      ensures Verified(bookings, old(entries), plate, now, a, entries)
      ensures a.Authorized? && a.source == FromCache <==>
        plate in old(entries) && now < old(entries)[plate].expiry && now <= old(entries)[plate].windowEnd
      ensures a.Authorized? && a.source == FromCache ==>
        a == Authorized(old(entries)[plate].booking, old(entries)[plate].departure, old(entries)[plate].windowEnd,
                        FromCache)
      ensures a.NotAuthorized? ==> forall c :: c in bookings && bookings[c].plate == plate && bookings[c].confirmed ==>
        bookings[c].departure < now - 2 * 3600 * SECOND || now < bookings[c].departure
      ensures a.Authorized? && a.source == FromDatabase ==>
        && a.booking in bookings && bookings[a.booking].plate == plate && bookings[a.booking].confirmed
        && a.departure == bookings[a.booking].departure <= now <= a.windowEnd == a.departure + 2 * 3600 * SECOND
    {
      var cached := GetCachedBooking(plate, now);
      if cached.Some? && now > cached.value.windowEnd {
        InvalidateBooking(plate);
        cached := None;
      }
      if cached.Some? {
        return Authorized(cached.value.booking, cached.value.departure, cached.value.windowEnd, FromCache);
      }
      a := LookupDb(bookings, plate, now);
    }
  }

  // ---- Every run ----

  /** `granted` are the bookings whose saga has published `booking.confirmed`; `sent` are all events published so far,
      each of which may be delivered late, out of order, repeatedly or never. */
  datatype State = State(now: int, bookings: Bookings, granted: set<Id>, sent: set<Event>, entries: Entries)

  datatype Step =
    | Tick(dt: nat)
    | Book(b: Id, plate: Plate, departure: int)
    | Announce(b: Id)
    | SetStatus(b: Id, confirmed: bool)
    | Drop(b: Id)
    | Deliver(e: Event)
    | Evict(plate: Plate)
    | Verify(plate: Plate, a: Answer)

  ghost predicate Next(s: State, step: Step, s': State) {
    match step
    case Tick(dt) => s' == s.(now := s.now + dt)
    case Book(b, plate, departure) =>
      b !in s.bookings && s' == s.(bookings := s.bookings[b := Journey(plate, departure, false)])
    case Announce(b) =>
      && b in s.bookings
      && s' == s.(granted := s.granted + {b},
           sent := s.sent + {ConfirmedEvent(Some(s.bookings[b].plate), b, Some(s.bookings[b].departure))})
    case SetStatus(b, confirmed) =>
      && b in s.bookings && (confirmed ==> b in s.granted)
      && s' == s.(bookings := s.bookings[b := s.bookings[b].(confirmed := confirmed)])
    case Drop(b) =>
      b in s.bookings && s' == s.(sent := s.sent + {DroppedEvent(Some(s.bookings[b].plate), b)})
    case Deliver(e) =>
      e in s.sent && s' == s.(entries := Handled(s.entries, e, s.now))
    case Evict(plate) => s' == s.(entries := s.entries - {plate})
    case Verify(plate, a) =>
      Verified(s.bookings, s.entries, plate, s.now, a, s'.entries) && s' == s.(entries := s'.entries)
  }

  ghost predicate IsRun(states: seq<State>, steps: seq<Step>) {
    && |states| == |steps| + 1
    && states[0].bookings == map[] && states[0].granted == {} && states[0].sent == {} && states[0].entries == map[]
    && forall i :: 0 <= i < |steps| ==> Next(states[i], steps[i], states[i + 1])
  }

  /** An entry speaks of a granted booking of its own plate, with that booking's window; it outlives the window by the
      grace period at most, unless it was written late, and then the present by the default time. */
  ghost predicate Faithful(s: State, plate: Plate, c: Cached) {
    && c.booking in s.granted && c.booking in s.bookings && s.bookings[c.booking].plate == plate
    && c.departure == s.bookings[c.booking].departure && c.windowEnd == c.departure + JOURNEY_WINDOW
    && c.windowEnd <= c.expiry <= Max(c.windowEnd + GRACE_SECONDS * SECOND, s.now + DEFAULT_TTL_SECONDS * SECOND)
  }

  ghost predicate Inv(s: State) {
    && (forall plate :: plate in s.entries ==> Faithful(s, plate, s.entries[plate]))
    && (forall b :: b in s.bookings && s.bookings[b].confirmed ==> b in s.granted)
    && (forall e :: e in s.sent && e.ConfirmedEvent? ==>
          && e.booking in s.granted && e.booking in s.bookings
          && e.plate == Some(s.bookings[e.booking].plate) && e.departure == Some(s.bookings[e.booking].departure))
  }

  lemma StepKeepsInv(s: State, step: Step, s': State)
    requires Inv(s) && Next(s, step, s')
    ensures Inv(s')
  {}

  lemma {:induction false} RunKeepsInv(states: seq<State>, steps: seq<Step>, i: nat)
    requires IsRun(states, steps) && i < |states|
    ensures Inv(states[i])
  {
    if i > 0 {
      RunKeepsInv(states, steps, i - 1);
      StepKeepsInv(states[i - 1], steps[i - 1], states[i]);
    }
  }

  /** Whatever events were lost, late, reordered or repeated: an authorised answer names a booking of that plate whose
      confirmation was published earlier, with its true departure, and is given no later than two hours after it. */
  lemma BoundedStaleness(states: seq<State>, steps: seq<Step>, i: nat, plate: Plate, a: Answer)
    requires IsRun(states, steps) && i < |steps| && steps[i] == Verify(plate, a) && a.Authorized?
    ensures a.booking in states[i].granted && a.booking in states[i].bookings
    ensures states[i].bookings[a.booking].plate == plate && states[i].bookings[a.booking].departure == a.departure
    ensures states[i].now <= a.departure + 2 * 3600 * SECOND == a.windowEnd
    ensures a.source == FromDatabase ==> states[i].bookings[a.booking].confirmed && a.departure <= states[i].now
  {
    RunKeepsInv(states, steps, i);
    assert Next(states[i], steps[i], states[i + 1]);
  }

  /** A check right after a `booking.cancelled` or `booking.failed` event of the plate, with no confirmed journey of the
      plate under way, refuses it, whatever was cached before. */
  lemma DroppedIsRefused(states: seq<State>, steps: seq<Step>, i: nat, plate: Plate, b: Id, a: Answer)
    requires IsRun(states, steps) && i + 1 < |steps| && plate != ""
    requires steps[i] == Deliver(DroppedEvent(Some(plate), b)) && steps[i + 1] == Verify(plate, a)
    requires forall c :: c in states[i].bookings ==>
      var j := states[i].bookings[c];
      j.plate == plate && j.confirmed ==> j.departure < states[i].now - 2 * 3600 * SECOND || states[i].now < j.departure
    ensures a == NotAuthorized
  {
    assert Next(states[i], steps[i], states[i + 1]) && Next(states[i + 1], steps[i + 1], states[i + 2]);
  }

  /** A check right after a `booking.confirmed` event of the plate names that booking until its window ends, departed or
      not. */
  lemma ConfirmedIsServed(states: seq<State>, steps: seq<Step>, i: nat, plate: Plate, b: Id, departure: int, a: Answer)
    requires IsRun(states, steps) && i + 1 < |steps| && plate != ""
    requires steps[i] == Deliver(ConfirmedEvent(Some(plate), b, Some(departure))) && steps[i + 1] == Verify(plate, a)
    requires states[i].now <= departure + 2 * 3600 * SECOND
    ensures a == Authorized(b, departure, departure + 2 * 3600 * SECOND, FromCache)
  {
    assert Next(states[i], steps[i], states[i + 1]) && Next(states[i + 1], steps[i + 1], states[i + 2]);
  }

  // ---- The cache against the query ----

  /** For an entry that speaks of a journey of this plate which is still confirmed and has departed, the cached path and
      the query decide alike, up to and including the last instant of the window. */
  lemma CacheRefinesQuery(bookings: Bookings, entries: Entries, plate: Plate, now: int, cached: Answer, queried: Answer,
                          after: Entries)
    requires plate in entries && entries[plate].booking in bookings
    requires var j := bookings[entries[plate].booking];
             j.plate == plate && j.confirmed && j.departure <= now
             && entries[plate].departure == j.departure && entries[plate].windowEnd == j.departure + JOURNEY_WINDOW
    requires Verified(bookings, entries, plate, now, cached, after) && QueryAnswers(bookings, plate, now, queried)
    ensures cached.Authorized? <==> queried.Authorized?
  {
    if Hit(entries, plate, now) {
      assert Matches(bookings, plate, now, entries[plate].booking);
    }
  }

  /** For a hit that knows its booking's window, the two paths agree exactly if that booking is still a confirmed
      journey of the plate and has departed, or else another journey of the plate is under way and confirmed. */
  lemma AgreementIff(bookings: Bookings, entries: Entries, plate: Plate, now: int, cached: Answer, queried: Answer,
                     after: Entries)
    requires Hit(entries, plate, now) && entries[plate].booking in bookings
    requires entries[plate].windowEnd == bookings[entries[plate].booking].departure + JOURNEY_WINDOW
    requires Verified(bookings, entries, plate, now, cached, after) && QueryAnswers(bookings, plate, now, queried)
    ensures var b := entries[plate].booking;
            (cached.Authorized? <==> queried.Authorized?) <==>
              || (bookings[b].plate == plate && bookings[b].confirmed && bookings[b].departure <= now)
              || exists c :: c != b && Matches(bookings, plate, now, c)
  {
    var b := entries[plate].booking;
    if bookings[b].plate == plate && bookings[b].confirmed && bookings[b].departure <= now {
      assert Matches(bookings, plate, now, b);
    }
  }

  /** Without a live entry, or once its window has ended, the answer is the query's, and a second check right after an
      authorised one comes from the cache and names the same booking. */
  lemma MissAsksTheDatabase(bookings: Bookings, entries: Entries, plate: Plate, now: int, a: Answer, after: Entries,
                            again: Answer, last: Entries)
    requires !Hit(entries, plate, now)
    requires Verified(bookings, entries, plate, now, a, after) && Verified(bookings, after, plate, now, again, last)
    ensures QueryAnswers(bookings, plate, now, a)
    ensures a.Authorized? ==> again == a.(source := FromCache) && last == after
  {}
}
