/**
 * The price watchdog: an in-memory map from a listing's link to its price
 * timeline. Each sighting classifies the listing as new, unchanged or
 * price-changed and appends a point only when the price moved.
 */
module PriceWatch {
  import opened Listing

  type PriceDb = map<string, seq<PricePoint>>

  /** The watchdog's answer to one sighting: the new map, the status and the listing's timeline. */
  datatype Sighting = Sighting(db: PriceDb, status: Status, history: seq<PricePoint>)

  /** One sighting of a listing, as a record to feed a run of sightings. */
  datatype Observation = Observation(id: string, price: real, at: string)

  /** Every tracked listing has at least one price point. */
  ghost predicate WellFormed(db: PriceDb)
  {
    forall id :: id in db ==> db[id] != []
  }

  /** The price of the last point of a timeline. */
  function Latest(h: seq<PricePoint>): real
    requires h != []
  {
    h[|h| - 1].price
  }

  /** No two consecutive points of a timeline carry the same price. */
  ghost predicate NoRepeats(h: seq<PricePoint>)
  {
    forall i :: 0 < i < |h| ==> h[i].price != h[i - 1].price
  }

  ghost predicate Tidy(db: PriceDb)
  {
    WellFormed(db) && forall id :: id in db ==> NoRepeats(db[id])
  }

  /**
   * One sighting of listing `id` at `price`, recorded at time `at`; every id,
   * the empty one included, is tracked.
   */
  function Observe(db: PriceDb, id: string, price: real, at: string): (s: Sighting)
    requires WellFormed(db)
    ensures WellFormed(s.db)
  {
    var point := PricePoint(price, at);
    if id in db then
      if price != Latest(db[id]) then
        Sighting(db[id := db[id] + [point]], PriceChanged, db[id] + [point])
      else
        Sighting(db, Unchanged, db[id])
    else
      Sighting(db[id := [point]], New, [point])
  }

  /**
   * What a sighting does: the listing is tracked afterwards and nothing else
   * changes; it is new exactly when it was untracked, unchanged exactly when
   * its timeline did not move, and otherwise the timeline grows by one point,
   * stamped with the sighting's price and time; the returned history is the
   * listing's timeline and ends at the observed price.
   */
  lemma ObserveSpec(db: PriceDb, id: string, price: real, at: string)
    requires WellFormed(db)
    ensures var s := Observe(db, id, price, at);
      && s.db.Keys == db.Keys + {id}
      && (forall k :: k in db && k != id ==> s.db[k] == db[k])
      && s.history == s.db[id] && Latest(s.history) == price
      && (id in db ==> db[id] <= s.history && |s.history| <= |db[id]| + 1)
      && (s.status == New <==> id !in db)
      && (s.status == Unchanged <==> id in db && s.history == db[id])
      && (s.status != Unchanged ==> s.history[|s.history| - 1] == PricePoint(price, at))
  {
  }

  /**
   * A sighting that tracks only listings with a link: one without a link is
   * reported as new with the timeline stored under the empty key, if any,
   * and the map is left alone.
   */
  function ObserveGuarded(db: PriceDb, id: string, price: real, at: string): (s: Sighting)
    requires WellFormed(db)
    ensures id != "" ==> s == Observe(db, id, price, at)
    ensures id == "" ==> s.db == db && s.status == New
    ensures "" !in db ==> "" !in s.db
  {
    if id != "" then Observe(db, id, price, at)
    else Sighting(db, New, if id in db then db[id] else [])
  }

  /** Every timeline of `db` is a prefix of the same listing's timeline in `db'`. */
  ghost predicate Grows(db: PriceDb, db': PriceDb)
  {
    forall k :: k in db ==> k in db' && db[k] <= db'[k]
  }

  /**
   * The price history listing `l` carries is a prefix of its link's timeline
   * in `db` and ends at the price the listing was seen at.
   */
  ghost predicate Tracked(l: Listing, db: PriceDb)
  {
    && l.record.link in db && l.priceHistory != []
    && l.priceHistory <= db[l.record.link]
    && Latest(l.priceHistory) == l.record.price
  }

  lemma TrackedGrows(l: Listing, db: PriceDb, db': PriceDb)
    requires Tracked(l, db) && Grows(db, db')
    ensures Tracked(l, db')
  {
  }

  /** A sighting keeps timelines free of consecutive repeats. */
  lemma ObserveTidy(db: PriceDb, id: string, price: real, at: string)
    requires Tidy(db)
    ensures Tidy(Observe(db, id, price, at).db)
  {
    var s := Observe(db, id, price, at);
    forall k | k in s.db ensures NoRepeats(s.db[k]) {
      if k == id && id in db && s.status == PriceChanged {
        var h := s.db[k];
        assert h == db[id] + [PricePoint(price, at)];
        forall i | 0 < i < |h| ensures h[i].price != h[i - 1].price {
          if i < |h| - 1 {
            assert h[i] == db[id][i] && h[i - 1] == db[id][i - 1];
          }
        }
      }
    }
  }

  /** A run of sightings in order. */
  function ObserveAll(db: PriceDb, obs: seq<Observation>): (r: PriceDb)
    requires WellFormed(db)
    ensures WellFormed(r)
  {
    if obs == [] then db
    else
      var o := obs[|obs| - 1];
      Observe(ObserveAll(db, obs[..|obs| - 1]), o.id, o.price, o.at).db
  }

  /** Timelines are append-only: every earlier timeline is a prefix of the later one. */
  lemma {:induction false} ObserveAllAppendOnly(db: PriceDb, obs: seq<Observation>)
    requires WellFormed(db)
    ensures forall k :: k in db ==> k in ObserveAll(db, obs) && db[k] <= ObserveAll(db, obs)[k]
  {
    if obs != [] {
      ObserveAllAppendOnly(db, obs[..|obs| - 1]);
    }
  }

  /** After a run, a listing's latest price is the price of its last sighting. */
  lemma {:induction false} ObserveAllLatest(db: PriceDb, obs: seq<Observation>, i: int)
    requires WellFormed(db)
    requires 0 <= i < |obs|
    requires forall j :: i < j < |obs| ==> obs[j].id != obs[i].id
    ensures obs[i].id in ObserveAll(db, obs)
    ensures Latest(ObserveAll(db, obs)[obs[i].id]) == obs[i].price
  {
    if i < |obs| - 1 {
      ObserveAllLatest(db, obs[..|obs| - 1], i);
    }
  }

  /** A listing never sighted keeps its timeline, or stays untracked. */
  lemma {:induction false} ObserveAllUnseen(db: PriceDb, obs: seq<Observation>, id: string)
    requires WellFormed(db)
    requires forall j :: 0 <= j < |obs| ==> obs[j].id != id
    ensures id in ObserveAll(db, obs) <==> id in db
    ensures id in db ==> ObserveAll(db, obs)[id] == db[id]
  {
    if obs != [] {
      ObserveAllUnseen(db, obs[..|obs| - 1], id);
    }
  }

  /** The timeline of a run never holds consecutive repeats. */
  lemma {:induction false} ObserveAllTidy(db: PriceDb, obs: seq<Observation>)
    requires Tidy(db)
    ensures Tidy(ObserveAll(db, obs))
  {
    if obs != [] {
      var o := obs[|obs| - 1];
      ObserveAllTidy(db, obs[..|obs| - 1]);
      ObserveTidy(ObserveAll(db, obs[..|obs| - 1]), o.id, o.price, o.at);
    }
  }

  /** Prices 100, 100, 200 for one listing leave the timeline [100, 200]. */
  lemma ObserveAllExample(id: string, t1: string, t2: string, t3: string)
    ensures ObserveAll(map[], [Observation(id, 100.0, t1), Observation(id, 100.0, t2), Observation(id, 200.0, t3)])[id]
      == [PricePoint(100.0, t1), PricePoint(200.0, t3)]
  {
    var obs := [Observation(id, 100.0, t1), Observation(id, 100.0, t2), Observation(id, 200.0, t3)];
    assert obs[..2][..1] == [Observation(id, 100.0, t1)];
    assert ObserveAll(map[], obs[..2][..1]) == map[id := [PricePoint(100.0, t1)]];
    assert ObserveAll(map[], obs[..2]) == map[id := [PricePoint(100.0, t1)]];
  }

  /** A second sighting at the same price is reported unchanged and adds no point. */
  lemma RepeatIsUnchanged(id: string, price: real, t1: string, t2: string)
    ensures var first := Observe(map[], id, price, t1);
      && first.status == New
      && Observe(first.db, id, price, t2).status == Unchanged
      && Observe(first.db, id, price, t2).history == [PricePoint(price, t1)]
  {
  }

  // ---------------------------------------------------------------- runs of normalised records

  /** Which listings the watchdog tracks: every one, or only those with a link. */
  datatype Policy = TrackAll | LinkedOnly

  /** The maps a policy works on: non-empty timelines and, for LinkedOnly, never the empty link. */
  ghost predicate Keyed(db: PriceDb, policy: Policy)
  {
    WellFormed(db) && (policy == LinkedOnly ==> "" !in db)
  }

  /** The sighting a policy makes of a listing at `price`, recorded at time `at`. */
  function See(db: PriceDb, id: string, price: real, at: string, policy: Policy): (s: Sighting)
    requires WellFormed(db)
    ensures WellFormed(s.db)
  {
    if policy == LinkedOnly then ObserveGuarded(db, id, price, at) else Observe(db, id, price, at)
  }

  /** One normalised record through the watchdog: the listing it returns and the map it leaves. */
  function Sight(db: PriceDb, record: Record, policy: Policy): (r: (Listing, PriceDb))
    requires Keyed(db, policy)
    ensures Keyed(r.1, policy)
  {
    var s := See(db, record.link, record.price, record.collectedAt, policy);
    (Listing(record, s.status, s.history), s.db)
  }

  /**
   * The listing `l` is accounted for in `db`: a listing the policy does not
   * track is new and carries an empty history, any other is tracked.
   */
  ghost predicate Accounted(l: Listing, db: PriceDb, policy: Policy)
  {
    if policy == LinkedOnly && l.record.link == "" then l.status == New && l.priceHistory == []
    else Tracked(l, db)
  }

  lemma AccountedGrows(l: Listing, db: PriceDb, db': PriceDb, policy: Policy)
    requires Accounted(l, db, policy) && Grows(db, db')
    ensures Accounted(l, db', policy)
  {
    if !(policy == LinkedOnly && l.record.link == "") {
      TrackedGrows(l, db, db');
    }
  }

  /**
   * A sighting only grows timelines, keeps the record it was given, and
   * accounts for the listing it returns.
   */
  lemma SightAccounted(db: PriceDb, record: Record, policy: Policy)
    requires Keyed(db, policy)
    ensures var (l, db') := Sight(db, record, policy);
      Grows(db, db') && l.record == record && Accounted(l, db', policy)
  {
    ObserveSpec(db, record.link, record.price, record.collectedAt);
  }

  /** The outcome of a scraping run: the listings in order and the final map. */
  datatype Run = Run(results: seq<Listing>, db: PriceDb)

  /** Records sighted in order, each against the map the previous ones left. */
  function RunRecords(db: PriceDb, records: seq<Record>, policy: Policy): (r: Run)
    requires Keyed(db, policy)
    ensures Keyed(r.db, policy)
  {
    if records == [] then Run([], db)
    else
      var prev := RunRecords(db, records[..|records| - 1], policy);
      var (l, db') := Sight(prev.db, records[|records| - 1], policy);
      Run(prev.results + [l], db')
  }

  /** A run over two batches is the run over the first, continued over the second. */
  lemma {:induction false} RunRecordsAppend(db: PriceDb, a: seq<Record>, b: seq<Record>, policy: Policy)
    requires Keyed(db, policy)
    ensures var first := RunRecords(db, a, policy);
      var second := RunRecords(first.db, b, policy);
      RunRecords(db, a + b, policy) == Run(first.results + second.results, second.db)
  {
    if b != [] {
      var b' := b[..|b| - 1];
      assert (a + b)[..|a + b| - 1] == a + b';
      assert (a + b)[|a + b| - 1] == b[|b| - 1];
      RunRecordsAppend(db, a, b', policy);
      var first := RunRecords(db, a, policy);
      var mid := RunRecords(first.db, b', policy);
      var (l, db') := Sight(mid.db, b[|b| - 1], policy);
      assert RunRecords(first.db, b, policy) == Run(mid.results + [l], db');
      assert RunRecords(db, a + b, policy) == Run(RunRecords(db, a + b', policy).results + [l], db');
      assert first.results + mid.results + [l] == first.results + (mid.results + [l]);
    } else {
      assert a + b == a;
    }
  }

  /** A run returns one listing per record, in order, carrying that record. */
  lemma {:induction false} RunRecordsListings(db: PriceDb, records: seq<Record>, policy: Policy)
    requires Keyed(db, policy)
    ensures |RunRecords(db, records, policy).results| == |records|
    ensures forall i :: 0 <= i < |records| ==> RunRecords(db, records, policy).results[i].record == records[i]
  {
    if records != [] {
      RunRecordsListings(db, records[..|records| - 1], policy);
      SightAccounted(RunRecords(db, records[..|records| - 1], policy).db, records[|records| - 1], policy);
    }
  }

  /**
   * A run only grows the timelines it started from, and every listing it
   * returns is accounted for in the final map: its history is a prefix of
   * its link's final timeline and ends at the price it was seen at.
   */
  lemma {:induction false} RunRecordsAccounted(db: PriceDb, records: seq<Record>, policy: Policy)
    requires Keyed(db, policy)
    ensures Grows(db, RunRecords(db, records, policy).db)
    ensures forall l :: l in RunRecords(db, records, policy).results ==> Accounted(l, RunRecords(db, records, policy).db, policy)
  {
    if records != [] {
      var prev := RunRecords(db, records[..|records| - 1], policy);
      RunRecordsAccounted(db, records[..|records| - 1], policy);
      SightAccounted(prev.db, records[|records| - 1], policy);
      var db' := Sight(prev.db, records[|records| - 1], policy).1;
      forall l | l in prev.results ensures Accounted(l, db', policy) {
        AccountedGrows(l, prev.db, db', policy);
      }
    }
  }

  /** The sightings a run makes. */
  function Sightings(records: seq<Record>): (obs: seq<Observation>)
    ensures |obs| == |records|
    ensures forall i :: 0 <= i < |records| ==>
      obs[i] == Observation(records[i].link, records[i].price, records[i].collectedAt)
  {
    seq(|records|, i requires 0 <= i < |records| => Observation(records[i].link, records[i].price, records[i].collectedAt))
  }

  /** Tracking every listing, a run leaves the map of its sightings run in order. */
  lemma {:induction false} RunRecordsObserveAll(db: PriceDb, records: seq<Record>)
    requires WellFormed(db)
    ensures RunRecords(db, records, TrackAll).db == ObserveAll(db, Sightings(records))
  {
    if records != [] {
      assert Sightings(records)[..|records| - 1] == Sightings(records[..|records| - 1]);
      RunRecordsObserveAll(db, records[..|records| - 1]);
    }
  }
}
