/**
 * The periodic scheduler's in-memory property store: a list of property
 * records upserted by link after every run, the counters of new and
 * repriced listings in a batch, and the status report.
 *
 * A property record is a string-keyed dictionary of JSON-like values, as the
 * collector's listings are once serialised; times are whole seconds.
 */
module Scheduler {
  import opened Wrappers

  datatype Value =
    | Text(text: string)
    | Number(number: real)
    | Flag(flag: bool)
    | Null
    | Items(items: seq<Value>)
    | Fields(fields: map<string, Value>)

  type Entry = map<string, Value>

  const LINK := "link"
  const TITLE := "title"
  const PRICE_TEXT := "priceText"
  const STATUS := "status"
  const CREATED_AT := "created_at"
  const UPDATED_AT := "updated_at"
  const NEW := "NEW"
  const PRICE_CHANGED := "PRICE_CHANGED"
  const WAITING := "Aguardando primeira execução"
  const DEFAULT_INTERVAL_HOURS := 6
  const SECONDS_PER_HOUR := 3600

  /** Every record has a link (the store indexes it with `p['link']`). */
  predicate Linked(db: seq<Entry>)
  {
    forall i :: 0 <= i < |db| ==> LINK in db[i]
  }

  /** No two records share a link. */
  ghost predicate Distinct(db: seq<Entry>)
    requires Linked(db)
  {
    forall i, j :: 0 <= i < j < |db| ==> db[i][LINK] != db[j][LINK]
  }

  /** The links of the records. */
  ghost function Links(db: seq<Entry>): set<Value>
    requires Linked(db)
  {
    set i | 0 <= i < |db| :: db[i][LINK]
  }

  /** The index of the first record with link `link`: `next((p for p in db if p['link'] == link), None)`. */
  function FindLink(db: seq<Entry>, link: Value): (r: Option<nat>)
    requires Linked(db)
    ensures r.Some? ==> r.value < |db| && db[r.value][LINK] == link
    ensures r.Some? ==> forall j :: 0 <= j < r.value ==> db[j][LINK] != link
    ensures r.None? <==> link !in Links(db)
  {
    if db == [] then None
    else if db[0][LINK] == link then Some(0)
    else
      var r := FindLink(db[1..], link);
      assert forall j :: 1 <= j < |db| ==> db[j] == db[1..][j - 1];
      assert Links(db) == {db[0][LINK]} + Links(db[1..]) by {
        forall v | v in Links(db) ensures v in {db[0][LINK]} + Links(db[1..]) {
          var j :| 0 <= j < |db| && db[j][LINK] == v;
          if j > 0 { assert db[1..][j - 1][LINK] == v; }
        }
      }
      match r
      case None => None
      case Some(k) => Some(k + 1)
  }

  /** The record `prop` is merged into, with its update time set. */
  function Merged(existing: Entry, prop: Entry, timestamp: string): (e: Entry)
  {
    (existing + prop)[UPDATED_AT := Text(timestamp)]
  }

  /** The record a new `prop` is stored as. */
  function Created(prop: Entry, timestamp: string): (e: Entry)
  {
    prop[CREATED_AT := Text(timestamp)][UPDATED_AT := Text(timestamp)]
  }

  /** One property of `_save_to_database`: merged into the record with its link, else appended. */
  function Upsert(db: seq<Entry>, prop: Entry, timestamp: string): (r: seq<Entry>)
    requires Linked(db) && LINK in prop
    ensures Linked(r)
  {
    match FindLink(db, prop[LINK])
    case Some(i) => db[i := Merged(db[i], prop, timestamp)]
    case None => db + [Created(prop, timestamp)]
  }

  /** `_save_to_database` on a batch: the properties upserted in order. */
  function Save(db: seq<Entry>, props: seq<Entry>, timestamp: string): (r: seq<Entry>)
    requires Linked(db) && Linked(props)
    ensures Linked(r)
  {
    if props == [] then db
    else Upsert(Save(db, props[..|props| - 1], timestamp), props[|props| - 1], timestamp)
  }

  // ---------------------------------------------------------------- one upsert

  /**
   * A property whose link is stored is merged into the first record with
   * that link, which keeps its other keys, takes every key of the property
   * and the batch time as update time; no record is added.
   */
  lemma UpsertExisting(db: seq<Entry>, prop: Entry, timestamp: string, i: int)
    requires Linked(db) && LINK in prop
    requires 0 <= i < |db| && db[i][LINK] == prop[LINK]
    requires forall j :: 0 <= j < i ==> db[j][LINK] != prop[LINK]
    ensures var r := Upsert(db, prop, timestamp);
      && |r| == |db|
      && (forall j :: 0 <= j < |db| && j != i ==> r[j] == db[j])
      && r[i].Keys == db[i].Keys + prop.Keys + {UPDATED_AT}
      && r[i][UPDATED_AT] == Text(timestamp)
      && (forall k :: k in prop && k != UPDATED_AT ==> r[i][k] == prop[k])
      && (forall k :: k in db[i] && k !in prop && k != UPDATED_AT ==> r[i][k] == db[i][k])
  {
    assert prop[LINK] in Links(db);
  }

  /** A property with an unseen link is appended, created and updated at the batch time. */
  lemma UpsertFresh(db: seq<Entry>, prop: Entry, timestamp: string)
    requires Linked(db) && LINK in prop
    requires prop[LINK] !in Links(db)
    ensures var r := Upsert(db, prop, timestamp);
      && r[..|db|] == db && |r| == |db| + 1
      && r[|db|].Keys == prop.Keys + {CREATED_AT, UPDATED_AT}
      && r[|db|][CREATED_AT] == r[|db|][UPDATED_AT] == Text(timestamp)
      && (forall k :: k in prop && k != CREATED_AT && k != UPDATED_AT ==> r[|db|][k] == prop[k])
  {
  }

  /** An upsert keeps every record's link and adds the property's link. */
  lemma UpsertLinks(db: seq<Entry>, prop: Entry, timestamp: string)
    requires Linked(db) && LINK in prop
    ensures var r := Upsert(db, prop, timestamp);
      && |r| == |db| + (if prop[LINK] in Links(db) then 0 else 1)
      && (forall j :: 0 <= j < |db| ==> r[j][LINK] == db[j][LINK])
      && Links(r) == Links(db) + {prop[LINK]}
      && (Distinct(db) ==> Distinct(r))
  {
    var r := Upsert(db, prop, timestamp);
    match FindLink(db, prop[LINK])
    case Some(i) =>
      assert r[i][LINK] == prop[LINK] == db[i][LINK];
      assert forall j :: 0 <= j < |db| ==> r[j][LINK] == db[j][LINK];
      assert Links(r) == Links(db) by {
        forall v | v in Links(r) ensures v in Links(db) {
          var j :| 0 <= j < |r| && r[j][LINK] == v;
          assert db[j][LINK] == v;
        }
        forall v | v in Links(db) ensures v in Links(r) {
          var j :| 0 <= j < |db| && db[j][LINK] == v;
          assert r[j][LINK] == v;
        }
      }
    case None =>
      assert forall j :: 0 <= j < |db| ==> r[j] == db[j];
      assert r[|db|][LINK] == prop[LINK];
      assert Links(r) == Links(db) + {prop[LINK]} by {
        forall v | v in Links(r) ensures v in Links(db) + {prop[LINK]} {
          var j :| 0 <= j < |r| && r[j][LINK] == v;
          if j < |db| { assert db[j][LINK] == v; }
        }
        forall v | v in Links(db) ensures v in Links(r) {
          var j :| 0 <= j < |db| && db[j][LINK] == v;
          assert r[j][LINK] == v;
        }
      }
      if Distinct(db) {
        forall i, j | 0 <= i < j < |r| ensures r[i][LINK] != r[j][LINK] {
          if j == |db| { assert db[i][LINK] in Links(db); }
        }
      }
  }

  // ---------------------------------------------------------------- a batch

  /** The links of a batch. */
  ghost function BatchLinks(props: seq<Entry>): set<Value>
    requires Linked(props)
  {
    set i | 0 <= i < |props| :: props[i][LINK]
  }

  lemma BatchLinksLast(props: seq<Entry>)
    requires Linked(props) && props != []
    ensures BatchLinks(props) == BatchLinks(props[..|props| - 1]) + {props[|props| - 1][LINK]}
  {
    var init := props[..|props| - 1];
    forall v | v in BatchLinks(props) ensures v in BatchLinks(init) + {props[|props| - 1][LINK]} {
      var j :| 0 <= j < |props| && props[j][LINK] == v;
      if j < |init| { assert init[j][LINK] == v; }
    }
    forall v | v in BatchLinks(init) ensures v in BatchLinks(props) {
      var j :| 0 <= j < |init| && init[j][LINK] == v;
      assert props[j][LINK] == v;
    }
  }

  /**
   * After a batch the store holds the links it held and every link of the
   * batch, and no other; records keep their positions and their links, and
   * distinct links stay distinct.
   */
  lemma {:induction false} SaveLinks(db: seq<Entry>, props: seq<Entry>, timestamp: string)
    requires Linked(db) && Linked(props)
    ensures var r := Save(db, props, timestamp);
      && |r| >= |db|
      && (forall j :: 0 <= j < |db| ==> r[j][LINK] == db[j][LINK])
      && Links(r) == Links(db) + BatchLinks(props)
      && (Distinct(db) ==> Distinct(r))
  {
    if props != [] {
      var init := props[..|props| - 1];
      SaveLinks(db, init, timestamp);
      UpsertLinks(Save(db, init, timestamp), props[|props| - 1], timestamp);
      BatchLinksLast(props);
    } else {
      assert BatchLinks(props) == {};
    }
  }

  /** With distinct links, a store has as many records as links. */
  lemma {:induction false} DistinctCount(db: seq<Entry>)
    requires Linked(db) && Distinct(db)
    ensures |Links(db)| == |db|
  {
    if db != [] {
      var init := db[..|db| - 1];
      DistinctCount(init);
      assert Links(db) == Links(init) + {db[|db| - 1][LINK]} by {
        forall v | v in Links(db) ensures v in Links(init) + {db[|db| - 1][LINK]} {
          var j :| 0 <= j < |db| && db[j][LINK] == v;
          if j < |init| { assert init[j][LINK] == v; }
        }
        forall v | v in Links(init) ensures v in Links(db) {
          var j :| 0 <= j < |init| && init[j][LINK] == v;
          assert db[j][LINK] == v;
        }
      }
      assert forall j :: 0 <= j < |init| ==> init[j][LINK] != db[|db| - 1][LINK];
    } else {
      assert Links(db) == {};
    }
  }

  /**
   * The store grows by exactly the number of distinct links of the batch it
   * did not hold, so two properties with the same link make one record.
   */
  lemma SaveGrowth(db: seq<Entry>, props: seq<Entry>, timestamp: string)
    requires Linked(db) && Linked(props) && Distinct(db)
    ensures |Save(db, props, timestamp)| == |db| + |BatchLinks(props) - Links(db)|
  {
    var r := Save(db, props, timestamp);
    SaveLinks(db, props, timestamp);
    DistinctCount(db);
    DistinctCount(r);
    assert Links(r) == Links(db) + (BatchLinks(props) - Links(db));
  }

  /** A save keeps the links of a store distinct and grows it by the new links of the batch. */
  lemma SaveKeepsDistinct(db: seq<Entry>, props: seq<Entry>, timestamp: string)
    requires Linked(db) && Linked(props) && Distinct(db)
    ensures Distinct(Save(db, props, timestamp))
    ensures |Save(db, props, timestamp)| == |db| + |BatchLinks(props) - Links(db)|
  {
    SaveLinks(db, props, timestamp);
    SaveGrowth(db, props, timestamp);
  }

  /** Records whose link the batch does not carry are untouched. */
  lemma {:induction false} SaveUntouched(db: seq<Entry>, props: seq<Entry>, timestamp: string)
    requires Linked(db) && Linked(props)
    ensures var r := Save(db, props, timestamp);
      |r| >= |db| && forall j :: 0 <= j < |db| && db[j][LINK] !in BatchLinks(props) ==> r[j] == db[j]
  {
    if props != [] {
      var init, prop := props[..|props| - 1], props[|props| - 1];
      var before := Save(db, init, timestamp);
      SaveUntouched(db, init, timestamp);
      SaveLinks(db, init, timestamp);
      BatchLinksLast(props);
      UpsertOthers(before, prop, timestamp);
    }
  }

  /** An upsert changes only records with the property's link, and appends at most one. */
  lemma UpsertOthers(db: seq<Entry>, prop: Entry, timestamp: string)
    requires Linked(db) && LINK in prop
    ensures var r := Upsert(db, prop, timestamp);
      && |r| >= |db|
      && (forall j :: 0 <= j < |db| && db[j][LINK] != prop[LINK] ==> r[j] == db[j])
      && (forall j :: |db| <= j < |r| ==> r[j] == Created(prop, timestamp))
  {
  }

  /** In a store with distinct links, every record whose link the batch carries has the batch time as update time. */
  lemma {:induction false} SaveUpdated(db: seq<Entry>, props: seq<Entry>, timestamp: string)
    requires Linked(db) && Linked(props) && Distinct(db)
    ensures var r := Save(db, props, timestamp);
      forall j :: 0 <= j < |r| && r[j][LINK] in BatchLinks(props) ==> UPDATED_AT in r[j] && r[j][UPDATED_AT] == Text(timestamp)
  {
    if props != [] {
      var init, prop := props[..|props| - 1], props[|props| - 1];
      var before := Save(db, init, timestamp);
      SaveUpdated(db, init, timestamp);
      SaveLinks(db, init, timestamp);
      BatchLinksLast(props);
      UpsertLinks(before, prop, timestamp);
      UpsertOthers(before, prop, timestamp);
      UpsertStamps(before, prop, timestamp);
    }
  }

  /** After an upsert into distinct links, the record with the property's link carries the batch time as update time. */
  lemma UpsertStamps(db: seq<Entry>, prop: Entry, timestamp: string)
    requires Linked(db) && LINK in prop && Distinct(db)
    ensures var r := Upsert(db, prop, timestamp);
      forall j :: 0 <= j < |r| && r[j][LINK] == prop[LINK] && (j >= |db| || db[j][LINK] == prop[LINK]) ==>
        UPDATED_AT in r[j] && r[j][UPDATED_AT] == Text(timestamp)
  {
  }

  /** Records the batch adds come after the ones the store held, were created, and carry a link of the batch. */
  lemma {:induction false} SaveAppends(db: seq<Entry>, props: seq<Entry>, timestamp: string)
    requires Linked(db) && Linked(props)
    ensures var r := Save(db, props, timestamp);
      forall j :: |db| <= j < |r| ==> CREATED_AT in r[j] && r[j][LINK] in BatchLinks(props)
  {
    if props != [] {
      var init, prop := props[..|props| - 1], props[|props| - 1];
      var before := Save(db, init, timestamp);
      SaveAppends(db, init, timestamp);
      SaveLinks(db, init, timestamp);
      BatchLinksLast(props);
      UpsertOthers(before, prop, timestamp);
      UpsertKeepsKeys(before, prop, timestamp);
    }
  }

  /** An upsert never removes a key or changes a record's link. */
  lemma UpsertKeepsKeys(db: seq<Entry>, prop: Entry, timestamp: string)
    requires Linked(db) && LINK in prop
    ensures var r := Upsert(db, prop, timestamp);
      |r| >= |db| && forall j :: 0 <= j < |db| ==> db[j].Keys <= r[j].Keys && r[j][LINK] == db[j][LINK]
  {
  }

  // ---------------------------------------------------------------- change counters

  /** `prop.get('status') == status`. */
  predicate HasStatus(prop: Entry, status: string)
  {
    STATUS in prop && prop[STATUS] == Text(status)
  }

  /** The positions of the batch whose status is `status`. */
  ghost function WithStatus(props: seq<Entry>, status: string): set<nat>
  {
    set i: nat | i < |props| && HasStatus(props[i], status)
  }

  /** The number of properties with status `status`, counted from the front. */
  function CountStatus(props: seq<Entry>, status: string): nat
  {
    if props == [] then 0
    else CountStatus(props[..|props| - 1], status) + (if HasStatus(props[|props| - 1], status) then 1 else 0)
  }

  lemma WithStatusNext(props: seq<Entry>, status: string, k: int)
    requires 0 <= k < |props|
    ensures WithStatus(props[..k + 1], status)
      == WithStatus(props[..k], status) + (if HasStatus(props[k], status) then {k} else {})
    ensures k !in WithStatus(props[..k], status)
  {
    assert forall i :: 0 <= i < k ==> props[..k + 1][i] == props[..k][i];
  }

  /** The count is the number of positions that carry the status. */
  lemma {:induction false} CountIsCardinality(props: seq<Entry>, status: string)
    ensures CountStatus(props, status) == |WithStatus(props, status)|
  {
    if props != [] {
      var k := |props| - 1;
      CountIsCardinality(props[..k], status);
      WithStatusNext(props, status, k);
      assert props[..k + 1] == props;
    } else {
      assert WithStatus(props, status) == {};
    }
  }

  /** No property is counted both as new and as repriced, so the two counts never exceed the batch. */
  lemma {:induction false} CountsBounded(props: seq<Entry>)
    ensures WithStatus(props, NEW) !! WithStatus(props, PRICE_CHANGED)
    ensures |WithStatus(props, NEW)| + |WithStatus(props, PRICE_CHANGED)| <= |props|
  {
    if props != [] {
      var k := |props| - 1;
      CountsBounded(props[..k]);
      WithStatusNext(props, NEW, k);
      WithStatusNext(props, PRICE_CHANGED, k);
      assert props[..k + 1] == props;
      assert k !in WithStatus(props[..k], NEW) && k !in WithStatus(props[..k], PRICE_CHANGED);
    } else {
      assert WithStatus(props, NEW) == {};
      assert WithStatus(props, PRICE_CHANGED) == {};
    }
  }

  /**
   * The log line `_detect_changes` writes for a property finds the keys it
   * reads: `title` and `priceText` for a new one, `title` for a repriced one.
   */
  predicate Loggable(prop: Entry)
  {
    && (HasStatus(prop, NEW) ==> TITLE in prop && PRICE_TEXT in prop)
    && (HasStatus(prop, PRICE_CHANGED) ==> TITLE in prop)
  }

  /**
   * The counting loop of `_detect_changes`: statuses NEW and PRICE_CHANGED,
   * every other ignored; `raised` is the KeyError of a log line whose key
   * is missing, which ends the loop.
   */
  method DetectChanges(properties: seq<Entry>) returns (newCount: nat, priceChangedCount: nat, raised: bool)
    ensures raised <==> exists i :: 0 <= i < |properties| && !Loggable(properties[i])
    ensures !raised ==> newCount == |WithStatus(properties, NEW)|
    ensures !raised ==> priceChangedCount == |WithStatus(properties, PRICE_CHANGED)|
  {
    raised := false;
    newCount, priceChangedCount := 0, 0;
    var k := 0;
    while k < |properties|
      invariant 0 <= k <= |properties|
      invariant newCount == CountStatus(properties[..k], NEW)
      invariant priceChangedCount == CountStatus(properties[..k], PRICE_CHANGED)
      invariant forall i :: 0 <= i < k ==> Loggable(properties[i])
    {
      var prop := properties[k];
      assert properties[..k + 1][..k] == properties[..k];
      if HasStatus(prop, NEW) {
        newCount := newCount + 1;
        if TITLE !in prop || PRICE_TEXT !in prop {
          assert !Loggable(properties[k]);
          raised := true;
          return;
        }
      } else if HasStatus(prop, PRICE_CHANGED) {
        priceChangedCount := priceChangedCount + 1;
        if TITLE !in prop {
          assert !Loggable(properties[k]);
          raised := true;
          return;
        }
      }
      k := k + 1;
    }
    assert properties[..k] == properties;
    CountIsCardinality(properties, NEW);
    CountIsCardinality(properties, PRICE_CHANGED);
  }

  // ---------------------------------------------------------------- the caller's batch

  /** The index of the first property without a title, or the batch size when every one has it. */
  function FirstUntitled(props: seq<Entry>): (n: nat)
    ensures n <= |props|
    ensures forall i :: 0 <= i < n ==> TITLE in props[i]
    ensures n < |props| ==> TITLE !in props[n]
  {
    if props == [] || TITLE !in props[0] then 0
    else
      var n := FirstUntitled(props[1..]);
      assert forall i :: 1 <= i <= n ==> props[i] == props[1..][i - 1];
      n + 1
  }

  /**
   * How many properties `_save_to_database` upserts: the log line after each
   * upsert reads `prop['title']`, so the first property without a title is
   * saved and then ends the batch with a KeyError.
   */
  function Handled(props: seq<Entry>): (n: nat)
    ensures n <= |props|
    ensures forall i :: 0 <= i < n - 1 ==> TITLE in props[i]
    ensures n < |props| ==> 0 < n && TITLE !in props[n - 1]
    ensures (forall i :: 0 <= i < |props| ==> TITLE in props[i]) ==> n == |props|
  {
    var first := FirstUntitled(props);
    if first < |props| then first + 1 else first
  }

  /**
   * A loop that upserts until it has handled a property without a title, or
   * the whole batch, has handled `Handled` properties, and it stopped early
   * exactly when some property lacks a title.
   */
  lemma HandledAt(props: seq<Entry>, k: nat, stopped: bool)
    requires k <= |props|
    requires stopped ==> k == FirstUntitled(props) + 1
    requires !stopped ==> k == |props| && k <= FirstUntitled(props)
    ensures k == Handled(props)
    ensures stopped <==> exists i :: 0 <= i < |props| && TITLE !in props[i]
  {
    if stopped {
      assert TITLE !in props[k - 1];
    }
  }

  /** Saving a batch in two parts is saving the first part, then the second. */
  lemma {:induction false} SaveSplit(db: seq<Entry>, a: seq<Entry>, b: seq<Entry>, timestamp: string)
    requires Linked(db) && Linked(a) && Linked(b)
    ensures Linked(a + b)
    ensures Save(db, a + b, timestamp) == Save(Save(db, a, timestamp), b, timestamp)
  {
    assert forall i :: 0 <= i < |a| ==> (a + b)[i] == a[i];
    assert forall i :: |a| <= i < |a + b| ==> (a + b)[i] == b[i - |a|];
    if b == [] {
      assert a + b == a;
    } else {
      var n := |b| - 1;
      assert (a + b)[..|a + b| - 1] == a + b[..n];
      SaveSplit(db, a, b[..n], timestamp);
    }
  }

  /** Saving a batch is saving its first n properties, then the rest. */
  lemma SavePrefix(db: seq<Entry>, props: seq<Entry>, timestamp: string, n: int)
    requires Linked(db) && Linked(props) && 0 <= n <= |props|
    ensures Linked(props[n..])
    ensures Save(db, props, timestamp) == Save(Save(db, props[..n], timestamp), props[n..], timestamp)
  {
    assert props[..n] + props[n..] == props;
    SaveSplit(db, props[..n], props[n..], timestamp);
  }

  /**
   * A property the save appends keeps its record at the index it was
   * appended at, with its link, whatever the rest of the batch does.
   */
  lemma AppendedStays(db: seq<Entry>, props: seq<Entry>, timestamp: string, i: int)
    requires Linked(db) && Linked(props) && 0 <= i < |props|
    requires FindLink(Save(db, props[..i], timestamp), props[i][LINK]).None?
    ensures |Save(db, props[..i], timestamp)| < |Save(db, props, timestamp)|
    ensures Save(db, props, timestamp)[|Save(db, props[..i], timestamp)|][LINK] == props[i][LINK]
  {
    var before := Save(db, props[..i], timestamp);
    var mid := Save(db, props[..i + 1], timestamp);
    SaveLast(db, props, timestamp, i);
    assert mid == before + [Created(props[i], timestamp)];
    SavePrefix(db, props, timestamp, i + 1);
    SaveLinks(mid, props[i + 1..], timestamp);
  }

  /**
   * Where `_save_to_database` appends the caller's dict i itself: the index
   * the dict takes in the store, or None when the dict's link is stored
   * already (or was appended earlier in the batch) and the dict is only
   * copied into that record.
   */
  function AliasOf(db: seq<Entry>, props: seq<Entry>, timestamp: string, i: int): Option<nat>
    requires Linked(db) && Linked(props) && 0 <= i < |props|
  {
    var before := Save(db, props[..i], timestamp);
    if FindLink(before, props[i][LINK]).Some? then None else Some(|before|)
  }

  /** The index a dict is appended at holds, once the batch is saved, a record with that dict's link. */
  lemma AliasInStore(db: seq<Entry>, props: seq<Entry>, timestamp: string, i: int)
    requires Linked(db) && Linked(props) && 0 <= i < |props|
    ensures var r := AliasOf(db, props, timestamp, i);
      r.Some? ==> r.value < |Save(db, props, timestamp)| && Save(db, props, timestamp)[r.value][LINK] == props[i][LINK]
  {
    if AliasOf(db, props, timestamp, i).Some? {
      AppendedStays(db, props, timestamp, i);
    }
  }

  /**
   * The save appends dict i itself exactly when its link is neither stored
   * nor carried by an earlier dict of the batch.
   */
  lemma AliasOfFresh(db: seq<Entry>, props: seq<Entry>, timestamp: string, i: int)
    requires Linked(db) && Linked(props) && 0 <= i < |props|
    ensures AliasOf(db, props, timestamp, i).Some? <==>
      props[i][LINK] !in Links(db) && forall j :: 0 <= j < i ==> props[j][LINK] != props[i][LINK]
  {
    var link := props[i][LINK];
    SaveLinks(db, props[..i], timestamp);
    if link in BatchLinks(props[..i]) {
      var j :| 0 <= j < i && props[..i][j][LINK] == link;
      assert props[j][LINK] == link;
    } else {
      forall j | 0 <= j < i ensures props[j][LINK] != link {
        assert props[..i][j][LINK] == props[j][LINK];
      }
    }
  }

  /**
   * Where the save appends each dict of the batch, in batch order: the end
   * of the store so far when the dict's link is not found there, else None.
   */
  function Aliases(db: seq<Entry>, props: seq<Entry>, timestamp: string): (r: seq<Option<nat>>)
    requires Linked(db) && Linked(props)
    ensures |r| == |props|
  {
    if props == [] then []
    else
      var init, prop := props[..|props| - 1], props[|props| - 1];
      var store := Save(db, init, timestamp);
      Aliases(db, init, timestamp) + [if FindLink(store, prop[LINK]).Some? then None else Some(|store|)]
  }

  /**
   * One iteration of the save: dict k is upserted into the store so far,
   * and is appended at its end exactly when its link is not found there.
   */
  lemma SaveStep(db: seq<Entry>, props: seq<Entry>, timestamp: string, k: int)
    requires Linked(db) && Linked(props) && 0 <= k < |props|
    ensures var store := Save(db, props[..k], timestamp);
      && Save(db, props[..k + 1], timestamp) == Upsert(store, props[k], timestamp)
      && Aliases(db, props[..k + 1], timestamp) ==
        Aliases(db, props[..k], timestamp) + [if FindLink(store, props[k][LINK]).Some? then None else Some(|store|)]
  {
    assert props[..k + 1][..k] == props[..k];
  }

  /** Entry j of the list is where dict j is appended. */
  lemma {:induction false} AliasesAt(db: seq<Entry>, props: seq<Entry>, timestamp: string, j: int)
    requires Linked(db) && Linked(props) && 0 <= j < |props|
    ensures Aliases(db, props, timestamp)[j] == AliasOf(db, props, timestamp, j)
  {
    var init := props[..|props| - 1];
    if j < |props| - 1 {
      AliasesAt(db, init, timestamp, j);
      assert init[..j] == props[..j] && init[j] == props[j];
    } else {
      assert init == props[..j];
    }
  }

  /** One step of the save: dict k is appended exactly when its link is not in the store so far. */
  lemma AliasStep(db: seq<Entry>, props: seq<Entry>, timestamp: string, k: int)
    requires Linked(db) && Linked(props) && 0 <= k < |props|
    ensures AliasOf(db, props, timestamp, k) ==
      if FindLink(Save(db, props[..k], timestamp), props[k][LINK]).Some? then None
      else Some(|Save(db, props[..k], timestamp)|)
  {
  }

  /**
   * The caller's dict i after `_save_to_database`: a dict the save appended
   * is the stored record itself, so it carries the stamps and every later
   * merge into that record; any other dict is left as it was.
   */
  function SavedDict(db: seq<Entry>, props: seq<Entry>, timestamp: string, i: int): (d: Entry)
    requires Linked(db) && Linked(props) && 0 <= i < |props|
    ensures LINK in d && d[LINK] == props[i][LINK]
  {
    match AliasOf(db, props, timestamp, i)
    case Some(k) =>
      AliasInStore(db, props, timestamp, i);
      Save(db, props, timestamp)[k]
    case None => props[i]
  }

  /** The caller's list after the save: the same dicts, with their links. */
  function SavedBatch(db: seq<Entry>, props: seq<Entry>, timestamp: string): (r: seq<Entry>)
    requires Linked(db) && Linked(props)
    ensures |r| == |props|
    ensures forall i :: 0 <= i < |props| ==> LINK in r[i] && r[i][LINK] == props[i][LINK]
  {
    seq(|props|, i requires 0 <= i < |props| => SavedDict(db, props, timestamp, i))
  }

  /**
   * A dict the save appended is stamped in place: it is a record of the
   * store, with a creation time and the batch time as update time.
   */
  lemma SavedBatchStamped(db: seq<Entry>, props: seq<Entry>, timestamp: string, i: int)
    requires Linked(db) && Linked(props) && Distinct(db) && 0 <= i < |props|
    requires AliasOf(db, props, timestamp, i).Some?
    ensures var d := SavedBatch(db, props, timestamp)[i];
      && d in Save(db, props, timestamp)
      && CREATED_AT in d && UPDATED_AT in d && d[UPDATED_AT] == Text(timestamp)
  {
    var k := AliasOf(db, props, timestamp, i).value;
    var r := Save(db, props, timestamp);
    AliasInStore(db, props, timestamp, i);
    SaveLinks(db, props[..i], timestamp);
    SaveAppends(db, props, timestamp);
    SaveUpdated(db, props, timestamp);
    assert r[k][LINK] in BatchLinks(props);
  }

  /**
   * A later property with the same link is merged into the caller's earlier
   * dict itself: when property j is the last with the link of an appended
   * dict i, that dict ends with every key of property j but the update time.
   */
  lemma SavedBatchMergedLater(db: seq<Entry>, props: seq<Entry>, timestamp: string, i: int, j: int, key: string)
    requires Linked(db) && Linked(props) && 0 <= i < j < |props|
    requires AliasOf(db, props, timestamp, i).Some? && props[j][LINK] == props[i][LINK]
    requires forall m :: j < m < |props| ==> props[m][LINK] != props[j][LINK]
    requires key in props[j] && key != UPDATED_AT
    ensures key in SavedBatch(db, props, timestamp)[i]
    ensures SavedBatch(db, props, timestamp)[i][key] == props[j][key]
  {
    var k := AliasOf(db, props, timestamp, i).value;
    AliasStep(db, props, timestamp, i);
    AppendedFirst(db, props, timestamp, i, j);
    var mid := Save(db, props[..j + 1], timestamp);
    SaveLast(db, props, timestamp, j);
    assert mid[k][key] == props[j][key];
    LastUntouched(db, props, timestamp, j, k);
  }

  /**
   * Until a later dict with its link is saved, the record appended for dict
   * i is the first in the store with that link.
   */
  lemma AppendedFirst(db: seq<Entry>, props: seq<Entry>, timestamp: string, i: int, j: int)
    requires Linked(db) && Linked(props) && 0 <= i < j <= |props|
    requires FindLink(Save(db, props[..i], timestamp), props[i][LINK]).None?
    ensures FindLink(Save(db, props[..j], timestamp), props[i][LINK]) == Some(|Save(db, props[..i], timestamp)|)
  {
    var link := props[i][LINK];
    var before := Save(db, props[..i], timestamp);
    var upto := Save(db, props[..j], timestamp);
    var k := |before|;
    var part := props[..j];
    assert part[..i] == props[..i] && part[i] == props[i];
    AppendedStays(db, part, timestamp, i);
    SavePrefix(db, part, timestamp, i);
    SaveLinks(before, part[i..], timestamp);
    forall m | 0 <= m < k ensures upto[m][LINK] != link {
      assert before[m][LINK] in Links(before);
    }
    FirstWithLink(upto, link, k);
  }

  /** A record whose link no dict after j carries keeps its state from the save of dict j on. */
  lemma LastUntouched(db: seq<Entry>, props: seq<Entry>, timestamp: string, j: int, k: int)
    requires Linked(db) && Linked(props) && 0 <= j < |props|
    requires 0 <= k < |Save(db, props[..j + 1], timestamp)|
    requires forall m :: j < m < |props| ==> props[m][LINK] != Save(db, props[..j + 1], timestamp)[k][LINK]
    ensures k < |Save(db, props, timestamp)| && Save(db, props, timestamp)[k] == Save(db, props[..j + 1], timestamp)[k]
  {
    var mid := Save(db, props[..j + 1], timestamp);
    TailUntouched(mid, props, j + 1, timestamp, k);
    SavePrefix(db, props, timestamp, j + 1);
  }

  /** A record whose link no property from n on carries ends the rest of the batch as it was. */
  lemma TailUntouched(mid: seq<Entry>, props: seq<Entry>, n: int, timestamp: string, k: int)
    requires Linked(mid) && Linked(props) && 0 <= n <= |props| && 0 <= k < |mid|
    requires forall m :: n <= m < |props| ==> props[m][LINK] != mid[k][LINK]
    ensures Linked(props[n..])
    ensures k < |Save(mid, props[n..], timestamp)| && Save(mid, props[n..], timestamp)[k] == mid[k]
  {
    var tail := props[n..];
    assert mid[k][LINK] !in BatchLinks(tail) by {
      forall m | 0 <= m < |tail| ensures tail[m][LINK] != mid[k][LINK] {
        assert tail[m] == props[n + m];
      }
    }
    SaveUntouched(mid, tail, timestamp);
  }

  /** Saving one more dict of the batch is one more upsert. */
  lemma SaveLast(db: seq<Entry>, props: seq<Entry>, timestamp: string, n: int)
    requires Linked(db) && Linked(props) && 0 <= n < |props|
    ensures Save(db, props[..n + 1], timestamp) == Upsert(Save(db, props[..n], timestamp), props[n], timestamp)
  {
    assert props[..n + 1][..n] == props[..n];
  }

  /** A record with the link and none before it with the link is the one the search finds. */
  lemma FirstWithLink(store: seq<Entry>, link: Value, k: int)
    requires Linked(store) && 0 <= k < |store| && store[k][LINK] == link
    requires forall m :: 0 <= m < k ==> store[m][LINK] != link
    ensures FindLink(store, link) == Some(k)
  {
    assert store[k][LINK] in Links(store);
  }

  /**
   * Two dicts with one link, the first NEW and the second not: the save
   * merges the second into the first, so the caller's list no longer holds
   * a NEW property and `_detect_changes` on it counts none.
   */
  lemma DuplicateLinkRecount(p1: Entry, p2: Entry, timestamp: string)
    requires LINK in p1 && LINK in p2 && p1[LINK] == p2[LINK]
    requires HasStatus(p1, NEW) && STATUS in p2 && !HasStatus(p2, NEW)
    ensures var batch := SavedBatch([], [p1, p2], timestamp);
      && batch[0][STATUS] == p2[STATUS] && batch[1] == p2
      && CountStatus([p1, p2], NEW) == 1 && CountStatus(batch, NEW) == 0
  {
    var props := [p1, p2];
    var batch := SavedBatch([], props, timestamp);
    var first := Save([], [p1], timestamp);
    assert first == [Created(p1, timestamp)] by {
      SaveLast([], props, timestamp, 0);
      assert props[..1] == [p1] && props[..0] == [];
    }
    assert Save([], props, timestamp) == [Merged(first[0], p2, timestamp)] by {
      SaveLast([], props, timestamp, 1);
      assert props[..2] == props && props[..1] == [p1];
      FirstWithLink(first, p2[LINK], 0);
    }
    assert batch[0] == Merged(first[0], p2, timestamp) by {
      assert props[..0] == [];
      assert AliasOf([], props, timestamp, 0) == Some(0);
    }
    assert batch[1] == p2 by {
      assert props[..1] == [p1];
      assert AliasOf([], props, timestamp, 1) == None;
    }
    assert batch[0][STATUS] == p2[STATUS];
    assert CountStatus(batch, NEW) == 0 by {
      assert |batch| == 2 && batch[..|batch| - 1] == [batch[0]];
      assert !HasStatus(batch[0], NEW) && !HasStatus(batch[1], NEW);
      assert CountStatus([batch[0]], NEW) == 0 by {
        assert [batch[0]][..0] == [];
      }
    }
    assert CountStatus(props, NEW) == 1 by {
      assert props[..|props| - 1] == [p1];
      assert CountStatus([p1], NEW) == 1 by {
        assert [p1][..0] == [];
      }
    }
  }

  /**
   * The caller's dicts read back from a store: dict j is the record
   * `aliases[j]` names, when it names one, and is left as it was otherwise.
   */
  function Read(store: seq<Entry>, props: seq<Entry>, aliases: seq<Option<nat>>): (r: seq<Entry>)
    requires |aliases| == |props|
    requires forall j :: 0 <= j < |props| && aliases[j].Some? ==> aliases[j].value < |store|
    ensures |r| == |props|
    ensures forall j :: 0 <= j < |props| && aliases[j].None? ==> r[j] == props[j]
  {
    seq(|props|, j requires 0 <= j < |props| => match aliases[j] case Some(k) => store[k] case None => props[j])
  }

  /** Reading the batch back from the saved store gives the caller's list after the save. */
  lemma ReadIsSaved(db: seq<Entry>, props: seq<Entry>, timestamp: string)
    requires Linked(db) && Linked(props)
    ensures var aliases := Aliases(db, props, timestamp);
      && (forall j :: 0 <= j < |props| && aliases[j].Some? ==> aliases[j].value < |Save(db, props, timestamp)|)
      && Read(Save(db, props, timestamp), props, aliases) == SavedBatch(db, props, timestamp)
  {
    var aliases := Aliases(db, props, timestamp);
    forall j | 0 <= j < |props|
      ensures aliases[j].Some? ==> aliases[j].value < |Save(db, props, timestamp)|
    {
      AliasesAt(db, props, timestamp, j);
      AliasInStore(db, props, timestamp, j);
    }
    var read := Read(Save(db, props, timestamp), props, aliases);
    forall j | 0 <= j < |props| ensures read[j] == SavedBatch(db, props, timestamp)[j] {
      AliasesAt(db, props, timestamp, j);
      AliasInStore(db, props, timestamp, j);
    }
  }

  /** The read-back loop: each dict is looked up where it was appended, if it was. */
  method ReadBack(store: seq<Entry>, props: seq<Entry>, aliases: seq<Option<nat>>) returns (batch: seq<Entry>)
    requires |aliases| == |props|
    requires forall j :: 0 <= j < |props| && aliases[j].Some? ==> aliases[j].value < |store|
    ensures batch == Read(store, props, aliases)
  {
    batch := [];
    for j := 0 to |props|
      invariant |batch| == j
      invariant forall m :: 0 <= m < j ==> batch[m] == Read(store, props, aliases)[m]
    {
      match aliases[j] {
        case Some(index) => batch := batch + [store[index]];
        case None => batch := batch + [props[j]];
      }
    }
  }

  // ---------------------------------------------------------------- the scheduler

  /** `next_run`: a time, or the waiting message before the first run. */
  datatype NextRun = At(time: int) | Waiting(message: string)

  datatype Report = Report(isRunning: bool, lastRun: Option<int>, intervalHours: int, totalProperties: nat, nextRun: NextRun)

  class PropertyScheduler {
    var intervalHours: int
    var isRunning: bool
    var lastRun: Option<int>
    var propertiesDb: seq<Entry>

    /** Every stored record has a link, and no two share one. */
    ghost predicate Valid()
      reads this
    {
      Linked(propertiesDb) && Distinct(propertiesDb)
    }

    constructor (intervalHours: int)
      ensures Valid()
      ensures this.intervalHours == intervalHours && !isRunning && lastRun == None && propertiesDb == []
    {
      this.intervalHours := intervalHours;
      isRunning := false;
      lastRun := None;
      propertiesDb := [];
    }

    /** The generator search of `_save_to_database`: the first stored record with this link. */
    method FindExisting(link: Value) returns (found: Option<nat>)
      requires Linked(propertiesDb)
      ensures found == FindLink(propertiesDb, link)
    {
      var j := 0;
      while j < |propertiesDb|
        invariant 0 <= j <= |propertiesDb|
        invariant forall i :: 0 <= i < j ==> propertiesDb[i][LINK] != link
      {
        if propertiesDb[j][LINK] == link {
          assert link in Links(propertiesDb);
          return Some(j);
        }
        j := j + 1;
      }
      assert link !in Links(propertiesDb);
      return None;
    }

    /**
     * The loop of `_save_to_database`: each property is upserted in order,
     * and the first one without a title, once upserted, raises the KeyError
     * of its log line. `aliases[k]` is the store index property k was
     * appended at, None when it was merged.
     */
    method UpsertBatch(properties: seq<Entry>, timestamp: string) returns (handled: nat, aliases: seq<Option<nat>>, raised: bool)
      requires Linked(propertiesDb) && Linked(properties)
      modifies this
      ensures handled == Handled(properties)
      ensures raised <==> exists i :: 0 <= i < |properties| && TITLE !in properties[i]
      ensures propertiesDb == Save(old(propertiesDb), properties[..handled], timestamp)
      ensures aliases == Aliases(old(propertiesDb), properties[..handled], timestamp)
      ensures unchanged(this`intervalHours) && unchanged(this`isRunning) && unchanged(this`lastRun)
    {
      var db0 := propertiesDb;
      aliases := [];
      var k := 0;
      raised := false;
      ghost var first := FirstUntitled(properties);
      while k < |properties| && !raised
        invariant 0 <= k <= |properties|
        invariant !raised ==> k <= first
        invariant raised ==> k == first + 1
        invariant propertiesDb == Save(db0, properties[..k], timestamp)
        invariant aliases == Aliases(db0, properties[..k], timestamp)
        invariant unchanged(this`intervalHours) && unchanged(this`isRunning) && unchanged(this`lastRun)
      {
        var prop := properties[k];
        SaveStep(db0, properties, timestamp, k);
        ghost var before := propertiesDb;
        var existing := FindExisting(prop[LINK]);
        var alias: Option<nat> := if existing.Some? then None else Some(|propertiesDb|);
        if existing.Some? {
          var i := existing.value;
          propertiesDb := propertiesDb[i := Merged(propertiesDb[i], prop, timestamp)];
        } else {
          propertiesDb := propertiesDb + [Created(prop, timestamp)];
        }
        assert propertiesDb == Upsert(before, prop, timestamp);
        aliases := aliases + [alias];
        raised := TITLE !in prop;
        k := k + 1;
      }
      HandledAt(properties, k, raised);
      handled := k;
    }

    /**
     * `_save_to_database`: the store after the upserts, and the caller's
     * list as the method leaves it (`SavedBatch` of the handled properties,
     * the rest untouched); `raised` is the KeyError of a property without a
     * title.
     */
    method SaveToDatabase(properties: seq<Entry>, timestamp: string) returns (batch: seq<Entry>, raised: bool)
      requires Valid() && Linked(properties)
      modifies this
      ensures Valid()
      ensures raised <==> exists i :: 0 <= i < |properties| && TITLE !in properties[i]
      ensures var done := properties[..Handled(properties)];
        && propertiesDb == Save(old(propertiesDb), done, timestamp)
        && batch == SavedBatch(old(propertiesDb), done, timestamp) + properties[Handled(properties)..]
        && |propertiesDb| == |old(propertiesDb)| + |BatchLinks(done) - Links(old(propertiesDb))|
      ensures unchanged(this`intervalHours) && unchanged(this`isRunning) && unchanged(this`lastRun)
    {
      var db0 := propertiesDb;
      var handled, aliases;
      handled, aliases, raised := UpsertBatch(properties, timestamp);
      var done := properties[..handled];
      SaveKeepsDistinct(db0, done, timestamp);
      ReadIsSaved(db0, done, timestamp);
      batch := ReadBack(propertiesDb, done, aliases);
      batch := batch + properties[handled..];
    }

    /** `stop()`: the loop is told to end; nothing else changes. */
    method Stop()
      modifies this
      ensures !isRunning
      ensures intervalHours == old(intervalHours) && lastRun == old(lastRun) && propertiesDb == old(propertiesDb)
    {
      isRunning := false;
    }

    /** `get_status()`: the next run is one interval after the last, or the waiting message before any. */
    function Status(): (r: Report)
      reads this
      ensures r.isRunning == isRunning && r.lastRun == lastRun && r.intervalHours == intervalHours
      ensures r.totalProperties == |propertiesDb|
      ensures r.nextRun.At? <==> lastRun.Some?
      ensures r.nextRun.At? ==> r.nextRun.time - lastRun.value == intervalHours * SECONDS_PER_HOUR
      ensures r.nextRun.Waiting? ==> r.nextRun.message == WAITING
    {
      Report(isRunning, lastRun, intervalHours, |propertiesDb|,
        if lastRun.Some? then At(lastRun.value + intervalHours * SECONDS_PER_HOUR) else Waiting(WAITING))
    }
  }
}
