/**
 * The deterministic parts of the backend wrapper: the client-side
 * aggregation loops of the admin analytics and the storage path of an
 * uploaded document. The queries themselves are backend calls; their
 * replies come in as parameters.
 */
module Api {
  import opened Wrappers
  import opened Text
  import opened Schema

  /** One `{ key, count }` entry of an aggregation. */
  datatype Tally = Tally(key: string, count: nat)

  predicate Distinct(s: seq<string>) {
    forall a, b :: 0 <= a < b < |s| ==> s[a] != s[b]
  }

  function KeysOf(entries: seq<Tally>): (keys: seq<string>)
    ensures |keys| == |entries|
    ensures forall j :: 0 <= j < |entries| ==> keys[j] == entries[j].key
  {
    seq(|entries|, j requires 0 <= j < |entries| => entries[j].key)
  }

  function Total(entries: seq<Tally>): nat {
    if entries == [] then 0 else entries[0].count + Total(entries[1..])
  }

  /**
   * `Object.entries(counts)` for an object whose keys were created in the
   * order `order`.
   */
  function Entries(order: seq<string>, counts: map<string, nat>): (r: seq<Tally>)
    requires forall k :: k in order ==> k in counts
    ensures |r| == |order|
    ensures forall j :: 0 <= j < |order| ==> r[j] == Tally(order[j], counts[order[j]])
  {
    seq(|order|, j requires 0 <= j < |order| => Tally(order[j], counts[order[j]]))
  }

  lemma {:induction false} TotalAppend(entries: seq<Tally>, t: Tally)
    ensures Total(entries + [t]) == Total(entries) + t.count
  {
    if entries != [] {
      assert (entries + [t])[1..] == entries[1..] + [t];
      TotalAppend(entries[1..], t);
    }
  }

  lemma {:induction false} TotalIncrement(entries: seq<Tally>, j: nat)
    requires j < |entries|
    ensures Total(entries[j := Tally(entries[j].key, entries[j].count + 1)]) == Total(entries) + 1
  {
    var bumped := entries[j := Tally(entries[j].key, entries[j].count + 1)];
    if j > 0 {
      assert bumped[1..] == entries[1..][j - 1 := Tally(entries[j].key, entries[j].count + 1)];
      TotalIncrement(entries[1..], j - 1);
    } else {
      assert bumped[1..] == entries[1..];
    }
  }

  /**
   * What the loop has built after the first `i` rows: the keys in creation
   * order, each once, with their counts so far, summing to `i`.
   */
  ghost predicate CountedPrefix(keys: seq<string>, i: nat, order: seq<string>, counts: map<string, nat>)
    requires i <= |keys|
  {
    && Distinct(order)
    && (forall k :: k in order <==> k in counts)
    && (forall k :: k in counts <==> k in keys[..i])
    && (forall k :: k in counts ==> counts[k] == multiset(keys[..i])[k])
    && Total(Entries(order, counts)) == i
  }

  /** Before the first row nothing is counted. */
  lemma CountedPrefixStart(keys: seq<string>)
    ensures CountedPrefix(keys, 0, [], map[])
  {
    assert Entries([], map[]) == [];
  }

  /** Incrementing the counter of a key already present raises the total by one. */
  lemma TotalAfterBump(order: seq<string>, counts: map<string, nat>, key: string)
    requires Distinct(order) && (forall k :: k in order ==> k in counts) && key in order
    ensures Total(Entries(order, counts[key := counts[key] + 1])) == Total(Entries(order, counts)) + 1
  {
    var j :| 0 <= j < |order| && order[j] == key;
    var before := Entries(order, counts);
    assert Entries(order, counts[key := counts[key] + 1]) == before[j := Tally(key, counts[key] + 1)];
    TotalIncrement(before, j);
  }

  /** Counting one more row keeps the counted keys equal to the keys seen. */
  lemma SeenKeysStep(keys: seq<string>, i: nat, counts: map<string, nat>, updated: map<string, nat>)
    requires i < |keys| && forall k :: k in counts <==> k in keys[..i]
    requires updated.Keys == counts.Keys + {keys[i]}
    ensures forall k :: k in updated <==> k in keys[..i + 1]
  {
    assert keys[..i + 1] == keys[..i] + [keys[i]];
  }

  /** Counting one more row keeps each counter equal to its number of occurrences. */
  lemma OccurrencesStep(keys: seq<string>, i: nat, counts: map<string, nat>, updated: map<string, nat>)
    requires i < |keys| && forall k :: k in counts <==> k in keys[..i]
    requires forall k :: k in counts ==> counts[k] == multiset(keys[..i])[k]
    requires updated == counts[keys[i] := if keys[i] in counts then counts[keys[i]] + 1 else 1]
    ensures forall k :: k in updated ==> updated[k] == multiset(keys[..i + 1])[k]
  {
    assert keys[..i + 1] == keys[..i] + [keys[i]];
    assert multiset(keys[..i + 1]) == multiset(keys[..i]) + multiset{keys[i]};
  }

  /** The loop body for a key already counted: its counter goes up by one. */
  lemma CountExistingKey(keys: seq<string>, i: nat, order: seq<string>, counts: map<string, nat>)
    requires i < |keys| && CountedPrefix(keys, i, order, counts) && keys[i] in counts
    ensures CountedPrefix(keys, i + 1, order, counts[keys[i] := counts[keys[i]] + 1])
  {
    SeenKeysStep(keys, i, counts, counts[keys[i] := counts[keys[i]] + 1]);
    OccurrencesStep(keys, i, counts, counts[keys[i] := counts[keys[i]] + 1]);
    TotalAfterBump(order, counts, keys[i]);
  }

  /** The loop body for a new key: it is appended with count 1. */
  lemma CountNewKey(keys: seq<string>, i: nat, order: seq<string>, counts: map<string, nat>)
    requires i < |keys| && CountedPrefix(keys, i, order, counts) && keys[i] !in counts
    ensures CountedPrefix(keys, i + 1, order + [keys[i]], counts[keys[i] := 1])
  {
    SeenKeysStep(keys, i, counts, counts[keys[i] := 1]);
    OccurrencesStep(keys, i, counts, counts[keys[i] := 1]);
    TotalAfterAdd(order, counts, keys[i]);
  }

  /** Adding a new key with count 1 raises the total by one. */
  lemma TotalAfterAdd(order: seq<string>, counts: map<string, nat>, key: string)
    requires (forall k :: k in order ==> k in counts) && key !in counts
    ensures Total(Entries(order + [key], counts[key := 1])) == Total(Entries(order, counts)) + 1
  {
    assert Entries(order + [key], counts[key := 1]) == Entries(order, counts) + [Tally(key, 1)];
    TotalAppend(Entries(order, counts), Tally(key, 1));
  }

  /** After the last row, the entries are a tally of all the keys. */
  lemma CountedAll(keys: seq<string>, order: seq<string>, counts: map<string, nat>)
    requires CountedPrefix(keys, |keys|, order, counts)
    ensures Distinct(KeysOf(Entries(order, counts)))
    ensures forall k :: k in KeysOf(Entries(order, counts)) <==> k in keys
    ensures forall j :: 0 <= j < |order| ==> Entries(order, counts)[j].count == multiset(keys)[Entries(order, counts)[j].key]
    ensures Total(Entries(order, counts)) == |keys|
  {
    assert keys[..|keys|] == keys;
    assert KeysOf(Entries(order, counts)) == order;
  }

  /**
   * What the aggregation loops promise about their output for the keys
   * derived from the fetched rows: each key appears once, exactly the keys
   * of the rows appear, each count is the number of rows with that key, and
   * the counts add up to the number of rows.
   */
  ghost predicate IsTallyOf(entries: seq<Tally>, keys: seq<string>) {
    && Distinct(KeysOf(entries))
    && (forall k :: k in KeysOf(entries) <==> k in keys)
    && (forall j :: 0 <= j < |entries| ==> entries[j].count == multiset(keys)[entries[j].key])
    && Total(entries) == |keys|
  }

  /**
   * The loop shared by `byLocation` and `waitlistByProgram`:
   * `counts[key] = (counts[key] ?? 0) + 1` for each row, then
   * `Object.entries(counts)`.
   */
  method CountBy(keys: seq<string>) returns (entries: seq<Tally>)
    ensures Distinct(KeysOf(entries))
    ensures forall k :: k in KeysOf(entries) <==> k in keys
    ensures forall j :: 0 <= j < |entries| ==> entries[j].count == multiset(keys)[entries[j].key]
    ensures Total(entries) == |keys|
  {
    var order: seq<string> := [];
    var counts: map<string, nat> := map[];
    CountedPrefixStart(keys);
    for i := 0 to |keys|
      invariant CountedPrefix(keys, i, order, counts)
    {
      var key := keys[i];
      if key in counts {
        CountExistingKey(keys, i, order, counts);
        counts := counts[key := counts[key] + 1];
      } else {
        CountNewKey(keys, i, order, counts);
        order := order + [key];
        counts := counts[key := 1];
      }
    }
    CountedAll(keys, order, counts);
    entries := Entries(order, counts);
  }

  /**
   * The key of each fetched row, `row ?? dflt`: byLocation keys a row without
   * a joined location as "Unknown", waitlistByProgram a row without a program
   * name as "No Program".
   */
  function KeysOrDefault(rows: seq<Option<string>>, dflt: string): (keys: seq<string>)
    ensures |keys| == |rows|
    ensures forall i :: 0 <= i < |rows| ==> (rows[i].Some? ==> keys[i] == rows[i].value) && (rows[i].None? ==> keys[i] == dflt)
  {
    seq(|rows|, i requires 0 <= i < |rows| => rows[i].GetOr(dflt))
  }

  /**
   * analytics.byLocation. Each fetched row is the joined unit's location,
   * None when the application has no unit or the unit no location; `data`
   * itself may be null. A query error is rethrown.
   */
  method ByLocation(fetched: Result<Option<seq<Option<string>>>, string>) returns (r: Result<seq<Tally>, string>)
    ensures fetched.Failure? ==> r == Failure(fetched.error)
    ensures fetched.Success? ==> r.Success? && IsTallyOf(r.value, KeysOrDefault(fetched.value.GetOr([]), "Unknown"))
    ensures fetched.Success? && (exists i :: 0 <= i < |fetched.value.GetOr([])| && fetched.value.GetOr([])[i].None?)
      ==> r.Success? && "Unknown" in KeysOf(r.value)
  {
    if fetched.Failure? {
      return Failure(fetched.error);
    }
    var rows := fetched.value.GetOr([]);
    var keys := KeysOrDefault(rows, "Unknown");
    var entries := CountBy(keys);
    r := Success(entries);
    if exists i :: 0 <= i < |rows| && rows[i].None? {
      var i :| 0 <= i < |rows| && rows[i].None?;
      assert keys[i] == "Unknown";
    }
  }

  /** analytics.waitlistByProgram: rows are the joined program names of the waitlisted applications. */
  method WaitlistByProgram(fetched: Result<Option<seq<Option<string>>>, string>) returns (r: Result<seq<Tally>, string>)
    ensures fetched.Failure? ==> r == Failure(fetched.error)
    ensures fetched.Success? ==> r.Success? && IsTallyOf(r.value, KeysOrDefault(fetched.value.GetOr([]), "No Program"))
    ensures fetched.Success? && (exists i :: 0 <= i < |fetched.value.GetOr([])| && fetched.value.GetOr([])[i].None?)
      ==> r.Success? && "No Program" in KeysOf(r.value)
  {
    if fetched.Failure? {
      return Failure(fetched.error);
    }
    var rows := fetched.value.GetOr([]);
    var keys := KeysOrDefault(rows, "No Program");
    var entries := CountBy(keys);
    r := Success(entries);
    if exists i :: 0 <= i < |rows| && rows[i].None? {
      var i :| 0 <= i < |rows| && rows[i].None?;
      assert keys[i] == "No Program";
    }
  }

  // ── unitsByRegion ──────────────────────────────────────────────

  /** A fetched `location, availability_status` row. */
  datatype UnitRow = UnitRow(location: string, status: AvailabilityStatus)

  datatype StatusCounts = StatusCounts(available: nat, occupied: nat, reserved: nat)

  /** `{ location, ...counts }` */
  datatype RegionEntry = RegionEntry(location: string, available: nat, occupied: nat, reserved: nat)

  /** `map[u.location][u.availability_status]++` */
  function Increment(c: StatusCounts, s: AvailabilityStatus): StatusCounts {
    match s
    case Available => c.(available := c.available + 1)
    case Occupied => c.(occupied := c.occupied + 1)
    case Reserved => c.(reserved := c.reserved + 1)
  }

  /** Number of units at a location, whatever their status. */
  function CountAt(units: seq<UnitRow>, location: string): nat {
    if units == [] then 0
    else (if units[0].location == location then 1 else 0) + CountAt(units[1..], location)
  }

  /** The units at a location split by status into the three counters. */
  lemma {:induction false} CountAtSplitsByStatus(units: seq<UnitRow>, location: string)
    ensures CountAt(units, location)
         == multiset(units)[UnitRow(location, Available)]
          + multiset(units)[UnitRow(location, Occupied)]
          + multiset(units)[UnitRow(location, Reserved)]
  {
    if units != [] {
      var u, rest := units[0], units[1..];
      assert units == [u] + rest;
      CountAtSplitsByStatus(rest, location);
      forall s: AvailabilityStatus
        ensures multiset(units)[UnitRow(location, s)]
             == (if u == UnitRow(location, s) then 1 else 0) + multiset(rest)[UnitRow(location, s)]
      {
        assert multiset(units) == multiset{u} + multiset(rest);
      }
      assert u == UnitRow(u.location, u.status);
      assert CountAt(units, location) == (if u.location == location then 1 else 0) + CountAt(rest, location);
      if u.location == location {
        match u.status
        case Available => assert u == UnitRow(location, Available);
        case Occupied => assert u == UnitRow(location, Occupied);
        case Reserved => assert u == UnitRow(location, Reserved);
      }
    }
  }

  function UnitLocations(units: seq<UnitRow>): (locations: seq<string>)
    ensures |locations| == |units|
    ensures forall i :: 0 <= i < |units| ==> locations[i] == units[i].location
  {
    seq(|units|, i requires 0 <= i < |units| => units[i].location)
  }

  function RegionLocations(entries: seq<RegionEntry>): (locations: seq<string>)
    ensures |locations| == |entries|
    ensures forall j :: 0 <= j < |entries| ==> locations[j] == entries[j].location
  {
    seq(|entries|, j requires 0 <= j < |entries| => entries[j].location)
  }

  function RegionEntries(order: seq<string>, counts: map<string, StatusCounts>): (r: seq<RegionEntry>)
    requires forall k :: k in order ==> k in counts
    ensures |r| == |order|
    ensures forall j :: 0 <= j < |order| ==>
      r[j] == RegionEntry(order[j], counts[order[j]].available, counts[order[j]].occupied, counts[order[j]].reserved)
  {
    seq(|order|, j requires 0 <= j < |order| =>
      RegionEntry(order[j], counts[order[j]].available, counts[order[j]].occupied, counts[order[j]].reserved))
  }

  /** The counters of a location in a set of units. */
  function CountsIn(units: seq<UnitRow>, location: string): StatusCounts {
    StatusCounts(
      multiset(units)[UnitRow(location, Available)],
      multiset(units)[UnitRow(location, Occupied)],
      multiset(units)[UnitRow(location, Reserved)])
  }

  /** Adding one unit increments the counter of its status at its location and nothing else. */
  lemma CountsInAppend(units: seq<UnitRow>, u: UnitRow, location: string)
    ensures CountsIn(units + [u], location)
         == if location == u.location then Increment(CountsIn(units, location), u.status) else CountsIn(units, location)
  {
    assert multiset(units + [u]) == multiset(units) + multiset{u};
    assert u == UnitRow(u.location, u.status);
  }

  /** A location no unit has has all three counters at zero. */
  lemma CountsInAbsent(units: seq<UnitRow>, location: string)
    requires location !in UnitLocations(units)
    ensures CountsIn(units, location) == StatusCounts(0, 0, 0)
  {
  }

  /** The loop state after the first i units: each location seen has the counters of its units so far. */
  ghost predicate RegionsCounted(units: seq<UnitRow>, i: nat, order: seq<string>, counts: map<string, StatusCounts>)
    requires i <= |units|
  {
    && Distinct(order)
    && (forall l :: l in order <==> l in counts)
    && (forall l :: l in counts <==> l in UnitLocations(units[..i]))
    && (forall l :: l in counts ==> counts[l] == CountsIn(units[..i], l))
  }

  /** Counting one more unit keeps the locations counted equal to the locations seen. */
  lemma RegionKeysStep(units: seq<UnitRow>, i: nat, counts: map<string, StatusCounts>, updated: map<string, StatusCounts>)
    requires i < |units| && forall l :: l in counts <==> l in UnitLocations(units[..i])
    requires updated.Keys == counts.Keys + {units[i].location}
    ensures forall l :: l in updated <==> l in UnitLocations(units[..i + 1])
  {
    assert units[..i + 1] == units[..i] + [units[i]];
    assert UnitLocations(units[..i + 1]) == UnitLocations(units[..i]) + [units[i].location];
  }

  /** Counting one more unit keeps each location's counters equal to those of its units so far. */
  lemma RegionCountsStep(units: seq<UnitRow>, i: nat, counts: map<string, StatusCounts>, updated: map<string, StatusCounts>)
    requires i < |units| && forall l :: l in counts ==> counts[l] == CountsIn(units[..i], l)
    requires updated == counts[units[i].location := Increment(CountsIn(units[..i], units[i].location), units[i].status)]
    ensures forall l :: l in updated ==> updated[l] == CountsIn(units[..i + 1], l)
  {
    var u := units[i];
    assert units[..i + 1] == units[..i] + [u];
    forall l | l in updated ensures updated[l] == CountsIn(units[..i + 1], l) {
      CountsInAppend(units[..i], u, l);
    }
  }

  /** The loop body for a location already seen: the counter of the unit's status goes up. */
  lemma RegionSeenStep(units: seq<UnitRow>, i: nat, order: seq<string>, counts: map<string, StatusCounts>)
    requires i < |units| && RegionsCounted(units, i, order, counts) && units[i].location in counts
    ensures RegionsCounted(units, i + 1, order,
      counts[units[i].location := Increment(counts[units[i].location], units[i].status)])
  {
    var u := units[i];
    var updated := counts[u.location := Increment(counts[u.location], u.status)];
    RegionKeysStep(units, i, counts, updated);
    RegionCountsStep(units, i, counts, updated);
  }

  /** The loop body for a new location: it is appended with zero counters, then incremented. */
  lemma RegionNewStep(units: seq<UnitRow>, i: nat, order: seq<string>, counts: map<string, StatusCounts>)
    requires i < |units| && RegionsCounted(units, i, order, counts) && units[i].location !in counts
    ensures RegionsCounted(units, i + 1, order + [units[i].location],
      counts[units[i].location := Increment(StatusCounts(0, 0, 0), units[i].status)])
  {
    var u := units[i];
    var updated := counts[u.location := Increment(StatusCounts(0, 0, 0), u.status)];
    CountsInAbsent(units[..i], u.location);
    RegionKeysStep(units, i, counts, updated);
    RegionCountsStep(units, i, counts, updated);
  }

  /**
   * The loop of analytics.unitsByRegion: a location's counters start at
   * zero when it is first seen, and each unit increments the counter of its
   * own status at its own location.
   */
  method TallyRegions(units: seq<UnitRow>) returns (entries: seq<RegionEntry>)
    ensures Distinct(RegionLocations(entries))
    ensures forall l :: l in RegionLocations(entries) <==> l in UnitLocations(units)
    ensures forall j :: 0 <= j < |entries| ==>
      && entries[j].available == multiset(units)[UnitRow(entries[j].location, Available)]
      && entries[j].occupied == multiset(units)[UnitRow(entries[j].location, Occupied)]
      && entries[j].reserved == multiset(units)[UnitRow(entries[j].location, Reserved)]
    ensures forall j :: 0 <= j < |entries| ==>
      entries[j].available + entries[j].occupied + entries[j].reserved == CountAt(units, entries[j].location)
  {
    var order: seq<string> := [];
    var counts: map<string, StatusCounts> := map[];
    for i := 0 to |units|
      invariant RegionsCounted(units, i, order, counts)
    {
      var u := units[i];
      if u.location in counts {
        RegionSeenStep(units, i, order, counts);
        counts := counts[u.location := Increment(counts[u.location], u.status)];
      } else {
        RegionNewStep(units, i, order, counts);
        order := order + [u.location];
        counts := counts[u.location := Increment(StatusCounts(0, 0, 0), u.status)];
      }
    }
    assert units[..|units|] == units;
    entries := RegionEntries(order, counts);
    forall j | 0 <= j < |entries|
      ensures entries[j].available + entries[j].occupied + entries[j].reserved == CountAt(units, entries[j].location)
    {
      CountAtSplitsByStatus(units, entries[j].location);
    }
  }

  /**
   * What unitsByRegion promises about its output for the fetched units: one
   * entry per distinct location, exactly the units' locations, each counter
   * the number of that location's units with that status, and the three
   * counters adding up to the location's number of units.
   */
  ghost predicate IsRegionTallyOf(entries: seq<RegionEntry>, units: seq<UnitRow>) {
    && Distinct(RegionLocations(entries))
    && (forall l :: l in RegionLocations(entries) <==> l in UnitLocations(units))
    && (forall j :: 0 <= j < |entries| ==>
      && entries[j].available == multiset(units)[UnitRow(entries[j].location, Available)]
      && entries[j].occupied == multiset(units)[UnitRow(entries[j].location, Occupied)]
      && entries[j].reserved == multiset(units)[UnitRow(entries[j].location, Reserved)])
    && (forall j :: 0 <= j < |entries| ==>
      entries[j].available + entries[j].occupied + entries[j].reserved == CountAt(units, entries[j].location))
  }

  /** analytics.unitsByRegion: a query error is rethrown; a null `data` gives no entries. */
  method UnitsByRegion(fetched: Result<Option<seq<UnitRow>>, string>) returns (r: Result<seq<RegionEntry>, string>)
    ensures fetched.Failure? ==> r == Failure(fetched.error)
    ensures fetched.Success? ==> r.Success? && IsRegionTallyOf(r.value, fetched.value.GetOr([]))
    ensures fetched.Success? && fetched.value.None? ==> r == Success([])
  {
    if fetched.Failure? {
      return Failure(fetched.error);
    }
    var entries := TallyRegions(fetched.value.GetOr([]));
    r := Success(entries);
    if fetched.value.None? {
      NoUnitsNoRegions(entries);
    }
  }

  /** Without units there are no regions. */
  lemma NoUnitsNoRegions(entries: seq<RegionEntry>)
    requires IsRegionTallyOf(entries, [])
    ensures entries == []
  {
    var locations := RegionLocations(entries);
    forall l ensures multiset(locations)[l] == 0 {
      assert l !in UnitLocations([]);
    }
    assert multiset(locations) == multiset{};
  }

  // ── documents.upload ───────────────────────────────────────────

  /** `${userId}/${documentType}_${timestamp}.`, the part of a document path before the extension. */
  function DocumentPathPrefix(userId: string, documentType: DocumentType, timestamp: nat): string {
    userId + "/" + DocumentTypeName(documentType) + "_" + NatToString(timestamp) + "."
  }

  /**
   * The storage path `${userId}/${documentType}_${Date.now()}.${ext}` of an
   * uploaded document, with `ext = file.name.split('.').pop()`; the clock
   * reading is a parameter.
   */
  function DocumentPath(userId: string, documentType: DocumentType, timestamp: nat, fileName: string): (path: string)
    ensures exists ext :: IsExtensionOf(fileName, ext) && path == DocumentPathPrefix(userId, documentType, timestamp) + ext
    ensures '.' !in fileName ==> path == DocumentPathPrefix(userId, documentType, timestamp) + fileName
  {
    var ext := AfterLastDot(fileName);
    AfterLastDotIsExtension(fileName, ext);
    DocumentPathPrefix(userId, documentType, timestamp) + ext
  }
}
