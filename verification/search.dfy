/** The medicine search handler (`GET /api/medicines/search`): it rejects a
    missing or blank query and otherwise folds the matching donations, newest
    first, into one availability summary per lower-cased medicine name.

    The records that match the query are an input: selecting them (a
    case-insensitive regular expression run by the database) and ordering
    them newest first happen outside this model. */
module Search {
  import opened Text
  import opened Records

  /** One entry of the response's `medicines` array. */
  datatype MedicineSummary = MedicineSummary(
    name: string,
    quantity: int,
    expiry: ExpiryDate,
    available: bool)

  datatype SearchError = QueryRequired

  /** The JSON body of a successful search. */
  datatype SearchResponse = SearchResponse(success: bool, count: nat, medicines: seq<MedicineSummary>)

  /** The key under which donations are grouped: the medicine name, lower-cased. */
  function Key(medicine: string): string {
    ToLower(medicine)
  }

  // ---------------------------------------------------------------------------
  // The fold, as a specification: one step per donation, in input order.
  // ---------------------------------------------------------------------------

  /** Position of the summary whose key is `k`, or `|out|` when there is none. */
  function IndexOfKey(out: seq<MedicineSummary>, k: string): (i: nat)
    ensures i <= |out|
    ensures i < |out| ==> Key(out[i].name) == k
    ensures forall j :: 0 <= j < i ==> Key(out[j].name) != k
  {
    if out == [] then 0
    else if Key(out[0].name) == k then 0
    else 1 + IndexOfKey(out[1..], k)
  }

  /** A first donation under a new key opens a summary carrying its own name,
      quantity and expiry. */
  function Open(d: Donation): MedicineSummary {
    MedicineSummary(d.medicine, d.quantity, d.expiry, true)
  }

  /** A further donation under an existing key adds its quantity and replaces
      the expiry only when its date is strictly later. */
  function Absorb(e: MedicineSummary, d: Donation): MedicineSummary {
    e.(quantity := e.quantity + d.quantity,
       expiry := if d.expiry.day > e.expiry.day then d.expiry else e.expiry)
  }

  function Merge(out: seq<MedicineSummary>, d: Donation): seq<MedicineSummary> {
    var i := IndexOfKey(out, Key(d.medicine));
    if i < |out| then out[i := Absorb(out[i], d)] else out + [Open(d)]
  }

  /** The summaries the handler builds from `ds`, in the order of its map. */
  function Aggregate(ds: seq<Donation>): seq<MedicineSummary> {
    if ds == [] then [] else Merge(Aggregate(ds[..|ds| - 1]), ds[|ds| - 1])
  }

  // ---------------------------------------------------------------------------
  // What a summary means, stated over the whole input.
  // ---------------------------------------------------------------------------

  /** Index of the first donation whose key is `k`, or `|ds|` when there is none. */
  function FirstOccurrence(ds: seq<Donation>, k: string): (f: nat)
    ensures f <= |ds|
    ensures f < |ds| ==> Key(ds[f].medicine) == k
    ensures forall j :: 0 <= j < f ==> Key(ds[j].medicine) != k
  {
    if ds == [] then 0
    else
      var f := FirstOccurrence(ds[..|ds| - 1], k);
      if f < |ds| - 1 || Key(ds[|ds| - 1].medicine) == k then f else |ds|
  }

  /** Total quantity of the donations whose key is `k`. */
  function GroupQuantity(ds: seq<Donation>, k: string): int {
    if ds == [] then 0
    else
      var d := ds[|ds| - 1];
      GroupQuantity(ds[..|ds| - 1], k) + if Key(d.medicine) == k then d.quantity else 0
  }

  /** Index of the earliest donation with key `k` whose expiry day is the
      latest in that group, or `|ds|` when the group is empty. */
  function LatestIndex(ds: seq<Donation>, k: string): (l: nat)
    ensures l <= |ds|
    ensures l == |ds| <==> forall j :: 0 <= j < |ds| ==> Key(ds[j].medicine) != k
    ensures l < |ds| ==> Key(ds[l].medicine) == k
    ensures l < |ds| ==> forall j :: 0 <= j < |ds| && Key(ds[j].medicine) == k ==> ds[j].expiry.day <= ds[l].expiry.day
    ensures l < |ds| ==> forall j :: 0 <= j < l && Key(ds[j].medicine) == k ==> ds[j].expiry.day < ds[l].expiry.day
  {
    if ds == [] then 0
    else
      var p, d := ds[..|ds| - 1], ds[|ds| - 1];
      var l := LatestIndex(p, k);
      if Key(d.medicine) != k then (if l < |p| then l else |ds|)
      else if l < |p| && d.expiry.day <= p[l].expiry.day then l
      else |ds| - 1
  }

  ghost predicate KeysDistinct(out: seq<MedicineSummary>) {
    forall i, j :: 0 <= i < j < |out| ==> Key(out[i].name) != Key(out[j].name)
  }

  ghost predicate AllAvailable(out: seq<MedicineSummary>) {
    forall i :: 0 <= i < |out| ==> out[i].available
  }

  ghost predicate HasKey(out: seq<MedicineSummary>, k: string) {
    exists i :: 0 <= i < |out| && Key(out[i].name) == k
  }

  /** Every donation's medicine has a summary. */
  ghost predicate CoversEveryDonation(ds: seq<Donation>, out: seq<MedicineSummary>) {
    forall j :: 0 <= j < |ds| ==> HasKey(out, Key(ds[j].medicine))
  }

  /** Every summary is named after the first donation of its group. */
  ghost predicate NamedAfterFirst(ds: seq<Donation>, out: seq<MedicineSummary>) {
    forall i :: 0 <= i < |out| ==>
      var f := FirstOccurrence(ds, Key(out[i].name));
      f < |ds| && out[i].name == ds[f].medicine
  }

  /** Summaries appear in the order their groups first occur in the input. */
  ghost predicate InFirstOccurrenceOrder(ds: seq<Donation>, out: seq<MedicineSummary>) {
    forall i, j :: 0 <= i < j < |out| ==>
      FirstOccurrence(ds, Key(out[i].name)) < FirstOccurrence(ds, Key(out[j].name))
  }

  ghost predicate QuantitiesSummed(ds: seq<Donation>, out: seq<MedicineSummary>) {
    forall i :: 0 <= i < |out| ==> out[i].quantity == GroupQuantity(ds, Key(out[i].name))
  }

  ghost predicate ExpiriesLatest(ds: seq<Donation>, out: seq<MedicineSummary>) {
    forall i :: 0 <= i < |out| ==>
      var l := LatestIndex(ds, Key(out[i].name));
      l < |ds| && out[i].expiry == ds[l].expiry
  }

  /** `out` is a correct search result for the donations `ds`. */
  ghost predicate Summarises(ds: seq<Donation>, out: seq<MedicineSummary>) {
    && KeysDistinct(out)
    && AllAvailable(out)
    && CoversEveryDonation(ds, out)
    && NamedAfterFirst(ds, out)
    && InFirstOccurrenceOrder(ds, out)
    && QuantitiesSummed(ds, out)
    && ExpiriesLatest(ds, out)
  }

  /** The whole-input functions, one donation longer. */
  lemma SnocUnfold(ds: seq<Donation>, d: Donation, k: string)
    ensures var f := FirstOccurrence(ds, k);
      FirstOccurrence(ds + [d], k) == if f < |ds| || Key(d.medicine) == k then f else |ds| + 1
    ensures GroupQuantity(ds + [d], k) == GroupQuantity(ds, k) + if Key(d.medicine) == k then d.quantity else 0
    ensures var l := LatestIndex(ds, k);
      LatestIndex(ds + [d], k) ==
        if Key(d.medicine) != k then (if l < |ds| then l else |ds| + 1)
        else if l < |ds| && d.expiry.day <= ds[l].expiry.day then l
        else |ds|
  {
    assert (ds + [d])[..|ds|] == ds;
  }

  /** A group with no donation sums to nothing. */
  lemma {:induction false} EmptyGroupQuantity(ds: seq<Donation>, k: string)
    requires forall j :: 0 <= j < |ds| ==> Key(ds[j].medicine) != k
    ensures GroupQuantity(ds, k) == 0
  {
    if ds != [] {
      EmptyGroupQuantity(ds[..|ds| - 1], k);
    }
  }

  /** Donations appended after a group's first member leave its first
      occurrence where it was. */
  lemma FirstOccurrenceStable(ds: seq<Donation>, d: Donation, k: string)
    requires FirstOccurrence(ds, k) < |ds|
    ensures FirstOccurrence(ds + [d], k) == FirstOccurrence(ds, k)
  {
    SnocUnfold(ds, d, k);
  }

  /** A key with no summary belongs to no donation seen so far. */
  lemma AbsentKey(ds: seq<Donation>, out: seq<MedicineSummary>, k: string)
    requires CoversEveryDonation(ds, out)
    requires IndexOfKey(out, k) == |out|
    ensures forall j :: 0 <= j < |ds| ==> Key(ds[j].medicine) != k
  {
    forall j | 0 <= j < |ds| ensures Key(ds[j].medicine) != k {
      assert HasKey(out, Key(ds[j].medicine));
    }
  }

  /** Every summary's group already has a first donation. */
  lemma SummaryGroupsOccur(ds: seq<Donation>, out: seq<MedicineSummary>)
    requires NamedAfterFirst(ds, out)
    ensures forall j :: 0 <= j < |out| ==> FirstOccurrence(ds, Key(out[j].name)) < |ds|
  {
  }

  lemma MergeKeysDistinct(out: seq<MedicineSummary>, d: Donation)
    requires KeysDistinct(out)
    ensures KeysDistinct(Merge(out, d))
  {
    var k, out' := Key(d.medicine), Merge(out, d);
    if IndexOfKey(out, k) == |out| {
      assert Key(out'[|out|].name) == k;
    }
  }

  lemma MergeAvailable(out: seq<MedicineSummary>, d: Donation)
    requires AllAvailable(out)
    ensures AllAvailable(Merge(out, d))
  {
  }

  lemma MergeCovers(ds: seq<Donation>, out: seq<MedicineSummary>, d: Donation)
    requires CoversEveryDonation(ds, out)
    ensures CoversEveryDonation(ds + [d], Merge(out, d))
  {
    var ds', k, out' := ds + [d], Key(d.medicine), Merge(out, d);
    var i := IndexOfKey(out, k);
    forall j | 0 <= j < |ds'| ensures HasKey(out', Key(ds'[j].medicine)) {
      if j < |ds| {
        assert ds'[j] == ds[j];
        assert HasKey(out, Key(ds[j].medicine));
        var w :| 0 <= w < |out| && Key(out[w].name) == Key(ds[j].medicine);
        assert out'[w].name == out[w].name;
      } else if i < |out| {
        assert Key(out'[i].name) == Key(ds'[j].medicine);
      } else {
        assert Key(out'[|out|].name) == Key(ds'[j].medicine);
      }
    }
  }

  lemma MergeNamed(ds: seq<Donation>, out: seq<MedicineSummary>, d: Donation)
    requires NamedAfterFirst(ds, out) && CoversEveryDonation(ds, out)
    ensures NamedAfterFirst(ds + [d], Merge(out, d))
  {
    var ds', k, out' := ds + [d], Key(d.medicine), Merge(out, d);
    forall j | 0 <= j < |out'| ensures
      var f := FirstOccurrence(ds', Key(out'[j].name));
      f < |ds'| && out'[j].name == ds'[f].medicine
    {
      if j < |out| {
        var f := FirstOccurrence(ds, Key(out[j].name));
        FirstOccurrenceStable(ds, d, Key(out[j].name));
        assert out'[j].name == out[j].name;
        assert ds'[f] == ds[f];
      } else {
        AbsentKey(ds, out, k);
        SnocUnfold(ds, d, k);
        assert out'[j] == Open(d);
      }
    }
  }

  lemma MergeOrder(ds: seq<Donation>, out: seq<MedicineSummary>, d: Donation)
    requires InFirstOccurrenceOrder(ds, out) && NamedAfterFirst(ds, out) && CoversEveryDonation(ds, out)
    ensures InFirstOccurrenceOrder(ds + [d], Merge(out, d))
  {
    var ds', k, out' := ds + [d], Key(d.medicine), Merge(out, d);
    SummaryGroupsOccur(ds, out);
    forall j | 0 <= j < |out|
      ensures FirstOccurrence(ds', Key(out[j].name)) == FirstOccurrence(ds, Key(out[j].name)) < |ds|
    {
      FirstOccurrenceStable(ds, d, Key(out[j].name));
    }
    if IndexOfKey(out, k) < |out| {
      forall a, b | 0 <= a < b < |out'|
        ensures FirstOccurrence(ds', Key(out'[a].name)) < FirstOccurrence(ds', Key(out'[b].name))
      {
        assert out'[a].name == out[a].name && out'[b].name == out[b].name;
      }
    } else {
      AbsentKey(ds, out, k);
      SnocUnfold(ds, d, k);
      assert FirstOccurrence(ds', k) == |ds|;
      forall a, b | 0 <= a < b < |out'|
        ensures FirstOccurrence(ds', Key(out'[a].name)) < FirstOccurrence(ds', Key(out'[b].name))
      {
        assert out'[a] == out[a];
        if b == |out| {
          assert out'[b] == Open(d);
        } else {
          assert out'[b] == out[b];
        }
      }
    }
  }

  lemma MergeQuantities(ds: seq<Donation>, out: seq<MedicineSummary>, d: Donation)
    requires QuantitiesSummed(ds, out) && KeysDistinct(out) && CoversEveryDonation(ds, out)
    ensures QuantitiesSummed(ds + [d], Merge(out, d))
  {
    var ds', k, out' := ds + [d], Key(d.medicine), Merge(out, d);
    var i := IndexOfKey(out, k);
    forall j | 0 <= j < |out'| ensures out'[j].quantity == GroupQuantity(ds', Key(out'[j].name)) {
      SnocUnfold(ds, d, Key(out'[j].name));
      if j < |out| && j == i {
        assert out'[j].quantity == out[i].quantity + d.quantity;
      } else if j < |out| {
        assert out'[j] == out[j] && Key(out[j].name) != k;
      } else {
        AbsentKey(ds, out, k);
        EmptyGroupQuantity(ds, k);
        assert out'[j] == Open(d);
      }
    }
  }

  lemma MergeExpiries(ds: seq<Donation>, out: seq<MedicineSummary>, d: Donation)
    requires ExpiriesLatest(ds, out) && KeysDistinct(out) && CoversEveryDonation(ds, out)
    ensures ExpiriesLatest(ds + [d], Merge(out, d))
  {
    var ds', k, out' := ds + [d], Key(d.medicine), Merge(out, d);
    var i := IndexOfKey(out, k);
    forall j | 0 <= j < |out'| ensures
      var l := LatestIndex(ds', Key(out'[j].name));
      l < |ds'| && out'[j].expiry == ds'[l].expiry
    {
      if j < |out| {
        var kj := Key(out[j].name);
        SnocUnfold(ds, d, kj);
        var l := LatestIndex(ds, kj);
        assert ds'[l] == ds[l];
        if j == i {
          assert out'[j].expiry == if d.expiry.day > ds[l].expiry.day then d.expiry else ds[l].expiry;
          assert ds'[|ds|] == d;
        } else {
          assert out'[j] == out[j] && kj != k;
        }
      } else {
        AbsentKey(ds, out, k);
        SnocUnfold(ds, d, k);
        assert out'[j] == Open(d);
      }
    }
  }

  /** One step of the fold keeps the summaries correct. */
  lemma MergeKeepsSummary(ds: seq<Donation>, out: seq<MedicineSummary>, d: Donation)
    requires Summarises(ds, out)
    ensures Summarises(ds + [d], Merge(out, d))
  {
    MergeKeysDistinct(out, d);
    MergeAvailable(out, d);
    MergeCovers(ds, out, d);
    MergeNamed(ds, out, d);
    MergeOrder(ds, out, d);
    MergeQuantities(ds, out, d);
    MergeExpiries(ds, out, d);
  }

  /** The fold produces a correct search result: one summary per distinct
      lower-cased name, each available, named after the first donation of its
      group, in first-occurrence order, with the group's total quantity and
      the earliest of its latest expiries. */
  lemma {:induction false} AggregateSummarises(ds: seq<Donation>)
    ensures Summarises(ds, Aggregate(ds))
  {
    if ds != [] {
      var p, d := ds[..|ds| - 1], ds[|ds| - 1];
      assert ds == p + [d];
      AggregateSummarises(p);
      MergeKeepsSummary(p, Aggregate(p), d);
    }
  }

  lemma AggregateSnoc(ds: seq<Donation>, d: Donation)
    ensures Aggregate(ds + [d]) == Merge(Aggregate(ds), d)
  {
    assert (ds + [d])[..|ds|] == ds;
  }

  lemma AggregateKeysDistinct(ds: seq<Donation>)
    ensures KeysDistinct(Aggregate(ds))
  {
    AggregateSummarises(ds);
  }

  /** The lower-cased medicine names among the donations. */
  ghost function DistinctKeys(ds: seq<Donation>): set<string> {
    set j | 0 <= j < |ds| :: Key(ds[j].medicine)
  }

  lemma DistinctKeysSnoc(ds: seq<Donation>, d: Donation)
    ensures DistinctKeys(ds + [d]) == DistinctKeys(ds) + {Key(d.medicine)}
  {
    var ds' := ds + [d];
    forall k | k in DistinctKeys(ds') ensures k in DistinctKeys(ds) + {Key(d.medicine)} {
      var j :| 0 <= j < |ds'| && Key(ds'[j].medicine) == k;
      if j < |ds| {
        assert ds'[j] == ds[j];
      }
    }
    forall k | k in DistinctKeys(ds) ensures k in DistinctKeys(ds') {
      var j :| 0 <= j < |ds| && Key(ds[j].medicine) == k;
      assert ds'[j] == ds[j];
    }
    assert ds'[|ds|] == d;
  }

  /** The response's `count` (the number of summaries) is the number of
      distinct lower-cased medicine names among the matching donations. */
  lemma {:induction false} AggregateCountsDistinctKeys(ds: seq<Donation>)
    ensures |Aggregate(ds)| == |DistinctKeys(ds)|
  {
    if ds != [] {
      var p, d := ds[..|ds| - 1], ds[|ds| - 1];
      assert p + [d] == ds;
      AggregateCountsDistinctKeys(p);
      DistinctKeysSnoc(p, d);
      AggregateSnoc(p, d);
      var k, out := Key(d.medicine), Aggregate(p);
      if IndexOfKey(out, k) < |out| {
        KeyOfSummaryOccurs(p, IndexOfKey(out, k));
        assert DistinctKeys(ds) == DistinctKeys(p);
      } else {
        AggregateCovers(p);
        AbsentKey(p, out, k);
        assert k !in DistinctKeys(p);
      }
    }
  }

  /** Every summary's key is the key of some donation. */
  lemma KeyOfSummaryOccurs(ds: seq<Donation>, i: nat)
    requires i < |Aggregate(ds)|
    ensures Key(Aggregate(ds)[i].name) in DistinctKeys(ds)
  {
    AggregateSummarises(ds);
    var f := FirstOccurrence(ds, Key(Aggregate(ds)[i].name));
    assert Key(ds[f].medicine) == Key(Aggregate(ds)[i].name);
  }

  lemma AggregateCovers(ds: seq<Donation>)
    ensures CoversEveryDonation(ds, Aggregate(ds))
  {
    AggregateSummarises(ds);
  }

  // ---------------------------------------------------------------------------
  // Worked examples (expiry days counted from 1970-01-01).
  // ---------------------------------------------------------------------------

  function Donated(medicine: string, quantity: int, expiry: ExpiryDate): Donation {
    Donation("donor", None, "", medicine, quantity, expiry, "")
  }

  /** Three donations of one medicine under different cases, quantities 10,
      5 and 7, expiring 2025-01-01, 2025-06-01 and 2024-12-01: one summary,
      named as the first donation, with quantity 22 and the June expiry. */
  lemma ThreeDonationsOneSummary()
    ensures var jan, jun, dec := ExpiryDate("2025-01-01", 20089), ExpiryDate("2025-06-01", 20240), ExpiryDate("2024-12-01", 20058);
      Aggregate([Donated("Aspirin", 10, jan), Donated("aspirin", 5, jun), Donated("ASPIRIN", 7, dec)])
        == [MedicineSummary("Aspirin", 22, jun, true)]
  {
    var jan, jun, dec := ExpiryDate("2025-01-01", 20089), ExpiryDate("2025-06-01", 20240), ExpiryDate("2024-12-01", 20058);
    var a, b, c := Donated("Aspirin", 10, jan), Donated("aspirin", 5, jun), Donated("ASPIRIN", 7, dec);
    assert Key("aspirin") == Key("Aspirin") == Key("ASPIRIN");
    AggregateSnoc([], a);
    AggregateSnoc([a], b);
    AggregateSnoc([a, b], c);
    assert [] + [a] == [a] && [a] + [b] == [a, b] && [a, b] + [c] == [a, b, c];
    assert Aggregate([a]) == [Open(a)];
    assert IndexOfKey([Open(a)], Key(b.medicine)) == 0;
    assert Aggregate([a, b]) == [MedicineSummary("Aspirin", 15, jun, true)];
    assert IndexOfKey(Aggregate([a, b]), Key(c.medicine)) == 0;
  }

  /** Two medicines stay apart and keep the order of their first donation. */
  lemma TwoMedicinesTwoSummaries()
    ensures var e := ExpiryDate("2025-01-01", 20089);
      Aggregate([Donated("Aspirin", 3, e), Donated("Ibuprofen", 4, e), Donated("ASPIRIN", 2, e)])
        == [MedicineSummary("Aspirin", 5, e, true), MedicineSummary("Ibuprofen", 4, e, true)]
  {
    var e := ExpiryDate("2025-01-01", 20089);
    var a, b, c := Donated("Aspirin", 3, e), Donated("Ibuprofen", 4, e), Donated("ASPIRIN", 2, e);
    assert Key("Aspirin") == Key("ASPIRIN") != Key("Ibuprofen");
    AggregateSnoc([], a);
    AggregateSnoc([a], b);
    AggregateSnoc([a, b], c);
    assert [] + [a] == [a] && [a] + [b] == [a, b] && [a, b] + [c] == [a, b, c];
    assert Aggregate([a]) == [Open(a)];
    assert IndexOfKey([Open(a)], Key(b.medicine)) == 1;
    assert Aggregate([a, b]) == [Open(a), Open(b)];
    assert IndexOfKey([Open(a), Open(b)], Key(c.medicine)) == 0;
  }

  // ---------------------------------------------------------------------------
  // The handler.
  // ---------------------------------------------------------------------------

  /** The insertion-ordered `Map` of the handler, seen as the key order plus
      the key-to-entry dictionary, holds exactly the summaries `out`. */
  ghost predicate MirrorsMap(order: seq<string>, entries: map<string, MedicineSummary>, out: seq<MedicineSummary>) {
    && |order| == |out|
    && (forall i :: 0 <= i < |out| ==> order[i] == Key(out[i].name) && order[i] in entries && entries[order[i]] == out[i])
    && (forall k :: k in entries ==> k in order)
  }

  /** Adding a donation to the entry already under its name mirrors `Merge`. */
  lemma MapUpdateMirrors(order: seq<string>, entries: map<string, MedicineSummary>, out: seq<MedicineSummary>, d: Donation)
    requires MirrorsMap(order, entries, out) && KeysDistinct(out)
    requires Key(d.medicine) in entries
    ensures MirrorsMap(order, entries[Key(d.medicine) := Absorb(entries[Key(d.medicine)], d)], Merge(out, d))
  {
    var k := Key(d.medicine);
    var w :| 0 <= w < |order| && order[w] == k;
    var i := IndexOfKey(out, k);
    assert i == w;
  }

  /** Inserting a donation under a name not yet in the map mirrors `Merge`. */
  lemma MapInsertMirrors(order: seq<string>, entries: map<string, MedicineSummary>, out: seq<MedicineSummary>, d: Donation)
    requires MirrorsMap(order, entries, out)
    requires Key(d.medicine) !in entries
    ensures MirrorsMap(order + [Key(d.medicine)], entries[Key(d.medicine) := Open(d)], Merge(out, d))
  {
    assert IndexOfKey(out, Key(d.medicine)) == |out|;
  }

  /** The `forEach` callback for one donation: adds to the entry of a name
      already in the map, or inserts a new entry at the end of the map's
      order. On a map that mirrors the summaries `out` it performs one step
      of the fold. */
  method AddDonation(order: seq<string>, entries: map<string, MedicineSummary>, d: Donation, ghost out: seq<MedicineSummary>)
    returns (order': seq<string>, entries': map<string, MedicineSummary>)
    requires MirrorsMap(order, entries, out) && KeysDistinct(out)
    ensures MirrorsMap(order', entries', Merge(out, d))
  {
    var medicineName := ToLower(d.medicine);
    assert medicineName == Key(d.medicine);
    if medicineName in entries {
      var existing := entries[medicineName];
      existing := existing.(quantity := existing.quantity + d.quantity);
      if d.expiry.day > existing.expiry.day {
        existing := existing.(expiry := d.expiry);
      }
      assert existing == Absorb(entries[medicineName], d);
      MapUpdateMirrors(order, entries, out, d);
      order', entries' := order, entries[medicineName := existing];
    } else {
      MapInsertMirrors(order, entries, out, d);
      order' := order + [medicineName];
      entries' := entries[medicineName := MedicineSummary(d.medicine, d.quantity, d.expiry, true)];
    }
  }

  /** `medicines.forEach(...)`: the map after every donation, in input order,
      holds the summaries of the fold. */
  method GroupIntoMap(ds: seq<Donation>) returns (order: seq<string>, entries: map<string, MedicineSummary>)
    ensures MirrorsMap(order, entries, Aggregate(ds))
  {
    order, entries := [], map[];
    var n := 0;
    assert ds[..0] == [];
    while n < |ds|
      invariant n <= |ds|
      invariant MirrorsMap(order, entries, Aggregate(ds[..n]))
    {
      var d := ds[n];
      AggregateKeysDistinct(ds[..n]);
      order, entries := AddDonation(order, entries, d, Aggregate(ds[..n]));
      assert ds[..n + 1] == ds[..n] + [d];
      AggregateSnoc(ds[..n], d);
      n := n + 1;
    }
    assert ds[..n] == ds;
  }

  /** `Array.from(map.values())`: the entries in the map's insertion order. */
  method MapValues(order: seq<string>, entries: map<string, MedicineSummary>) returns (results: seq<MedicineSummary>)
    requires forall i :: 0 <= i < |order| ==> order[i] in entries
    ensures |results| == |order|
    ensures forall i :: 0 <= i < |order| ==> results[i] == entries[order[i]]
  {
    results := [];
    var j := 0;
    while j < |order|
      invariant j <= |order|
      invariant |results| == j
      invariant forall i :: 0 <= i < j ==> results[i] == entries[order[i]]
    {
      results := results + [entries[order[j]]];
      j := j + 1;
    }
  }

  /** The grouping: build the map from the donations, then list its values. */
  method GroupByMedicine(ds: seq<Donation>) returns (results: seq<MedicineSummary>)
    ensures results == Aggregate(ds)
  {
    var order, entries := GroupIntoMap(ds);
    results := MapValues(order, entries);
  }

  /** `!query || query.trim() === ''`: the query is missing, empty or blank. */
  predicate QueryRejected(query: Option<string>) {
    query.None? || query.value == "" || Trim(query.value) == ""
  }

  /** `GET /api/medicines/search`. A missing or whitespace-only query is
      refused before any aggregation; otherwise the answer lists one summary
      per medicine of the matching donations and counts them. */
  method SearchMedicines(query: Option<string>, matching: seq<Donation>) returns (r: Result<SearchResponse, SearchError>)
    ensures r.Err? <==> query.None? || IsBlank(query.value)
    ensures r.Err? ==> r.error == QueryRequired
    ensures r.Ok? ==> r.value.success && r.value.medicines == Aggregate(matching)
    ensures r.Ok? ==> r.value.count == |r.value.medicines| == |DistinctKeys(matching)|
  {
    if query.Some? {
      TrimEmptyIffBlank(query.value);
    }
    if QueryRejected(query) {
      return Err(QueryRequired);
    }
    var medicines := GroupByMedicine(matching);
    AggregateCountsDistinctKeys(matching);
    r := Ok(SearchResponse(true, |medicines|, medicines));
  }
}
