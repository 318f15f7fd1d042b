/** The result assembler of the billing service, `_create_result`: every
    group of the rolled-up series becomes a `{date, cost, currency}` point
    under the resource-type string its key encodes to, and every distinct
    string becomes one output record. */
module Assembler {
  import opened Types
  import opened Strings
  import opened Dicts
  import opened ResourceKey
  import opened Aggregation

  /** The currency every output point carries. */
  const Currency := "USD"

  /** One element of a record's `billing_data`. */
  datatype CostPoint = CostPoint(date: string, cost: int, currency: string)

  /** One element of the output list. */
  datatype OutputRecord = OutputRecord(resourceType: string, billingData: seq<CostPoint>, domainId: string)

  /** Group keys as wide as the level names, which hold at least
      `resource_type` and `date`. */
  predicate KeysFit(levels: seq<string>, items: seq<(seq<string>, int)>) {
    |levels| >= 2 && forall i :: 0 <= i < |items| ==> |items[i].0| == |levels|
  }

  /** The resource-type string a group key encodes to: its first value as the
      base, then the middle levels as `name=value` dimensions. */
  function KeyString(levels: seq<string>, key: seq<string>): string
    requires |key| == |levels| >= 2
  {
    Encode(key[0], levels[1..|key| - 1], key[1..|key| - 1])
  }

  /** The point a group contributes: its date (the last value) and its sum. */
  function PointOf(key: seq<string>, cost: int): CostPoint
    requires |key| >= 1
  {
    CostPoint(key[|key| - 1], cost, Currency)
  }

  /** The segments followed each by the separator. */
  function Terminated(segments: seq<string>, sep: char): string
    decreases |segments|
  {
    if |segments| == 0 then ""
    else Terminated(segments[..|segments| - 1], sep) + segments[|segments| - 1] + [sep]
  }

  /** Dropping the last separator of terminated segments leaves their join. */
  lemma {:induction false} TerminatedJoin(segments: seq<string>, sep: char)
    requires |segments| >= 1
    ensures Terminated(segments, sep) == Join(segments, sep) + [sep]
    decreases |segments|
  {
    var last := |segments| - 1;
    if last == 0 {
      assert segments[..0] == [];
    } else {
      TerminatedJoin(segments[..last], sep);
      JoinSnoc(segments[..last], segments[last], '&');
      JoinSnoc(segments[..last], segments[last], sep);
      assert segments[..last] + [segments[last]] == segments;
    }
  }

  /** The inner loop of `_create_result`: the base and `?`, each dimension as
      `name=value&`, then the last character cut off. */
  method EncodeGroupKey(levels: seq<string>, key: seq<string>) returns (s: string)
    requires |key| == |levels| >= 2
    ensures s == KeyString(levels, key)
    ensures |key| == 2 ==> s == key[0]
    ensures |key| > 2 ==> s == key[0] + "?" + Join(Segments(levels[1..|key| - 1], key[1..|key| - 1]), '&')
  {
    var names := levels[1..|key| - 1];
    var values := key[1..|key| - 1];
    ghost var segments := Segments(names, values);
    var resourceType := key[0] + "?";
    var id := 0;
    while id < |key| - 2
      invariant 0 <= id <= |key| - 2
      invariant resourceType == key[0] + "?" + Terminated(segments[..id], '&')
    {
      assert segments[..id + 1][..id] == segments[..id];
      resourceType := resourceType + levels[id + 1] + "=" + key[id + 1] + "&";
      id := id + 1;
    }
    assert segments[..id] == segments;
    ghost var kept: string;
    if |segments| > 0 {
      TerminatedJoin(segments, '&');
      kept := key[0] + "?" + Join(segments, '&');
    } else {
      kept := key[0];
    }
    assert resourceType == kept + ['&'] || resourceType == kept + ['?'];
    s := resourceType[..|resourceType| - 1];
    assert s == kept;
  }

  /** Each group as its resource-type string and its point. */
  function Keyed(levels: seq<string>, items: seq<(seq<string>, int)>): (pairs: seq<(string, CostPoint)>)
    requires KeysFit(levels, items)
    ensures |pairs| == |items|
  {
    seq(|items|, i requires 0 <= i < |items| => (KeyString(levels, items[i].0), PointOf(items[i].0, items[i].1)))
  }

  /** The points collected under their strings in first-seen order, each
      string's points in order: `value = result.get(k, []); value.append(p);
      result[k] = value`. */
  function CollatePairs(pairs: seq<(string, CostPoint)>): seq<(string, seq<CostPoint>)>
    decreases |pairs|
  {
    if |pairs| == 0 then []
    else
      var last := |pairs| - 1;
      var result := CollatePairs(pairs[..last]);
      Put(result, pairs[last].0, Get(result, pairs[last].0).GetOr([]) + [pairs[last].1])
  }

  /** The `result` dict after the first loop of `_create_result`. */
  function Collate(levels: seq<string>, items: seq<(seq<string>, int)>): seq<(string, seq<CostPoint>)>
    requires KeysFit(levels, items)
  {
    CollatePairs(Keyed(levels, items))
  }

  /** The reference list of one string's points, in order. */
  function PointsWith(pairs: seq<(string, CostPoint)>, s: string): seq<CostPoint>
    decreases |pairs|
  {
    if |pairs| == 0 then []
    else PointsWith(pairs[..|pairs| - 1], s) + (if pairs[|pairs| - 1].0 == s then [pairs[|pairs| - 1].1] else [])
  }

  /** The points of the groups whose key encodes to a string, in enumeration order. */
  function PointsFor(levels: seq<string>, items: seq<(seq<string>, int)>, s: string): seq<CostPoint>
    requires KeysFit(levels, items)
  {
    PointsWith(Keyed(levels, items), s)
  }

  /** The collected strings are exactly the strings that occur; each holds
      its points in order; and none is repeated. */
  lemma {:induction false} CollatePairsMeaning(pairs: seq<(string, CostPoint)>, s: string)
    ensures s in KeySet(CollatePairs(pairs)) <==> exists i :: 0 <= i < |pairs| && pairs[i].0 == s
    ensures Get(CollatePairs(pairs), s).GetOr([]) == PointsWith(pairs, s)
    ensures DistinctKeys(CollatePairs(pairs))
    decreases |pairs|
  {
    if |pairs| > 0 {
      var last := |pairs| - 1;
      var prefix := pairs[..last];
      assert forall i :: 0 <= i < last ==> prefix[i] == pairs[i];
      CollatePairsMeaning(prefix, s);
      var result := CollatePairs(prefix);
      var key := pairs[last].0;
      PutDistinct(result, key, Get(result, key).GetOr([]) + [pairs[last].1]);
      if s == key {
        CollatePairsMeaning(prefix, key);
      }
    }
  }

  /** `CollatePairsMeaning` for the groups of a rolled-up series. */
  lemma {:induction false} CollateMeaning(levels: seq<string>, items: seq<(seq<string>, int)>, s: string)
    requires KeysFit(levels, items)
    ensures s in KeySet(Collate(levels, items)) <==>
      exists i :: 0 <= i < |items| && KeyString(levels, items[i].0) == s
    ensures Get(Collate(levels, items), s).GetOr([]) == PointsFor(levels, items, s)
    ensures DistinctKeys(Collate(levels, items))
  {
    var pairs := Keyed(levels, items);
    CollatePairsMeaning(pairs, s);
    assert forall i :: 0 <= i < |items| ==> pairs[i].0 == KeyString(levels, items[i].0);
  }

  /** The output list for the collected dict. */
  function Records(result: seq<(string, seq<CostPoint>)>, domainId: string): (output: seq<OutputRecord>)
    ensures |output| == |result|
  {
    seq(|result|, i requires 0 <= i < |result| => OutputRecord(result[i].0, result[i].1, domainId))
  }

  /** What `_create_result` returns for a given enumeration of the groups. */
  function Assemble(levels: seq<string>, items: seq<(seq<string>, int)>, domainId: string): seq<OutputRecord>
    requires KeysFit(levels, items)
  {
    Records(Collate(levels, items), domainId)
  }

  /** `_create_result`, loop for loop; `items` is the order in which
      `df.to_dict().items()` yields the groups. */
  method CreateResult(levels: seq<string>, items: seq<(seq<string>, int)>, domainId: string)
    returns (output: seq<OutputRecord>)
    requires KeysFit(levels, items)
    ensures output == Assemble(levels, items, domainId)
  {
    var result: seq<(string, seq<CostPoint>)> := [];
    ghost var pairs := Keyed(levels, items);
    for i := 0 to |items|
      invariant result == CollatePairs(pairs[..i])
    {
      assert pairs[..i + 1][..i] == pairs[..i];
      var k := items[i].0;
      var v := items[i].1;
      var resourceType := EncodeGroupKey(levels, k);
      var value := Get(result, resourceType).GetOr([]);
      value := value + [CostPoint(k[|k| - 1], v, Currency)];
      result := Put(result, resourceType, value);
    }
    assert pairs[..|items|] == pairs;
    output := [];
    for i := 0 to |result|
      invariant output == Records(result[..i], domainId)
    {
      output := output + [OutputRecord(result[i].0, result[i].1, domainId)];
    }
    assert result[..|result|] == result;
  }

  /** The output records of collected pairs carry distinct strings. */
  lemma {:induction false} RecordsDistinct(pairs: seq<(string, CostPoint)>, domainId: string)
    ensures var output := Records(CollatePairs(pairs), domainId);
      forall i, j :: 0 <= i < j < |output| ==> output[i].resourceType != output[j].resourceType
  {
    CollatePairsMeaning(pairs, "");
    DistinctKeysIndex(CollatePairs(pairs));
  }

  /** Each output record holds its string's points in order, and its string occurs. */
  lemma {:induction false} RecordsContents(pairs: seq<(string, CostPoint)>, domainId: string, i: nat)
    requires i < |CollatePairs(pairs)|
    ensures var r := Records(CollatePairs(pairs), domainId)[i];
      && r.billingData == PointsWith(pairs, r.resourceType)
      && r.domainId == domainId
      && exists j :: 0 <= j < |pairs| && pairs[j].0 == r.resourceType
  {
    var result := CollatePairs(pairs);
    CollatePairsMeaning(pairs, result[i].0);
    GetItem(result, i);
    KeySetIndex(result, result[i].0);
  }

  /** Every string that occurs has an output record. */
  lemma {:induction false} RecordsCover(pairs: seq<(string, CostPoint)>, domainId: string, j: nat)
    requires j < |pairs|
    ensures var output := Records(CollatePairs(pairs), domainId);
      exists i :: 0 <= i < |output| && output[i].resourceType == pairs[j].0
  {
    var result := CollatePairs(pairs);
    CollatePairsMeaning(pairs, pairs[j].0);
    KeySetIndex(result, pairs[j].0);
    var i :| 0 <= i < |result| && result[i].0 == pairs[j].0;
    assert Records(result, domainId)[i].resourceType == pairs[j].0;
  }

  /** One output record per distinct resource-type string; the strings are
      exactly those the groups encode to; each record's `billing_data` holds
      one point per group with that string, in order; and every record
      carries the caller's domain. */
  lemma {:induction false} AssembleMeaning(levels: seq<string>, items: seq<(seq<string>, int)>, domainId: string)
    requires KeysFit(levels, items)
    ensures var output := Assemble(levels, items, domainId);
      && (forall i, j :: 0 <= i < j < |output| ==> output[i].resourceType != output[j].resourceType)
      && (forall i :: 0 <= i < |output| ==>
            && output[i].billingData == PointsFor(levels, items, output[i].resourceType)
            && output[i].domainId == domainId
            && exists j :: 0 <= j < |items| && KeyString(levels, items[j].0) == output[i].resourceType)
      && (forall j :: 0 <= j < |items| ==>
            exists i :: 0 <= i < |output| && output[i].resourceType == KeyString(levels, items[j].0))
  {
    var pairs := Keyed(levels, items);
    var output := Assemble(levels, items, domainId);
    RecordsDistinct(pairs, domainId);
    forall i | 0 <= i < |output|
      ensures output[i].billingData == PointsFor(levels, items, output[i].resourceType)
      ensures output[i].domainId == domainId
      ensures exists j :: 0 <= j < |items| && KeyString(levels, items[j].0) == output[i].resourceType
    {
      RecordsContents(pairs, domainId, i);
      var j :| 0 <= j < |pairs| && pairs[j].0 == output[i].resourceType;
      assert KeyString(levels, items[j].0) == output[i].resourceType;
    }
    forall j | 0 <= j < |items|
      ensures exists i :: 0 <= i < |output| && output[i].resourceType == KeyString(levels, items[j].0)
    {
      RecordsCover(pairs, domainId, j);
    }
  }

  // ---------------------------------------------------------------- cost conservation

  /** The cost of some points. */
  function PointsTotal(points: seq<CostPoint>): int
    decreases |points|
  {
    if |points| == 0 then 0 else PointsTotal(points[..|points| - 1]) + points[|points| - 1].cost
  }

  /** The cost of every point in a collected dict. */
  function DictTotal(result: seq<(string, seq<CostPoint>)>): int
    decreases |result|
  {
    if |result| == 0 then 0 else PointsTotal(result[0].1) + DictTotal(result[1..])
  }

  /** The cost of every point in the output. */
  function OutputTotal(output: seq<OutputRecord>): int
    decreases |output|
  {
    if |output| == 0 then 0 else PointsTotal(output[0].billingData) + OutputTotal(output[1..])
  }

  /** Assigning a key replaces the cost of its old points by the cost of the new ones. */
  lemma {:induction false} PutTotal(result: seq<(string, seq<CostPoint>)>, key: string, points: seq<CostPoint>)
    ensures DictTotal(Put(result, key, points))
      == DictTotal(result) - PointsTotal(Get(result, key).GetOr([])) + PointsTotal(points)
    decreases |result|
  {
    if |result| > 0 {
      var r := Put(result, key, points);
      if result[0].0 == key {
        assert r[1..] == result[1..];
      } else {
        assert r[1..] == Put(result[1..], key, points);
        PutTotal(result[1..], key, points);
      }
    }
  }

  /** Appending an item adds its value to the total. */
  lemma {:induction false} ItemsTotalSnoc(items: seq<(seq<string>, int)>, x: (seq<string>, int))
    ensures ItemsTotal(items + [x]) == ItemsTotal(items) + x.1
    decreases |items|
  {
    if |items| > 0 {
      assert (items + [x])[1..] == items[1..] + [x];
      ItemsTotalSnoc(items[1..], x);
    }
  }

  /** The cost of the points of some pairs. */
  function PairsTotal(pairs: seq<(string, CostPoint)>): int
    decreases |pairs|
  {
    if |pairs| == 0 then 0 else PairsTotal(pairs[..|pairs| - 1]) + pairs[|pairs| - 1].1.cost
  }

  /** Collecting moves no cost. */
  lemma {:induction false} CollatePairsTotal(pairs: seq<(string, CostPoint)>)
    ensures DictTotal(CollatePairs(pairs)) == PairsTotal(pairs)
    decreases |pairs|
  {
    if |pairs| > 0 {
      var last := |pairs| - 1;
      CollatePairsTotal(pairs[..last]);
      var result := CollatePairs(pairs[..last]);
      var key := pairs[last].0;
      var oldPoints := Get(result, key).GetOr([]);
      PutTotal(result, key, oldPoints + [pairs[last].1]);
      assert (oldPoints + [pairs[last].1])[..|oldPoints|] == oldPoints;
    }
  }

  /** The points of the groups cost what the groups sum to. */
  lemma {:induction false} KeyedTotal(levels: seq<string>, items: seq<(seq<string>, int)>)
    requires KeysFit(levels, items)
    ensures PairsTotal(Keyed(levels, items)) == ItemsTotal(items)
    decreases |items|
  {
    if |items| > 0 {
      var last := |items| - 1;
      var prefix := items[..last];
      assert KeysFit(levels, prefix) by {
        assert forall i :: 0 <= i < last ==> prefix[i] == items[i];
      }
      assert Keyed(levels, items)[..last] == Keyed(levels, prefix);
      KeyedTotal(levels, prefix);
      ItemsTotalSnoc(prefix, items[last]);
      assert prefix + [items[last]] == items;
    }
  }

  lemma {:induction false} RecordsTotal(result: seq<(string, seq<CostPoint>)>, domainId: string)
    ensures OutputTotal(Records(result, domainId)) == DictTotal(result)
    decreases |result|
  {
    if |result| > 0 {
      assert Records(result, domainId)[1..] == Records(result[1..], domainId);
      RecordsTotal(result[1..], domainId);
    }
  }

  /** The output carries exactly the cost of the groups. */
  lemma {:induction false} AssembleTotal(levels: seq<string>, items: seq<(seq<string>, int)>, domainId: string)
    requires KeysFit(levels, items)
    ensures OutputTotal(Assemble(levels, items, domainId)) == ItemsTotal(items)
  {
    CollatePairsTotal(Keyed(levels, items));
    KeyedTotal(levels, items);
    RecordsTotal(Collate(levels, items), domainId);
  }

  // ---------------------------------------------------------------- round trip

  /** Decoding an output string gives back the group key without its date,
      under the group-by levels without `date`, provided the base holds no
      `?` and no dimension name or value holds a separator. */
  lemma {:induction false} KeyStringDecodes(levels: seq<string>, key: seq<string>)
    requires |key| == |levels| >= 2
    requires levels[0] == ResourceTypeColumn
    requires '?' !in key[0]
    requires forall j :: 1 <= j < |key| - 1 ==> Plain(levels[j]) && Plain(key[j])
    ensures DecodeKey(KeyString(levels, key)) == Ok(ParsedKey(key[..|key| - 1], levels[..|key| - 1]))
  {
    var n := |key| - 1;
    var names := levels[1..n];
    var values := key[1..n];
    forall i | 0 <= i < |names| ensures Plain(names[i]) && Plain(values[i]) {
      assert names[i] == levels[i + 1] && values[i] == key[i + 1];
    }
    DecodeEncode(key[0], names, values);
    assert [key[0]] + values == key[..n];
    assert [ResourceTypeColumn] + names == levels[..n];
  }
}
