/** The resource-type key codec of the billing service.

    A plugin names each billed entity by a key such as
    `inventory.CloudService?provider=aws&region_code=ap-northeast-2`:
    a base type, then after a `?` a `&`-separated list of `name=value`
    dimensions. `ParseResourceType` decodes a key into the two parallel lists
    the service uses as a pandas index (values and column names);
    `Encode` is how the result assembler writes a grouped key back. */
module ResourceKey {
  import opened Types
  import opened Strings

  /** The name of the first index column, which holds the base type. */
  const ResourceTypeColumn := "resource_type"

  /** `(multiple_index, columns)`: index values and their column names, position by position. */
  datatype ParsedKey = ParsedKey(values: seq<string>, columns: seq<string>)

  /** The base type: everything before the first `?`. */
  function Base(s: string): string {
    Split(s, '?')[0]
  }

  /** The dimension segments: the text between the first and a second `?`
      split on `&`; none when there is no `?` at all. */
  function Query(s: string): seq<string> {
    var item := Split(s, '?');
    if |item| > 1 then Split(item[1], '&') else []
  }

  /** A segment the tuple unpacking `(a, b) = q_item.split('=')` accepts:
      exactly one `=`. */
  predicate WellFormedSegment(segment: string) {
    |Split(segment, '=')| == 2
  }

  /** The segments decoded in string order into parallel (names, values);
      the first segment that is not `name=value` is the error. */
  function DecodeQuery(query: seq<string>): (r: Result<(seq<string>, seq<string>)>)
    ensures r.Ok? ==> |r.value.0| == |query| && |r.value.1| == |query|
    decreases |query|
  {
    if |query| == 0 then Ok(([], []))
    else
      var last := |query| - 1;
      match DecodeQuery(query[..last])
      case Err(e) => Err(e)
      case Ok(nv) =>
        var parts := Split(query[last], '=');
        if |parts| != 2 then Err(MalformedSegment(query[last]))
        else Ok((nv.0 + [parts[0]], nv.1 + [parts[1]]))
  }

  /** A query decodes exactly when every segment holds exactly one `=`. */
  lemma {:induction false} DecodeQueryOk(query: seq<string>)
    ensures DecodeQuery(query).Ok? <==> forall i :: 0 <= i < |query| ==> WellFormedSegment(query[i])
    decreases |query|
  {
    if |query| > 0 {
      var last := |query| - 1;
      assert forall j :: 0 <= j < last ==> query[..last][j] == query[j];
      DecodeQueryOk(query[..last]);
    }
  }

  /** Position i of the decoded lists is segment i split at its `=`. */
  lemma {:induction false} DecodeQuerySplit(query: seq<string>, i: nat)
    requires DecodeQuery(query).Ok? && i < |query|
    ensures Split(query[i], '=') == [DecodeQuery(query).value.0[i], DecodeQuery(query).value.1[i]]
    decreases |query|
  {
    var last := |query| - 1;
    if i < last {
      assert query[..last][i] == query[i];
      DecodeQuerySplit(query[..last], i);
    }
  }

  /** Once a segment fails to decode, the whole query fails with it. */
  lemma {:induction false} DecodeQueryFails(query: seq<string>, n: nat)
    requires n < |query|
    requires DecodeQuery(query[..n]).Ok? && !WellFormedSegment(query[n])
    ensures DecodeQuery(query) == Err(MalformedSegment(query[n]))
    decreases |query|
  {
    var last := |query| - 1;
    if n < last {
      assert query[..last][..n] == query[..n];
      assert query[..last][n] == query[n];
      DecodeQueryFails(query[..last], n);
    } else {
      assert query[..last] == query[..n];
    }
  }

  /** A failed decoding names the first segment that is not `name=value`. */
  lemma {:induction false} DecodeQueryFirstError(query: seq<string>)
    requires DecodeQuery(query).Err?
    ensures exists i :: (0 <= i < |query| && !WellFormedSegment(query[i])
      && (forall j :: 0 <= j < i ==> WellFormedSegment(query[j]))
      && DecodeQuery(query).error == MalformedSegment(query[i]))
    decreases |query|
  {
    var last := |query| - 1;
    assert forall j :: 0 <= j < last ==> query[..last][j] == query[j];
    if DecodeQuery(query[..last]).Err? {
      DecodeQueryFirstError(query[..last]);
      var i :| 0 <= i < last && !WellFormedSegment(query[..last][i])
        && (forall j :: 0 <= j < i ==> WellFormedSegment(query[..last][j]))
        && DecodeQuery(query[..last]).error == MalformedSegment(query[..last][i]);
      assert DecodeQuery(query).error == MalformedSegment(query[i]);
    } else {
      DecodeQueryOk(query[..last]);
      assert !WellFormedSegment(query[last]);
    }
  }

  /** What `_parse_resource_type` returns, or the error it raises. */
  function DecodeKey(s: string): Result<ParsedKey> {
    match DecodeQuery(Query(s))
    case Err(e) => Err(e)
    case Ok(nv) => Ok(ParsedKey([Base(s)] + nv.1, [ResourceTypeColumn] + nv.0))
  }

  /** `_parse_resource_type`, loop for loop. */
  method ParseResourceType(resType: string) returns (r: Result<ParsedKey>)
    ensures r == DecodeKey(resType)
  {
    var item := Split(resType, '?');
    var multipleIndex := [item[0]];
    var columns := [ResourceTypeColumn];
    var query: seq<string>;
    if |item| > 1 {
      query := Split(item[1], '&');
    } else {
      query := [];
    }
    var n := 0;
    while n < |query|
      invariant 0 <= n <= |query|
      invariant DecodeQuery(query[..n]).Ok?
      invariant multipleIndex == [item[0]] + DecodeQuery(query[..n]).value.1
      invariant columns == [ResourceTypeColumn] + DecodeQuery(query[..n]).value.0
    {
      var parts := Split(query[n], '=');
      assert query[..n + 1][..n] == query[..n];
      if |parts| != 2 {
        // the unpacking into (a, b) raises
        DecodeQueryFails(query, n);
        return Err(MalformedSegment(query[n]));
      }
      var a, b := parts[0], parts[1];
      multipleIndex := multipleIndex + [b];
      columns := columns + [a];
      n := n + 1;
    }
    assert query[..n] == query;
    return Ok(ParsedKey(multipleIndex, columns));
  }

  /** A key without `?` is its own base type and has no dimensions. */
  lemma {:induction false} DecodeWithoutQuery(s: string)
    requires '?' !in s
    ensures DecodeKey(s) == Ok(ParsedKey([s], [ResourceTypeColumn]))
  {
    SplitWithout(s, '?');
    assert Query(s) == [];
    var nv := DecodeQuery(Query(s)).value;
    assert nv.1 == [] && nv.0 == [];
    assert [ResourceTypeColumn] + nv.0 == [ResourceTypeColumn];
    assert [Base(s)] + nv.1 == [s];
  }

  /** A decoded key is two parallel lists: position 0 is `resource_type` and
      the base; position i + 1 is the i-th `&` segment, `name=value`, in
      string order. */
  lemma {:induction false} DecodeParallel(s: string)
    requires DecodeKey(s).Ok?
    ensures var p := DecodeKey(s).value;
      && |p.values| == |p.columns| == |Query(s)| + 1
      && p.columns[0] == ResourceTypeColumn
      && p.values[0] == Base(s)
      && forall i :: 0 <= i < |Query(s)| ==> Query(s)[i] == p.columns[i + 1] + "=" + p.values[i + 1]
  {
    var p := DecodeKey(s).value;
    var q := Query(s);
    forall i | 0 <= i < |q| ensures q[i] == p.columns[i + 1] + "=" + p.values[i + 1] {
      DecodeQuerySplit(q, i);
      JoinSplit(q[i], '=');
    }
  }

  /** Decoding fails exactly when some segment does not hold exactly one `=`,
      and the error names the first such segment. */
  lemma {:induction false} DecodeError(s: string)
    ensures DecodeKey(s).Err? <==> exists i :: 0 <= i < |Query(s)| && !WellFormedSegment(Query(s)[i])
    ensures DecodeKey(s).Err? ==> exists i :: (0 <= i < |Query(s)|
      && (forall j :: 0 <= j < i ==> WellFormedSegment(Query(s)[j]))
      && DecodeKey(s).error == MalformedSegment(Query(s)[i]))
  {
    DecodeQueryOk(Query(s));
    if DecodeKey(s).Err? {
      DecodeQueryFirstError(Query(s));
    }
  }

  /** Everything after a second `?` is ignored. */
  lemma {:induction false} DecodeIgnoresSecondQuery(a: string, b: string, c: string)
    requires '?' !in a && '?' !in b
    ensures DecodeKey(a + "?" + b + "?" + c) == DecodeKey(a + "?" + b)
  {
    SplitAround(b, c, '?');
    assert a + "?" + b + "?" + c == a + ['?'] + (b + ['?'] + c);
    SplitAround(a, b + ['?'] + c, '?');
    SplitWithout(b, '?');
    SplitAround(a, b, '?');
  }

  /** The `name=value` segments of a dimension list. */
  function Segments(names: seq<string>, values: seq<string>): (segments: seq<string>)
    requires |names| == |values|
    ensures |segments| == |names|
  {
    seq(|names|, i requires 0 <= i < |names| => names[i] + "=" + values[i])
  }

  /** The key the result assembler writes: the base alone when there are no
      dimensions, else `base?n1=v1&...&nk=vk`. */
  function Encode(base: string, names: seq<string>, values: seq<string>): string
    requires |names| == |values|
  {
    if |names| == 0 then base else base + "?" + Join(Segments(names, values), '&')
  }

  /** A name or value that holds none of the separators. */
  predicate Plain(x: string) {
    '?' !in x && '&' !in x && '=' !in x
  }

  /** Round trip: decoding an encoded key gives back its base and dimensions,
      in order, provided no part holds a separator. */
  lemma {:induction false} DecodeEncode(base: string, names: seq<string>, values: seq<string>)
    requires |names| == |values|
    requires '?' !in base
    requires forall i :: 0 <= i < |names| ==> Plain(names[i]) && Plain(values[i])
    ensures DecodeKey(Encode(base, names, values)) == Ok(ParsedKey([base] + values, [ResourceTypeColumn] + names))
  {
    if |names| == 0 {
      SplitWithout(base, '?');
    } else {
      var segments := Segments(names, values);
      var q := Join(segments, '&');
      forall i | 0 <= i < |segments|
        ensures '?' !in segments[i] && '&' !in segments[i]
        ensures Split(segments[i], '=') == [names[i], values[i]]
      {
        assert segments[i] == names[i] + ['='] + values[i];
        SplitAround(names[i], values[i], '=');
        SplitWithout(values[i], '=');
      }
      JoinAvoids(segments, '&', '?');
      SplitWithout(q, '?');
      SplitAround(base, q, '?');
      var s := Encode(base, names, values);
      assert s == base + ['?'] + q;
      assert Split(s, '?') == [base, q];
      SplitJoin(segments, '&');
      assert Query(s) == segments;
      DecodeSegments(names, values);
    }
  }

  /** Segments that each split into their name and value decode back to the
      names and values. */
  lemma {:induction false} DecodeSegments(names: seq<string>, values: seq<string>)
    requires |names| == |values|
    requires forall i :: 0 <= i < |names| ==> Split(Segments(names, values)[i], '=') == [names[i], values[i]]
    ensures DecodeQuery(Segments(names, values)) == Ok((names, values))
    decreases |names|
  {
    if |names| > 0 {
      var k := |names| - 1;
      var segments := Segments(names, values);
      assert segments[..k] == Segments(names[..k], values[..k]);
      forall i | 0 <= i < k
        ensures Split(Segments(names[..k], values[..k])[i], '=') == [names[..k][i], values[..k][i]]
      {
        assert segments[i] == Segments(names[..k], values[..k])[i];
      }
      DecodeSegments(names[..k], values[..k]);
      assert names[..k] + [names[k]] == names;
      assert values[..k] + [values[k]] == values;
    }
  }

  /** The segments of a decoded query are re-created by `Segments`. */
  lemma {:induction false} SegmentsOfQuery(query: seq<string>)
    requires DecodeQuery(query).Ok?
    ensures var nv := DecodeQuery(query).value; Segments(nv.0, nv.1) == query
  {
    var nv := DecodeQuery(query).value;
    var segments := Segments(nv.0, nv.1);
    forall i | 0 <= i < |query| ensures segments[i] == query[i] {
      JoinSplit(query[i], '=');
      DecodeQuerySplit(query, i);
    }
  }

  /** Round trip the other way: a key with at most one `?` that decodes is
      exactly the encoding of what it decodes to. */
  lemma {:induction false} EncodeDecode(s: string)
    requires DecodeKey(s).Ok?
    requires Occurrences(s, '?') <= 1
    ensures var p := DecodeKey(s).value;
      |p.columns| == |p.values| >= 1 && Encode(p.values[0], p.columns[1..], p.values[1..]) == s
  {
    var item := Split(s, '?');
    SplitCount(s, '?');
    JoinSplit(s, '?');
    var p := DecodeKey(s).value;
    var nv := DecodeQuery(Query(s)).value;
    assert p.columns[1..] == nv.0;
    assert p.values[1..] == nv.1;
    if |item| == 2 {
      var q := item[1];
      JoinSplit(q, '&');
      SegmentsOfQuery(Query(s));
      assert Join(Segments(nv.0, nv.1), '&') == q;
      assert item[1..] == [q];
      assert s == item[0] + ['?'] + q;
    } else {
      assert Query(s) == [];
    }
  }
}
