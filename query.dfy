/**
 * `getQueryParams`: the query string the services append to their URLs,
 * built from a parameter record, and the one-key update the filter panels
 * apply to such a record.
 */
module Query {
  import opened Js

  /** The parameter values the screens put into a filter record. */
  datatype Value = Null | Undefined | NaN | Text(s: string) | Int(i: int) | Boolean(b: bool)

  /** A parameter record as `Object.keys` lists it: keys in insertion order, each once. */
  type Params = seq<(string, Value)>

  /** Lodash's `isNull`, `isUndefined` and `isNaN` all fail. */
  predicate Present(v: Value)
  {
    !v.Null? && !v.Undefined? && !v.NaN?
  }

  /** The template-literal string form `${v}` of a present value. */
  function Render(v: Value): string
    requires Present(v)
  {
    match v
    case Text(s) => s
    case Int(i) => IntToString(i)
    case Boolean(b) => if b then "true" else "false"
  }

  /** `${key}=${value}`: no percent-encoding of either side. */
  function Segment(key: string, v: Value): (r: string)
    requires Present(v)
    ensures |r| > |key| && r[|key|] == '='
  {
    key + "=" + Render(v)
  }

  /** The `map` step: a segment for a present value, `null` otherwise. */
  function Candidates(params: Params): (r: seq<Option<string>>)
    ensures |r| == |params|
  {
    seq(|params|, i requires 0 <= i < |params| =>
      if Present(params[i].1) then Some(Segment(params[i].0, params[i].1)) else None)
  }

  /** The `filter((param) => param)` step: drops `null` and the empty string. */
  function KeepTruthy(cands: seq<Option<string>>): seq<string>
  {
    if cands == [] then []
    else (if cands[0].Some? && cands[0].value != "" then [cands[0].value] else []) + KeepTruthy(cands[1..])
  }

  function GetQueryParams(params: Params): string
  {
    Join(KeepTruthy(Candidates(params)), "&")
  }

  /** Reference definition: one segment per present key, in key order. */
  function Segments(params: Params): (r: seq<string>)
    ensures |r| <= |params|
  {
    if params == [] then []
    else
      (if Present(params[0].1) then [Segment(params[0].0, params[0].1)] else [])
      + Segments(params[1..])
  }

  /**
   * The truthiness filter removes exactly the absent values: a rendered
   * segment always holds "=", so "q=", "page=0" and "hidden=false" are kept.
   */
  lemma {:induction false} FilterDropsOnlyAbsent(params: Params)
    ensures KeepTruthy(Candidates(params)) == Segments(params)
    decreases |params|
  {
    if params != [] {
      assert Candidates(params)[1..] == Candidates(params[1..]);
      FilterDropsOnlyAbsent(params[1..]);
    }
  }

  /** The query string is the present keys' segments joined by "&". */
  lemma QueryIsJoinedSegments(params: Params)
    ensures GetQueryParams(params) == Join(Segments(params), "&")
  {
    FilterDropsOnlyAbsent(params);
  }

  /** A record without present values, the empty record included, gives "". */
  lemma {:induction false} NoPresentValueGivesEmpty(params: Params)
    requires forall i :: 0 <= i < |params| ==> !Present(params[i].1)
    ensures GetQueryParams(params) == ""
  {
    QueryIsJoinedSegments(params);
    NoPresentNoSegments(params);
  }

  lemma {:induction false} NoPresentNoSegments(params: Params)
    requires forall i :: 0 <= i < |params| ==> !Present(params[i].1)
    ensures Segments(params) == []
    decreases |params|
  {
    if params != [] {
      NoPresentNoSegments(params[1..]);
    }
  }

  /**
   * Falsy but present values still produce their segment: a key holding "",
   * 0 or false contributes "key=", "key=0" or "key=false" to the query.
   */
  lemma {:induction false} FalsyValuesKept(params: Params, i: nat)
    requires i < |params|
    ensures params[i].1 == Text("") ==> params[i].0 + "=" in Segments(params)
    ensures params[i].1 == Int(0) ==> params[i].0 + "=0" in Segments(params)
    ensures params[i].1 == Boolean(false) ==> params[i].0 + "=false" in Segments(params)
    decreases |params|
  {
    if i == 0 {
      var (k, v) := params[0];
      if Present(v) {
        assert Segments(params)[0] == k + "=" + Render(v);
        if v == Text("") {
          assert k + "=" + "" == k + "=";
        } else if v == Int(0) {
          assert Render(v) == "0";
          assert k + "=" + "0" == k + "=0";
        } else if v == Boolean(false) {
          assert Render(v) == "false";
          assert k + "=" + "false" == k + "=false";
        }
      }
    } else {
      FalsyValuesKept(params[1..], i - 1);
    }
  }

  /**
   * When neither keys nor values contain "&", splitting the query string on
   * "&" gives back exactly the segments, in key order: no leading, trailing
   * or doubled separator.
   */
  lemma QuerySplitsIntoSegments(params: Params)
    requires Segments(params) != []
    requires forall i :: 0 <= i < |params| && Present(params[i].1) ==>
               '&' !in Segment(params[i].0, params[i].1)
    ensures Split(GetQueryParams(params), '&') == Segments(params)
  {
    QueryIsJoinedSegments(params);
    SegmentsAvoid(params, '&');
    SplitJoin(Segments(params), '&');
  }

  lemma {:induction false} SegmentsAvoid(params: Params, c: char)
    requires forall i :: 0 <= i < |params| && Present(params[i].1) ==>
               c !in Segment(params[i].0, params[i].1)
    ensures forall j :: 0 <= j < |Segments(params)| ==> c !in Segments(params)[j]
    decreases |params|
  {
    if params != [] {
      SegmentsAvoid(params[1..], c);
    }
  }

  // --------------------------------------------- one-key update of a record

  /** `params[key]`. */
  function Lookup(params: Params, key: string): Option<Value>
  {
    if params == [] then None
    else if params[0].0 == key then Some(params[0].1)
    else Lookup(params[1..], key)
  }

  predicate DistinctKeys(params: Params)
  {
    forall i, j :: 0 <= i < j < |params| ==> params[i].0 != params[j].0
  }

  /**
   * `{...prev, [key]: value}`: an existing key keeps its place in the key
   * order and takes the new value; a new key goes last.
   */
  function SetParam(params: Params, key: string, v: Value): (r: Params)
    ensures |r| == |params| || |r| == |params| + 1
    ensures forall i :: 0 <= i < |params| ==> r[i].0 == params[i].0
  {
    if params == [] then [(key, v)]
    else if params[0].0 == key then [(key, v)] + params[1..]
    else [params[0]] + SetParam(params[1..], key, v)
  }

  /** After the update the key reads the new value and every other key reads what it read before. */
  lemma {:induction false} SetParamOnlyThatKey(params: Params, key: string, v: Value, other: string)
    ensures Lookup(SetParam(params, key, v), key) == Some(v)
    ensures other != key ==> Lookup(SetParam(params, key, v), other) == Lookup(params, other)
    decreases |params|
  {
    if params != [] && params[0].0 != key {
      SetParamOnlyThatKey(params[1..], key, v, other);
    }
  }

  /** Updating keeps keys distinct. */
  lemma {:induction false} SetParamKeepsDistinct(params: Params, key: string, v: Value)
    requires DistinctKeys(params)
    ensures DistinctKeys(SetParam(params, key, v))
    decreases |params|
  {
    if params != [] && params[0].0 != key {
      SetParamKeepsDistinct(params[1..], key, v);
      SetParamKeys(params[1..], key, v);
    }
  }

  lemma {:induction false} SetParamKeys(params: Params, key: string, v: Value)
    ensures forall i :: 0 <= i < |SetParam(params, key, v)| ==>
              SetParam(params, key, v)[i].0 == key || exists j :: 0 <= j < |params| && params[j].0 == SetParam(params, key, v)[i].0
    decreases |params|
  {
    if params != [] && params[0].0 != key {
      SetParamKeys(params[1..], key, v);
      var r := SetParam(params, key, v);
      forall i | 0 <= i < |r|
        ensures r[i].0 == key || exists j :: 0 <= j < |params| && params[j].0 == r[i].0
      {
        if i > 0 {
          var r' := SetParam(params[1..], key, v);
          assert r[i] == r'[i - 1];
          if r'[i - 1].0 != key {
            var j :| 0 <= j < |params[1..]| && params[1..][j].0 == r'[i - 1].0;
            assert params[j + 1].0 == r[i].0;
          }
        }
      }
    }
  }
}
