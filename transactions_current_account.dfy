/**
 * The current account's transaction filter: the endpoint string the fetch
 * requests and the query key it is cached under. Values are interpolated
 * into the query string raw, without escaping.
 */
module TransactionsCurrentAccount {
  import opened Wrappers
  import opened JsText
  import opened Sequences

  datatype FilterTransactionParams = FilterTransactionParams(
    viewTransaction: bool,
    dailyPoint: bool,
    bonusPoint: bool,
    orderPoint: bool,
    orderPointStatus: string,
    startDate: Option<string>,
    endDate: Option<string>)

  const Path: string := "/utility/filter-transaction"

  /** A string that is present and non-empty, i.e. truthy. */
  predicate Truthy(s: Option<string>) {
    s.Some? && s.value != ""
  }

  /** `params?.startDate && params?.endDate`. */
  predicate HasDateRange(params: Option<FilterTransactionParams>) {
    params.Some? && Truthy(params.value.startDate) && Truthy(params.value.endDate)
  }

  /** The five filter fields, in the order the query lists them. */
  datatype FilterField = ViewTransaction | DailyPoint | BonusPoint | OrderPoint | OrderPointStatus

  /** `${params?.field}`: the rendered field, or `undefined` when `params` is missing. */
  function Field(params: Option<FilterTransactionParams>, f: FilterField): (r: string)
    ensures params.None? ==> r == Undefined
    ensures params.Some? && f != OrderPointStatus ==> r == "true" || r == "false"
    ensures params.Some? && f == ViewTransaction ==> (r == "true" <==> params.value.viewTransaction)
    ensures params.Some? && f == DailyPoint ==> (r == "true" <==> params.value.dailyPoint)
    ensures params.Some? && f == BonusPoint ==> (r == "true" <==> params.value.bonusPoint)
    ensures params.Some? && f == OrderPoint ==> (r == "true" <==> params.value.orderPoint)
    ensures params.Some? && f == OrderPointStatus ==> r == params.value.orderPointStatus
  {
    match params
    case None => Undefined
    case Some(p) =>
      match f
      case ViewTransaction => BoolText(p.viewTransaction)
      case DailyPoint => BoolText(p.dailyPoint)
      case BonusPoint => BoolText(p.bonusPoint)
      case OrderPoint => BoolText(p.orderPoint)
      case OrderPointStatus => p.orderPointStatus
  }

  /** The date-range suffix `append`. */
  function Append(params: Option<FilterTransactionParams>): (r: string)
    ensures r == "" <==> !HasDateRange(params)
  {
    if HasDateRange(params)
    then "&startDate=" + params.value.startDate.value + "&endDate=" + params.value.endDate.value
    else ""
  }

  /** The endpoint requested by `fetchTransactionsCurrentAccount`. */
  function Endpoint(params: Option<FilterTransactionParams>): string {
    Path + "?viewTransaction=" + Field(params, ViewTransaction)
    + "&dailyPoint=" + Field(params, DailyPoint)
    + "&bonusPoint=" + Field(params, BonusPoint)
    + "&orderPoint=" + Field(params, OrderPoint)
    + "&orderPointStatus=" + Field(params, OrderPointStatus)
    + Append(params)
  }

  // ---- A reference description of the query: its key/value pairs in order ----

  type Pair = (string, string)

  /** The five filter fields, as pairs, in fixed order. */
  function FieldPairs(params: Option<FilterTransactionParams>): (ps: seq<Pair>)
    ensures |ps| == 5
  {
    [("viewTransaction", Field(params, ViewTransaction)),
     ("dailyPoint", Field(params, DailyPoint)),
     ("bonusPoint", Field(params, BonusPoint)),
     ("orderPoint", Field(params, OrderPoint)),
     ("orderPointStatus", Field(params, OrderPointStatus))]
  }

  /** The date range, as pairs, when both dates are given. */
  function DatePairs(params: Option<FilterTransactionParams>): (ps: seq<Pair>)
    ensures |ps| == if HasDateRange(params) then 2 else 0
  {
    if HasDateRange(params)
    then [("startDate", params.value.startDate.value), ("endDate", params.value.endDate.value)]
    else []
  }

  /** The query's pairs: the five filter fields in fixed order, then the date
      range when both dates are given. */
  function QueryPairs(params: Option<FilterTransactionParams>): (ps: seq<Pair>)
    ensures |ps| == if HasDateRange(params) then 7 else 5
    ensures ps[0].0 == "viewTransaction" && ps[1].0 == "dailyPoint" && ps[2].0 == "bonusPoint"
    ensures ps[3].0 == "orderPoint" && ps[4].0 == "orderPointStatus"
    ensures HasDateRange(params) ==>
              ps[5] == ("startDate", params.value.startDate.value) && ps[6] == ("endDate", params.value.endDate.value)
  {
    FieldPairs(params) + DatePairs(params)
  }

  function PairText(p: Pair): string {
    p.0 + "=" + p.1
  }

  /** `&k=v` for every pair. */
  function Rest(ps: seq<Pair>): string
    decreases |ps|
  {
    if |ps| == 0 then "" else "&" + PairText(ps[0]) + Rest(ps[1..])
  }

  /** `k1=v1&k2=v2&...`. */
  function QueryString(ps: seq<Pair>): string {
    if |ps| == 0 then "" else PairText(ps[0]) + Rest(ps[1..])
  }

  lemma {:induction false} RestAppend(a: seq<Pair>, b: seq<Pair>)
    ensures Rest(a + b) == Rest(a) + Rest(b)
    decreases |a|
  {
    if |a| == 0 {
      assert a + b == b;
    } else {
      assert (a + b)[1..] == a[1..] + b;
      RestAppend(a[1..], b);
    }
  }

  lemma RestUnfold(ps: seq<Pair>)
    requires |ps| > 0
    ensures Rest(ps) == "&" + PairText(ps[0]) + Rest(ps[1..])
  {
  }

  lemma RestTwo(ps: seq<Pair>)
    requires |ps| == 2
    ensures Rest(ps) == "&" + PairText(ps[0]) + ("&" + PairText(ps[1]))
  {
    RestUnfold(ps);
    RestUnfold(ps[1..]);
    assert ps[1..][1..] == [];
  }

  lemma RestFour(ps: seq<Pair>)
    requires |ps| == 4
    ensures Rest(ps) == "&" + PairText(ps[0]) + ("&" + PairText(ps[1]) + ("&" + PairText(ps[2]) + ("&" + PairText(ps[3]))))
  {
    RestUnfold(ps);
    RestUnfold(ps[1..]);
    RestUnfold(ps[2..]);
    RestUnfold(ps[3..]);
    assert ps[1..][1..] == ps[2..];
    assert ps[2..][1..] == ps[3..];
    assert ps[3..][1..] == [];
  }

  /** Joined pairs, re-read as a template whose literal pieces are `s0`, ..., `s4`. */
  lemma ReassocFive(k0: string, v0: string, k1: string, v1: string, k2: string, v2: string,
                    k3: string, v3: string, k4: string, v4: string, tail: string,
                    s0: string, s1: string, s2: string, s3: string, s4: string)
    requires s0 == k0 + "=" && s1 == "&" + k1 + "=" && s2 == "&" + k2 + "="
    requires s3 == "&" + k3 + "=" && s4 == "&" + k4 + "="
    ensures k0 + "=" + v0
            + ("&" + (k1 + "=" + v1) + ("&" + (k2 + "=" + v2) + ("&" + (k3 + "=" + v3) + ("&" + (k4 + "=" + v4)))))
            + tail
            == s0 + v0 + s1 + v1 + s2 + v2 + s3 + v3 + s4 + v4 + tail
  {
  }

  /** The date-range suffix is the date pairs, each preceded by `&`. */
  lemma AppendIsRest(params: Option<FilterTransactionParams>)
    ensures Rest(DatePairs(params)) == Append(params)
  {
    var d := DatePairs(params);
    if HasDateRange(params) {
      RestTwo(d);
      assert "&startDate=" == "&" + "startDate" + "=";
      assert "&endDate=" == "&" + "endDate" + "=";
    }
  }

  /** Five pairs joined by `&` and followed by `tail`, written out as a
      template whose literal pieces are `s0`, ..., `s4`. */
  lemma FivePairs(ps: seq<Pair>, tail: string, s0: string, s1: string, s2: string, s3: string, s4: string)
    requires |ps| == 5
    requires s0 == ps[0].0 + "=" && s1 == "&" + ps[1].0 + "=" && s2 == "&" + ps[2].0 + "="
    requires s3 == "&" + ps[3].0 + "=" && s4 == "&" + ps[4].0 + "="
    ensures QueryString(ps) + tail ==
              s0 + ps[0].1 + s1 + ps[1].1 + s2 + ps[2].1 + s3 + ps[3].1 + s4 + ps[4].1 + tail
  {
    var r := ps[1..];
    assert QueryString(ps) == PairText(ps[0]) + Rest(r);
    RestFour(r);
    assert r[0] == ps[1] && r[1] == ps[2] && r[2] == ps[3] && r[3] == ps[4];
    ReassocFive(ps[0].0, ps[0].1, ps[1].0, ps[1].1, ps[2].0, ps[2].1, ps[3].0, ps[3].1, ps[4].0, ps[4].1,
                tail, s0, s1, s2, s3, s4);
  }

  lemma Reassoc(p: string, s0: string, v0: string, s1: string, v1: string, s2: string, v2: string,
                s3: string, v3: string, s4: string, v4: string, tail: string)
    ensures p + "?" + (s0 + v0 + s1 + v1 + s2 + v2 + s3 + v3 + s4 + v4 + tail)
            == p + ("?" + s0) + v0 + s1 + v1 + s2 + v2 + s3 + v3 + s4 + v4 + tail
  {
  }

  /** The endpoint, with the five rendered fields read off `FieldPairs`. */
  lemma EndpointTemplate(params: Option<FilterTransactionParams>)
    ensures var f := FieldPairs(params);
            Endpoint(params) == Path + "?viewTransaction=" + f[0].1 + "&dailyPoint=" + f[1].1
              + "&bonusPoint=" + f[2].1 + "&orderPoint=" + f[3].1 + "&orderPointStatus=" + f[4].1
              + Append(params)
  {
  }

  lemma {:induction false} QueryStringAppend(a: seq<Pair>, b: seq<Pair>)
    requires |a| > 0
    ensures QueryString(a + b) == QueryString(a) + Rest(b)
  {
    assert (a + b)[0] == a[0];
    assert (a + b)[1..] == a[1..] + b;
    RestAppend(a[1..], b);
  }

  lemma QueryStringSplit(params: Option<FilterTransactionParams>)
    ensures QueryString(QueryPairs(params)) == QueryString(FieldPairs(params)) + Append(params)
  {
    QueryStringAppend(FieldPairs(params), DatePairs(params));
    AppendIsRest(params);
  }

  lemma FieldsQueryString(params: Option<FilterTransactionParams>, tail: string)
    ensures var f := FieldPairs(params);
            QueryString(f) + tail == "viewTransaction=" + f[0].1 + "&dailyPoint=" + f[1].1
              + "&bonusPoint=" + f[2].1 + "&orderPoint=" + f[3].1 + "&orderPointStatus=" + f[4].1 + tail
  {
    var f := FieldPairs(params);
    FivePairs(f, tail, "viewTransaction=", "&dailyPoint=", "&bonusPoint=", "&orderPoint=", "&orderPointStatus=");
  }

  /** The template string is the path, `?` and the query's pairs joined by `&`. */
  lemma EndpointIsQuery(params: Option<FilterTransactionParams>)
    ensures Endpoint(params) == Path + "?" + QueryString(QueryPairs(params))
  {
    var f := FieldPairs(params);
    var tail := Append(params);
    EndpointTemplate(params);
    QueryStringSplit(params);
    FieldsQueryString(params, tail);
    Reassoc(Path, "viewTransaction=", f[0].1, "&dailyPoint=", f[1].1, "&bonusPoint=", f[2].1,
            "&orderPoint=", f[3].1, "&orderPointStatus=", f[4].1, tail);
    assert "?" + "viewTransaction=" == "?viewTransaction=";
  }

  lemma EndsWith(x: string, t: string)
    ensures |t| <= |x + t| && (x + t)[|x + t| - |t|..] == t
  {
  }

  lemma GroupTail(a: string, x1: string, x2: string, x3: string, x4: string, x5: string,
                  x6: string, x7: string, x8: string, x9: string, x10: string)
    ensures a + x1 + x2 + x3 + x4 + x5 + x6 + x7 + x8 + x9 + x10
            == a + (x1 + x2 + x3 + x4 + x5 + x6 + x7 + x8 + x9 + x10)
  {
  }

  lemma StartsWith(x: string, t: string)
    ensures IsPrefix(x, x + t)
  {
  }

  /** The endpoint always begins with the path and the first parameter's name. */
  lemma EndpointStart(params: Option<FilterTransactionParams>)
    ensures IsPrefix(Path + "?viewTransaction=", Endpoint(params))
  {
    EndpointTemplate(params);
    var f := FieldPairs(params);
    var rest := f[0].1 + "&dailyPoint=" + f[1].1 + "&bonusPoint=" + f[2].1 + "&orderPoint=" + f[3].1
                + "&orderPointStatus=" + f[4].1 + Append(params);
    GroupTail(Path + "?viewTransaction=", f[0].1, "&dailyPoint=", f[1].1, "&bonusPoint=", f[2].1,
              "&orderPoint=", f[3].1, "&orderPointStatus=", f[4].1, Append(params));
    StartsWith(Path + "?viewTransaction=", rest);
  }

  /** Without both dates the endpoint ends with the `orderPointStatus` value. */
  lemma EndpointWithoutDates(params: Option<FilterTransactionParams>)
    requires !HasDateRange(params)
    ensures var tail := "&orderPointStatus=" + Field(params, OrderPointStatus);
            |tail| <= |Endpoint(params)| && Endpoint(params)[|Endpoint(params)| - |tail|..] == tail
  {
    EndpointTemplate(params);
    var f := FieldPairs(params);
    var head := Path + "?viewTransaction=" + f[0].1 + "&dailyPoint=" + f[1].1
                + "&bonusPoint=" + f[2].1 + "&orderPoint=" + f[3].1;
    var tail := "&orderPointStatus=" + f[4].1;
    assert Endpoint(params) == head + tail;
    EndsWith(head, tail);
  }

  /** With both dates the endpoint ends with `&startDate=<s>&endDate=<e>`. */
  lemma EndpointWithDates(params: Option<FilterTransactionParams>)
    requires HasDateRange(params)
    ensures var tail := "&startDate=" + params.value.startDate.value + "&endDate=" + params.value.endDate.value;
            |tail| <= |Endpoint(params)| && Endpoint(params)[|Endpoint(params)| - |tail|..] == tail
  {
    EndpointTemplate(params);
    var f := FieldPairs(params);
    var head := Path + "?viewTransaction=" + f[0].1 + "&dailyPoint=" + f[1].1
                + "&bonusPoint=" + f[2].1 + "&orderPoint=" + f[3].1 + "&orderPointStatus=" + f[4].1;
    assert Endpoint(params) == head + Append(params);
    EndsWith(head, Append(params));
  }

  // ---- Decoding the query back into pairs ----

  function IndexOf(s: string, c: char): (i: nat)
    requires c in s
    ensures i < |s| && s[i] == c && c !in s[..i]
  {
    if s[0] == c then 0 else assert s == [s[0]] + s[1..]; 1 + IndexOf(s[1..], c)
  }

  /** `s.split(sep)`. */
  function Split(s: string, sep: char): (r: seq<string>)
    decreases |s|
  {
    if sep in s then
      var i := IndexOf(s, sep);
      [s[..i]] + Split(s[i + 1..], sep)
    else [s]
  }

  /** A `k=v` part split at its first `=`. */
  function ParsePair(s: string): Pair {
    if '=' in s then var i := IndexOf(s, '='); (s[..i], s[i + 1..]) else (s, "")
  }

  function ParsePairs(parts: seq<string>): (ps: seq<Pair>)
    ensures |ps| == |parts|
    decreases |parts|
  {
    if |parts| == 0 then [] else [ParsePair(parts[0])] + ParsePairs(parts[1..])
  }

  /** The pairs a query string denotes. */
  function DecodeQuery(q: string): seq<Pair> {
    ParsePairs(Split(q, '&'))
  }

  function Texts(ps: seq<Pair>): (r: seq<string>)
    ensures |r| == |ps|
    decreases |ps|
  {
    if |ps| == 0 then [] else [PairText(ps[0])] + Texts(ps[1..])
  }

  /** Keys carry neither `=` nor `&`, values carry no `&`. */
  predicate Unambiguous(ps: seq<Pair>) {
    forall i :: 0 <= i < |ps| ==> '=' !in ps[i].0 && '&' !in ps[i].0 && '&' !in ps[i].1
  }

  lemma IndexOfAt(x: string, c: char, y: string)
    requires c !in x
    ensures c in x + [c] + y && IndexOf(x + [c] + y, c) == |x|
  {
    var s := x + [c] + y;
    assert s[|x|] == c;
  }

  lemma ParsePairText(p: Pair)
    requires '=' !in p.0
    ensures ParsePair(PairText(p)) == p
  {
    assert PairText(p) == p.0 + ['='] + p.1;
    IndexOfAt(p.0, '=', p.1);
    assert PairText(p)[..|p.0|] == p.0;
    assert PairText(p)[|p.0| + 1..] == p.1;
  }

  lemma {:induction false} SplitRest(x: string, ps: seq<Pair>)
    requires '&' !in x && Unambiguous(ps)
    ensures Split(x + Rest(ps), '&') == [x] + Texts(ps)
    decreases |ps|
  {
    if |ps| == 0 {
      assert x + Rest(ps) == x;
    } else {
      var t := PairText(ps[0]);
      assert '&' !in t by {
        assert '&' !in ps[0].0 && '&' !in ps[0].1;
      }
      var s := x + Rest(ps);
      assert s == x + ['&'] + (t + Rest(ps[1..]));
      IndexOfAt(x, '&', t + Rest(ps[1..]));
      assert s[..|x|] == x;
      assert s[|x| + 1..] == t + Rest(ps[1..]);
      assert Unambiguous(ps[1..]) by {
        forall i | 0 <= i < |ps[1..]|
          ensures '=' !in ps[1..][i].0 && '&' !in ps[1..][i].0 && '&' !in ps[1..][i].1
        {
          assert ps[1..][i] == ps[i + 1];
        }
      }
      SplitRest(t, ps[1..]);
    }
  }

  lemma {:induction false} ParseTexts(ps: seq<Pair>)
    requires Unambiguous(ps)
    ensures ParsePairs(Texts(ps)) == ps
    decreases |ps|
  {
    if |ps| > 0 {
      ParsePairText(ps[0]);
      assert Texts(ps)[1..] == Texts(ps[1..]);
      assert Unambiguous(ps[1..]) by {
        forall i | 0 <= i < |ps[1..]|
          ensures '=' !in ps[1..][i].0 && '&' !in ps[1..][i].0 && '&' !in ps[1..][i].1
        {
          assert ps[1..][i] == ps[i + 1];
        }
      }
      ParseTexts(ps[1..]);
    }
  }

  /** Joining pairs and splitting the result gives the pairs back, as long as
      no value contains `&` and no key contains `=` or `&`. */
  lemma DecodeQueryString(ps: seq<Pair>)
    requires |ps| > 0 && Unambiguous(ps)
    ensures DecodeQuery(QueryString(ps)) == ps
  {
    assert '&' !in PairText(ps[0]) by {
      assert '&' !in ps[0].0 && '&' !in ps[0].1;
    }
    assert Unambiguous(ps[1..]) by {
      forall i | 0 <= i < |ps[1..]|
        ensures '=' !in ps[1..][i].0 && '&' !in ps[1..][i].0 && '&' !in ps[1..][i].1
      {
        assert ps[1..][i] == ps[i + 1];
      }
    }
    SplitRest(PairText(ps[0]), ps[1..]);
    assert [PairText(ps[0])] + Texts(ps[1..]) == Texts(ps);
    ParseTexts(ps);
  }

  /** No interpolated string value contains `&`. */
  predicate ValuesWithoutAmpersand(params: Option<FilterTransactionParams>) {
    params.Some? ==>
      '&' !in params.value.orderPointStatus
      && (params.value.startDate.Some? ==> '&' !in params.value.startDate.value)
      && (params.value.endDate.Some? ==> '&' !in params.value.endDate.value)
  }

  lemma QueryPairsUnambiguous(params: Option<FilterTransactionParams>)
    requires ValuesWithoutAmpersand(params)
    ensures Unambiguous(QueryPairs(params))
  {
    var ps := QueryPairs(params);
    assert '&' !in "true" && '&' !in "false" && '&' !in Undefined;
    forall i | 0 <= i < |ps| ensures '=' !in ps[i].0 && '&' !in ps[i].0 && '&' !in ps[i].1 {
      if i < 4 {
        assert ps[i].1 == Undefined || ps[i].1 == "true" || ps[i].1 == "false";
      }
    }
  }

  /** The query of the endpoint decodes to exactly the filter's pairs when no
      value contains `&`. */
  lemma EndpointDecodes(params: Option<FilterTransactionParams>)
    requires ValuesWithoutAmpersand(params)
    ensures var q := Endpoint(params)[|Path| + 1..];
            Endpoint(params) == Path + "?" + q && DecodeQuery(q) == QueryPairs(params)
  {
    EndpointIsQuery(params);
    var ps := QueryPairs(params);
    assert Endpoint(params)[|Path| + 1..] == QueryString(ps);
    QueryPairsUnambiguous(params);
    DecodeQueryString(ps);
  }

  /** Because values are not escaped, moving a date range into the status
      text requests the same endpoint as the real date range: two different
      filters (and so two cache entries) for one request. */
  lemma StatusCanCarryDateRange(p: FilterTransactionParams)
    requires HasDateRange(Some(p))
    ensures var q := p.(orderPointStatus := p.orderPointStatus + Append(Some(p)), startDate := None, endDate := None);
            q != p && Endpoint(Some(q)) == Endpoint(Some(p))
  {
    var q := p.(orderPointStatus := p.orderPointStatus + Append(Some(p)), startDate := None, endDate := None);
    EndpointTemplate(Some(p));
    EndpointTemplate(Some(q));
    var f, g := FieldPairs(Some(p)), FieldPairs(Some(q));
    assert f[..4] == g[..4];
    assert g[4].1 == f[4].1 + Append(Some(p));
    assert Append(Some(q)) == "";
  }

  // ---- The query key ----

  /** A filter whose flags are all set, with no status and no dates. */
  /** The cache key is `transactionKeys.currentAccount(params)`, whose
      definition is not part of this model; `currentAccount` stands for it.
      When it tells every two filters apart, equal keys fetch the same
      endpoint, so a cached entry is never served for another filter's query. */
  lemma KeyDeterminesEndpoint<K>(currentAccount: Option<FilterTransactionParams> -> K,
                                     p: Option<FilterTransactionParams>, q: Option<FilterTransactionParams>)
    requires forall a, b :: currentAccount(a) == currentAccount(b) ==> a == b
    requires currentAccount(p) == currentAccount(q)
    ensures Endpoint(p) == Endpoint(q)
  {
  }

  lemma GroupHead(x1: string, x2: string, x3: string, x4: string, x5: string,
                  x6: string, x7: string, x8: string, x9: string, x10: string)
    ensures x1 + x2 + x3 + x4 + x5 + x6 + x7 + x8 + x9 + x10
            == x1 + (x2 + x3 + x4 + x5 + x6 + x7 + x8 + x9 + x10)
  {
  }

  /** The character just after a non-empty prefix `a` of `a + (x + rest)`. */
  lemma CharAfter(a: string, x: string, rest: string)
    requires |x| > 0
    ensures |a + (x + rest)| > |a| && (a + (x + rest))[|a|] == x[0]
  {
  }

  /** The endpoint's character just after `?viewTransaction=` is the first
      character of the rendered `viewTransaction`. */
  lemma EndpointFirstValueChar(params: Option<FilterTransactionParams>)
    ensures var n := |Path + "?viewTransaction="|;
            |Endpoint(params)| > n && Endpoint(params)[n] == Field(params, ViewTransaction)[0]
  {
    EndpointTemplate(params);
    var f := FieldPairs(params);
    var rest := "&dailyPoint=" + f[1].1 + "&bonusPoint=" + f[2].1 + "&orderPoint=" + f[3].1
                + "&orderPointStatus=" + f[4].1 + Append(params);
    GroupTail(Path + "?viewTransaction=", f[0].1, "&dailyPoint=", f[1].1, "&bonusPoint=", f[2].1,
              "&orderPoint=", f[3].1, "&orderPointStatus=", f[4].1, Append(params));
    GroupHead(f[0].1, "&dailyPoint=", f[1].1, "&bonusPoint=", f[2].1,
              "&orderPoint=", f[3].1, "&orderPointStatus=", f[4].1, Append(params));
    CharAfter(Path + "?viewTransaction=", f[0].1, rest);
  }

  /** A missing filter and any present one request different endpoints: the
      first value is `undefined` for the one and `true` or `false` for the
      other. So a key factory that gave them the same key would serve one's
      data for the other. */
  lemma MissingParamsEndpointDiffers(p: FilterTransactionParams)
    ensures Endpoint(None) != Endpoint(Some(p))
  {
    EndpointFirstValueChar(None);
    EndpointFirstValueChar(Some(p));
    assert Field(None, ViewTransaction)[0] == 'u';
    assert Field(Some(p), ViewTransaction)[0] in {'t', 'f'};
  }
}
