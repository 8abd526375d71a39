/** The price summary `collect` derives from the candle close series. */
module Prices {
  import opened Wrappers
  import opened Json

  /** `{}` or the five summary figures. */
  datatype PriceSummary =
    | NoPrices
    | Summary(current: real, start: real, high: real, low: real, changePercent: real)

  /** A JSON value Python can do arithmetic on: a number, or a boolean as 0/1. */
  function Numeric(j: Json): Option<real> {
    match j
    case JNum(n) => Some(n)
    case JBool(b) => Some(if b then 1.0 else 0.0)
    case _ => None
  }

  /** The closes as numbers; `None` when some element is not numeric. */
  function Numbers(xs: seq<Json>): (r: Option<seq<real>>)
    ensures r.Some? ==> |r.value| == |xs| && forall i :: 0 <= i < |xs| ==> Numeric(xs[i]) == Some(r.value[i])
    ensures r.None? ==> exists i :: 0 <= i < |xs| && Numeric(xs[i]).None?
    decreases |xs|
  {
    if |xs| == 0 then Some([])
    else
      var head, rest := Numeric(xs[0]), Numbers(xs[1..]);
      if head.Some? && rest.Some? then Some([head.value] + rest.value) else None
  }

  /** `max(closes)` */
  function Max(xs: seq<real>): (m: real)
    requires |xs| > 0
    ensures m in xs && forall i :: 0 <= i < |xs| ==> xs[i] <= m
    decreases |xs|
  {
    if |xs| == 1 then xs[0]
    else
      var m := Max(xs[1..]);
      if xs[0] >= m then xs[0] else m
  }

  /** `min(closes)` */
  function Min(xs: seq<real>): (m: real)
    requires |xs| > 0
    ensures m in xs && forall i :: 0 <= i < |xs| ==> m <= xs[i]
    decreases |xs|
  {
    if |xs| == 1 then xs[0]
    else
      var m := Min(xs[1..]);
      if xs[0] <= m then xs[0] else m
  }

  /** `((last - first) / first) * 100` over exact reals. */
  function ChangePercent(first: real, last: real): real
    requires first != 0.0
  {
    (last - first) / first * 100.0
  }

  /**
   * The summary of the provider's price data, or `{}` when it is falsy, has no
   * truthy `c`, or when building the summary raises: `c` not a list, a
   * non-numeric close, or a zero first close (division by zero).
   */
  function Summarize(priceData: Json): (r: PriceSummary)
    ensures r.Summary? <==>
      && priceData.JObj? && |priceData.fields| > 0
      && "c" in priceData.fields && priceData.fields["c"].JArr?
      && |priceData.fields["c"].items| > 0
      && Numbers(priceData.fields["c"].items).Some?
      && Numbers(priceData.fields["c"].items).value[0] != 0.0
    ensures r.Summary? ==>
      var cs := Numbers(priceData.fields["c"].items).value;
      && r.current == cs[|cs| - 1]
      && r.start == cs[0]
      && r.high in cs && (forall i :: 0 <= i < |cs| ==> cs[i] <= r.high)
      && r.low in cs && (forall i :: 0 <= i < |cs| ==> r.low <= cs[i])
      && r.changePercent == ChangePercent(cs[0], cs[|cs| - 1])
  {
    if !Truthy(priceData) || !priceData.JObj? then NoPrices
    else
      var closes := Get(priceData.fields, "c", JArr([]));
      if !Truthy(closes) || !closes.JArr? then NoPrices
      else match Numbers(closes.items)
        case None => NoPrices
        case Some(cs) =>
          var first, last := cs[0], cs[|cs| - 1];
          if first == 0.0 then NoPrices
          else Summary(last, first, Max(cs), Min(cs), ChangePercent(first, last))
  }

  /** A worked example: closes 100, 110, 90 give high 110, low 90 and a change of -10%. */
  lemma SummaryExample()
    ensures Summarize(JObj(map["c" := JArr([JNum(100.0), JNum(110.0), JNum(90.0)])]))
      == Summary(90.0, 100.0, 110.0, 90.0, -10.0)
  {
    var xs := [JNum(100.0), JNum(110.0), JNum(90.0)];
    assert xs[1..] == [JNum(110.0), JNum(90.0)] && xs[1..][1..] == [JNum(90.0)];
    assert [JNum(90.0)][1..] == [];
    assert [90.0] + [] == [90.0] && [110.0] + [90.0] == [110.0, 90.0];
    assert [100.0] + [110.0, 90.0] == [100.0, 110.0, 90.0];
    assert Numbers([JNum(90.0)]) == Some([90.0]);
    assert Numbers(xs[1..]) == Some([110.0, 90.0]);
    assert Numbers(xs) == Some([100.0, 110.0, 90.0]);
    var cs := [100.0, 110.0, 90.0];
    assert cs[1..] == [110.0, 90.0] && cs[1..][1..] == [90.0];
    assert Max(cs) == 110.0;
    assert Min(cs) == 90.0;
  }

  /** The `prices` dict `collect` returns: `{}`, or the five figures under their keys. */
  function PriceJson(s: PriceSummary): Json {
    match s
    case NoPrices => JObj(map[])
    case Summary(current, start, high, low, change) =>
      JObj(map["current_price" := JNum(current), "start_price" := JNum(start), "high" := JNum(high),
               "low" := JNum(low), "change_percent" := JNum(change)])
  }
}
