/** The mempool status panel: a congestion status, the current size, three fee
    rates and a 24-hour size history. The 10 s interval replaces the size and
    the fee rates with fresh draws; status and history are carried over. */
module MempoolStatus {

  datatype Status = Low | Medium | High
  datatype FeeRates = FeeRates(high: int, medium: int, low: int)
  datatype HourSize = HourSize(hour: int, size: int)

  /** The fee rates decrease from high to low. */
  predicate Ordered(f: FeeRates) {
    f.high > f.medium >= f.low
  }

  /** The "Recommended Fee" card: the rate the status names. */
  function RecommendedFee(status: Status, f: FeeRates): (r: int)
    ensures status == Low ==> r == f.low
    ensures status == Medium ==> r == f.medium
    ensures status == High ==> r == f.high
  {
    if status == Low then f.low else if status == Medium then f.medium else f.high
  }

  /** With ordered rates a busier status never recommends a lower fee. */
  lemma RecommendedFeeMonotone(f: FeeRates)
    requires Ordered(f)
    ensures RecommendedFee(Low, f) <= RecommendedFee(Medium, f) < RecommendedFee(High, f)
  {
  }

  /** The block-target text under the recommended fee. */
  function BlockTarget(status: Status): (r: string)
    ensures r == "next block" <==> status == Low
  {
    if status == Low then "next block" else if status == Medium then "1-3 blocks" else "3-6 blocks"
  }

  /** The status description text. */
  function StatusDescription(status: Status): (r: string)
    ensures r == "Ideal time for transactions" <==> status == Low
  {
    if status == Low then "Ideal time for transactions"
    else if status == Medium then "Moderate wait times expected"
    else "High fees and long wait times"
  }

  /** Each status gets its own block target and description. */
  lemma StatusTextsDistinct(s: Status, t: Status)
    requires s != t
    ensures BlockTarget(s) != BlockTarget(t) && StatusDescription(s) != StatusDescription(t)
  {
    assert BlockTarget(s)[0] != BlockTarget(t)[0];
    assert StatusDescription(s)[0] != StatusDescription(t)[0];
  }

  /** The initial 24-entry history: hour `i` with size `20 + draws[i]`. */
  function InitialHistory(draws: seq<int>): (h: seq<HourSize>)
    requires |draws| == 24 && forall k :: 0 <= k < |draws| ==> 0 <= draws[k] < 30
    ensures |h| == 24
    ensures forall k :: 0 <= k < |h| ==> h[k].hour == k && 20 <= h[k].size <= 49
  {
    seq(24, k requires 0 <= k < 24 => HourSize(k, draws[k] + 20))
  }

  /** The rates one tick draws. */
  function TickRates(highDraw: int, mediumDraw: int, lowDraw: int): (f: FeeRates)
    requires 0 <= highDraw < 30 && 0 <= mediumDraw < 20 && 0 <= lowDraw < 10
    ensures 30 <= f.high <= 59 && 10 <= f.medium <= 29 && 1 <= f.low <= 10
    ensures Ordered(f)
  {
    FeeRates(highDraw + 30, mediumDraw + 10, lowDraw + 1)
  }

  class MempoolPanel {
    var status: Status
    var currentSize: int
    var feeRates: FeeRates
    var history: seq<HourSize>

    /** Status stays medium and the rates stay ordered. */
    predicate Valid()
      reads this
    {
      status == Medium && Ordered(feeRates) && |history| == 24
    }

    constructor(historyDraws: seq<int>)
      requires |historyDraws| == 24 && forall k :: 0 <= k < |historyDraws| ==> 0 <= historyDraws[k] < 30
      ensures status == Medium && currentSize == 45 && feeRates == FeeRates(45, 15, 5)
      ensures history == InitialHistory(historyDraws)
      ensures Valid()
    {
      status := Medium;
      currentSize := 45;
      feeRates := FeeRates(45, 15, 5);
      history := InitialHistory(historyDraws);
    }

    /** The 10-second interval. */
    method Tick(sizeDraw: int, highDraw: int, mediumDraw: int, lowDraw: int)
      requires Valid()
      requires 0 <= sizeDraw < 30 && 0 <= highDraw < 30 && 0 <= mediumDraw < 20 && 0 <= lowDraw < 10
      modifies this
      ensures 20 <= currentSize <= 49 && currentSize == sizeDraw + 20
      ensures feeRates == TickRates(highDraw, mediumDraw, lowDraw)
      ensures status == old(status) && history == old(history)
      ensures Valid()
    {
      currentSize := sizeDraw + 20;
      feeRates := FeeRates(highDraw + 30, mediumDraw + 10, lowDraw + 1);
    }

    /** The fee shown on the card. */
    function Recommended(): (r: int)
      reads this
      requires Valid()
      ensures r == feeRates.medium && r < feeRates.high
    {
      RecommendedFee(status, feeRates)
    }
  }
}
