/** The mempool statistics service: a mock generator, and the live path that
    takes the fee recommendation from a fetch and falls back to a fixed record
    when the fetch fails. Every `Math.floor(Math.random() * k)` is an integer
    draw in [0, k); the fetch is an explicit success-or-failure input. */
module MempoolApi {

  datatype Fees = Fees(fastestFee: int, halfHourFee: int, hourFee: int, economyFee: int, minimumFee: int)

  /** `mempoolSize` is in MB and may carry one decimal (the mock's `toFixed(1)`). */
  datatype MempoolStats = MempoolStats(fees: Fees, mempoolSize: real, pendingTxCount: int, loadPercentage: int)

  /** The draws of the mock generator. `sizeTenths` is `Math.random() * 150`
      rounded to one decimal, counted in tenths, so it can reach 1500. */
  datatype MockDraws = MockDraws(fastest: int, halfHour: int, hour: int, economy: int,
                                 sizeTenths: int, pending: int, load: int)

  predicate ValidMockDraws(d: MockDraws) {
    0 <= d.fastest < 40 && 0 <= d.halfHour < 30 && 0 <= d.hour < 40 && 0 <= d.economy < 60 &&
    0 <= d.sizeTenths <= 1500 && 0 <= d.pending < 15000 && 0 <= d.load < 80
  }

  function Max(a: int, b: int): int { if a >= b then a else b }
  function Min(a: int, b: int): int { if a <= b then a else b }

  /** `generateMockMempoolData`. */
  function GenerateMock(d: MockDraws): (s: MempoolStats)
    requires ValidMockDraws(d)
    ensures 80 <= s.fees.fastestFee <= 119
    ensures s.fees.halfHourFee >= 10 && s.fees.hourFee >= 5 && s.fees.economyFee >= 1
    ensures s.fees.minimumFee == 1
    ensures s.fees.halfHourFee <= s.fees.fastestFee - 10
    ensures s.fees.hourFee <= s.fees.fastestFee - 20
    ensures s.fees.economyFee < s.fees.fastestFee
    ensures 10.0 <= s.mempoolSize <= 160.0
    ensures 5000 <= s.pendingTxCount <= 19999
    ensures 10 <= s.loadPercentage <= 89
  {
    var fastestFee := d.fastest + 80;
    MempoolStats(
      Fees(fastestFee,
           Max(10, fastestFee - d.halfHour - 10),
           Max(5, fastestFee - d.hour - 20),
           Max(1, fastestFee - d.economy - 30),
           1),
      (d.sizeTenths + 100) as real / 10.0,
      d.pending + 5000,
      d.load + 10)
  }

  /** Of the three floors only the economy one can bind: the half-hour and hour
      fees are always the fastest fee minus their draw and offset. */
  lemma MockFloorsThatBind(d: MockDraws)
    requires ValidMockDraws(d)
    ensures GenerateMock(d).fees.halfHourFee == GenerateMock(d).fees.fastestFee - d.halfHour - 10
    ensures GenerateMock(d).fees.hourFee == GenerateMock(d).fees.fastestFee - d.hour - 20
    ensures GenerateMock(d).fees.economyFee == 1 <==> d.fastest + 80 - d.economy - 30 <= 1
  {
  }

  /** The mock fees are not always ordered: the half-hour fee can fall below the hour fee. */
  lemma MockFeesNotAlwaysOrdered()
    ensures exists d :: ValidMockDraws(d) && GenerateMock(d).fees.halfHourFee < GenerateMock(d).fees.hourFee
  {
    var d := MockDraws(0, 29, 0, 0, 0, 0, 0);
    assert GenerateMock(d).fees.halfHourFee == 41 && GenerateMock(d).fees.hourFee == 60;
  }

  /** Every fastest fee of the stated range is reachable. */
  lemma MockFastestCoversRange(f: int)
    requires 80 <= f <= 119
    ensures exists d :: ValidMockDraws(d) && GenerateMock(d).fees.fastestFee == f
  {
    var d := MockDraws(f - 80, 0, 0, 0, 0, 0, 0);
    assert GenerateMock(d).fees.fastestFee == f;
  }

  /** The body of the fee recommendation response (its fields are spread into the result). */
  datatype RecommendedFees = RecommendedFees(fastestFee: int, halfHourFee: int, hourFee: int, economyFee: int, minimumFee: int)

  /** Outcome of the request to the fee recommendation endpoint. */
  datatype Fetch = Succeeded(data: RecommendedFees) | Failed

  /** The fixed record returned when the request fails. */
  const Fallback: MempoolStats := MempoolStats(Fees(25, 20, 15, 10, 1), 60.0, 12000, 60)

  predicate ValidLiveDraws(sizeDraw: int, pendingDraw: int) {
    0 <= sizeDraw < 80 && 0 <= pendingDraw < 30000
  }

  /** `getMempoolData`: on success the response's fees with the minimum fee forced to 1
      and simulated size and count; on failure the fallback. The load is the size
      as a percentage of 100 MB, capped at 100. */
  function GetMempoolData(fetch: Fetch, sizeDraw: int, pendingDraw: int): (s: MempoolStats)
    requires ValidLiveDraws(sizeDraw, pendingDraw)
    ensures fetch.Succeeded? ==>
      s.fees == Fees(fetch.data.fastestFee, fetch.data.halfHourFee, fetch.data.hourFee, fetch.data.economyFee, 1)
    ensures fetch.Succeeded? ==> 40.0 <= s.mempoolSize <= 119.0 && 5000 <= s.pendingTxCount <= 34999
    ensures fetch.Succeeded? ==> 40 <= s.loadPercentage <= 100
    ensures fetch.Succeeded? ==>
      s.loadPercentage as real == if s.mempoolSize <= 100.0 then s.mempoolSize else 100.0
    ensures fetch.Failed? ==> s == Fallback
  {
    match fetch
    case Succeeded(data) =>
      var mempoolSize := sizeDraw + 40;
      var pendingTxCount := pendingDraw + 5000;
      var loadPercentage := Min(100, mempoolSize);
      MempoolStats(Fees(data.fastestFee, data.halfHourFee, data.hourFee, data.economyFee, 1),
                   mempoolSize as real, pendingTxCount, loadPercentage)
    case Failed =>
      Fallback
  }

  /** The fallback fees strictly decrease from fastest to minimum. */
  lemma FallbackFeesDecrease()
    ensures var f := Fallback.fees;
      f.fastestFee > f.halfHourFee > f.hourFee > f.economyFee > f.minimumFee == 1
  {
  }

  /** Whatever the response says about the minimum fee, the result reports 1. */
  lemma MinimumFeeAlwaysOne(fetch: Fetch, sizeDraw: int, pendingDraw: int)
    requires ValidLiveDraws(sizeDraw, pendingDraw)
    ensures GetMempoolData(fetch, sizeDraw, pendingDraw).fees.minimumFee == 1
  {
  }
}
