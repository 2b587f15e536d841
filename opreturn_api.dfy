/** The OP_RETURN usage service: mock statistics built from draws, a fixed
    protocol share table, recent transactions and a daily history. Dates are
    day offsets before today and timestamps are minutes before now. */
module OpReturnApi {
  import opened Common
  import TxIds

  const TxProtocols: seq<string> := ["Ordinals", "Counterparty", "Omni", "Veriblock", "Unknown"]

  datatype OpReturnTx = OpReturnTx(txid: string, size: int, protocol: string, minutesAgo: int)

  /** The draws one recent transaction consumes. */
  datatype TxDraws = TxDraws(minutesAgo: int, txid: seq<int>, size: int, protocol: int)

  predicate ValidTxDraws(d: TxDraws) {
    0 <= d.minutesAgo < 60 && TxIds.ValidDigitDraws(d.txid) && 0 <= d.size < 80 &&
    0 <= d.protocol < |TxProtocols|
  }

  /** The record one iteration of `generateRecentTransactions` pushes. */
  function MakeTx(d: TxDraws): (tx: OpReturnTx)
    requires ValidTxDraws(d)
    ensures |tx.txid| == 64 && forall c :: c in tx.txid ==> TxIds.IsHexChar(c)
    ensures 10 <= tx.size <= 89 && tx.protocol in TxProtocols && 0 <= tx.minutesAgo <= 59
  {
    OpReturnTx(TxIds.GenerateTxId(d.txid), d.size + 10, TxProtocols[d.protocol], d.minutesAgo)
  }

  /** `generateRecentTransactions(count)`: the loop pushes one transaction per iteration. */
  method GenerateRecentTransactions(count: nat, draws: seq<TxDraws>) returns (result: seq<OpReturnTx>)
    requires |draws| == count
    requires forall k :: 0 <= k < |draws| ==> ValidTxDraws(draws[k])
    ensures |result| == count
    ensures forall k :: 0 <= k < count ==> result[k] == MakeTx(draws[k])
  {
    result := [];
    var i := 0;
    while i < count
      invariant 0 <= i <= count
      invariant |result| == i
      invariant forall k :: 0 <= k < i ==> result[k] == MakeTx(draws[k])
    {
      var d := draws[i];
      result := result + [OpReturnTx(TxIds.GenerateTxId(d.txid), d.size + 10, TxProtocols[d.protocol], d.minutesAgo)];
      i := i + 1;
    }
  }

  datatype ProtocolShare = ProtocolShare(name: string, percentage: int)
  datatype TopProtocol = TopProtocol(name: string, count: int, percentage: int)

  /** The fixed protocol share table. */
  const Protocols: seq<ProtocolShare> := [
    ProtocolShare("Ordinals", 45), ProtocolShare("Counterparty", 25), ProtocolShare("Omni", 15),
    ProtocolShare("Veriblock", 10), ProtocolShare("Other", 5)]

  /** Base and span of the count drawn for each row of `topProtocols`. */
  const TopCountBase: seq<int> := [3000, 1000, 500, 300, 100]
  const TopCountSpan: seq<int> := [5000, 2000, 1000, 800, 500]

  function SumPercentages(shares: seq<ProtocolShare>): int {
    if shares == [] then 0 else shares[0].percentage + SumPercentages(shares[1..])
  }

  lemma ProtocolSharesSumTo100()
    ensures SumPercentages(Protocols) == 100
  {
    assert Protocols[1..][1..][1..][1..][1..] == [];
  }

  /** The `topProtocols` literal: the share table's rows, each with a drawn count. */
  function TopProtocols(countDraws: seq<int>): (top: seq<TopProtocol>)
    requires |countDraws| == |Protocols|
    requires forall k :: 0 <= k < |countDraws| ==> 0 <= countDraws[k] < TopCountSpan[k]
    ensures |top| == |Protocols|
    ensures forall k :: 0 <= k < |top| ==>
      top[k].name == Protocols[k].name && top[k].percentage == Protocols[k].percentage
    ensures forall k :: 0 <= k < |top| ==>
      TopCountBase[k] <= top[k].count < TopCountBase[k] + TopCountSpan[k]
  {
    seq(|Protocols|, k requires 0 <= k < |Protocols| =>
      TopProtocol(Protocols[k].name, TopCountBase[k] + countDraws[k], Protocols[k].percentage))
  }

  datatype OPReturnStats = OPReturnStats(
    dailyCount: int,
    dailyDataVolume: int,
    changePercentage: real,
    percentageOfBlockSpace: real,
    averageSize: int,
    totalDataStored: real,
    avgTxSize: int,
    protocols: seq<ProtocolShare>,
    topProtocols: seq<TopProtocol>,
    recentTransactions: seq<OpReturnTx>,
    historicalUsage: seq<DailyValue>)

  /** All draws of one `getOPReturnStats` call. Values printed with `toFixed`
      are drawn already rounded: `changeTenths` in tenths, `blockSpaceHundredths`
      in hundredths; `storedFraction` is the unrounded `Math.random()`. */
  datatype StatsDraws = StatsDraws(
    dailyCount: int, avgSize: int, changeTenths: int, storedFraction: real,
    blockSpaceHundredths: int, topCounts: seq<int>, transactions: seq<TxDraws>, history: seq<int>)

  const RecentCount: nat := 10
  const HistoryDays: nat := 14

  predicate ValidStatsDraws(d: StatsDraws) {
    0 <= d.dailyCount < 50000 && 0 <= d.avgSize < 50 &&
    -200 <= d.changeTenths <= 200 && 0.0 <= d.storedFraction < 1.0 &&
    0 <= d.blockSpaceHundredths <= 3000 &&
    |d.topCounts| == |Protocols| &&
    (forall k :: 0 <= k < |d.topCounts| ==> 0 <= d.topCounts[k] < TopCountSpan[k]) &&
    |d.transactions| == RecentCount &&
    (forall k :: 0 <= k < |d.transactions| ==> ValidTxDraws(d.transactions[k])) &&
    |d.history| == HistoryDays + 1 &&
    (forall k :: 0 <= k < |d.history| ==> 0 <= d.history[k] < 10000)
  }

  /** `getOPReturnStats`. */
  method GetOPReturnStats(d: StatsDraws) returns (s: OPReturnStats)
    requires ValidStatsDraws(d)
    ensures 10000 <= s.dailyCount <= 59999 && 20 <= s.averageSize <= 69
    ensures s.dailyDataVolume == s.dailyCount * s.averageSize
    ensures s.averageSize == s.avgTxSize
    ensures -20.0 <= s.changePercentage <= 20.0
    ensures 5.0 <= s.percentageOfBlockSpace <= 35.0
    ensures 30.0 * 1048576.0 <= s.totalDataStored < 50.0 * 1048576.0
    ensures s.protocols == Protocols && SumPercentages(s.protocols) == 100
    ensures |s.topProtocols| == |s.protocols|
    ensures forall k :: 0 <= k < |s.topProtocols| ==>
      s.topProtocols[k].name == s.protocols[k].name && s.topProtocols[k].percentage == s.protocols[k].percentage
    ensures |s.recentTransactions| == 10
    ensures forall k :: 0 <= k < |s.recentTransactions| ==>
      10 <= s.recentTransactions[k].size <= 89 && s.recentTransactions[k].protocol in TxProtocols &&
      |s.recentTransactions[k].txid| == 64 && 0 <= s.recentTransactions[k].minutesAgo <= 59
    ensures |s.historicalUsage| == 15
    ensures forall k :: 0 <= k < |s.historicalUsage| ==>
      s.historicalUsage[k].daysAgo == 14 - k && 5000 <= s.historicalUsage[k].value <= 14999
  {
    var dailyCount := d.dailyCount + 10000;
    var avgSize := d.avgSize + 20;
    var dailyVolume := dailyCount * avgSize;
    var recent := GenerateRecentTransactions(RecentCount, d.transactions);
    var history := DailySeries(HistoryDays, 5000, 10000, d.history);
    ProtocolSharesSumTo100();
    s := OPReturnStats(
      dailyCount,
      dailyVolume,
      d.changeTenths as real / 10.0,
      (d.blockSpaceHundredths + 500) as real / 100.0,
      avgSize,
      (d.storedFraction * 20.0 + 30.0) * 1024.0 * 1024.0,
      avgSize,
      Protocols,
      TopProtocols(d.topCounts),
      recent,
      history);
  }

  /** The daily volume stays within the product of the two ranges. */
  lemma DailyVolumeBounds(dailyCount: int, avgSize: int)
    requires 10000 <= dailyCount <= 59999 && 20 <= avgSize <= 69
    ensures 200000 <= dailyCount * avgSize <= 4139931
  {
    assert dailyCount * avgSize <= 59999 * avgSize <= 59999 * 69;
    assert dailyCount * avgSize >= 10000 * avgSize >= 10000 * 20;
  }
}
