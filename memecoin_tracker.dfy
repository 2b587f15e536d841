/** The memecoin tracker panel: four counters that a 10 s interval moves by
    random amounts, the sign-and-colour rule for changes, the type share
    table and the top-coin table. */
module MemecoinTracker {

  datatype MemecoinData = MemecoinData(totalTransactions: int, newTokens: int, volume: real, activityChange: real)

  const Initial: MemecoinData := MemecoinData(124578, 245, 124.5, 12.4)

  /** The draws of one tick: two integer draws and two unrounded `Math.random()` values. */
  datatype TickDraws = TickDraws(transactions: int, tokens: int, volumeU: real, activityU: real)

  predicate ValidTickDraws(d: TickDraws) {
    0 <= d.transactions < 1000 && 0 <= d.tokens < 10 && 0.0 <= d.volumeU < 1.0 && 0.0 <= d.activityU < 1.0
  }

  /** The update one tick applies to the previous data. */
  function TickUpdate(prev: MemecoinData, d: TickDraws): (next: MemecoinData)
    requires ValidTickDraws(d)
    ensures prev.totalTransactions <= next.totalTransactions <= prev.totalTransactions + 999
    ensures prev.newTokens <= next.newTokens <= prev.newTokens + 9
    ensures prev.volume - 2.5 <= next.volume < prev.volume + 2.5
    ensures prev.activityChange - 1.0 <= next.activityChange < prev.activityChange + 1.0
  {
    MemecoinData(prev.totalTransactions + d.transactions, prev.newTokens + d.tokens,
                 prev.volume + (d.volumeU * 5.0 - 2.5), prev.activityChange + (d.activityU * 2.0 - 1.0))
  }

  predicate AllValid(ticks: seq<TickDraws>) {
    forall k :: 0 <= k < |ticks| ==> ValidTickDraws(ticks[k])
  }

  /** The data after a run of ticks. */
  function Run(start: MemecoinData, ticks: seq<TickDraws>): MemecoinData
    requires AllValid(ticks)
    decreases |ticks|
  {
    if ticks == [] then start else Run(TickUpdate(start, ticks[0]), ticks[1..])
  }

  /** The two counters never decrease, however many ticks pass. */
  lemma {:induction false} CountersNeverDecrease(start: MemecoinData, ticks: seq<TickDraws>)
    requires AllValid(ticks)
    ensures Run(start, ticks).totalTransactions >= start.totalTransactions
    ensures Run(start, ticks).newTokens >= start.newTokens
    decreases |ticks|
  {
    if ticks != [] {
      CountersNeverDecrease(TickUpdate(start, ticks[0]), ticks[1..]);
    }
  }

  /** With every volume draw at zero the volume falls by 2.5 per tick. */
  lemma {:induction false} VolumeFallsAtLowestDraw(start: MemecoinData, ticks: seq<TickDraws>)
    requires AllValid(ticks)
    requires forall k :: 0 <= k < |ticks| ==> ticks[k].volumeU == 0.0
    ensures Run(start, ticks).volume == start.volume - 2.5 * |ticks| as real
    decreases |ticks|
  {
    if ticks != [] {
      VolumeFallsAtLowestDraw(TickUpdate(start, ticks[0]), ticks[1..]);
    }
  }

  /** Nothing keeps the volume non-negative: fifty ticks can take it below zero. */
  lemma VolumeCanGoNegative()
    ensures exists ticks :: AllValid(ticks) && Run(Initial, ticks).volume < 0.0
  {
    var ticks := seq(50, _ => TickDraws(0, 0, 0.0, 0.5));
    VolumeFallsAtLowestDraw(Initial, ticks);
  }

  class MemecoinPanel {
    var data: MemecoinData

    constructor()
      ensures data == Initial
    {
      data := MemecoinData(124578, 245, 124.5, 12.4);
    }

    /** The 10-second interval. */
    method Tick(d: TickDraws)
      requires ValidTickDraws(d)
      modifies this
      ensures data == TickUpdate(old(data), d)
    {
      data := MemecoinData(data.totalTransactions + d.transactions, data.newTokens + d.tokens,
                           data.volume + (d.volumeU * 5.0 - 2.5), data.activityChange + (d.activityU * 2.0 - 1.0));
    }
  }

  /** The prefix in front of a change: `+` for a positive one, nothing otherwise
      (a negative number carries its own minus). */
  function SignPrefix(x: real): (r: string)
    ensures r == "+" <==> x > 0.0
    ensures r == "" <==> x <= 0.0
  {
    if x > 0.0 then "+" else ""
  }

  /** The colour class of a change: green for a positive one, red otherwise. */
  function ChangeColor(x: real): (r: string)
    ensures r == "text-green-500" <==> x > 0.0
    ensures r == "text-red-500" <==> x <= 0.0
  {
    if x > 0.0 then "text-green-500" else "text-red-500"
  }

  /** The plus sign and the green colour go together, and both mean a positive change;
      a zero change shows no sign and red. */
  lemma SignAndColorAgree(x: real)
    ensures SignPrefix(x) == "+" <==> ChangeColor(x) == "text-green-500"
    ensures ChangeColor(x) == "text-green-500" <==> x > 0.0
    ensures SignPrefix(0.0) == "" && ChangeColor(0.0) == "text-red-500"
  {
    assert "text-green-500"[5] != "text-red-500"[5];
  }

  datatype MemecoinType = MemecoinType(name: string, activity: int)

  const MemecoinTypes: seq<MemecoinType> := [
    MemecoinType("Runes", 45), MemecoinType("Ordinals", 38), MemecoinType("BRC-20", 32), MemecoinType("Others", 15)]

  function SumActivity(types: seq<MemecoinType>): int {
    if types == [] then 0 else types[0].activity + SumActivity(types[1..])
  }

  /** The four shares labelled "% of total activity" add up to 130, not 100. */
  lemma TypeSharesSumTo130()
    ensures SumActivity(MemecoinTypes) == 130
  {
    assert MemecoinTypes[1..][1..][1..][1..] == [];
  }

  datatype TopCoin = TopCoin(name: string, kind: string, transactions: int, volume: real, change: real)

  const TopCoins: seq<TopCoin> := [
    TopCoin("DOG•GO•TO•THE•MOON", "Runes", 12457, 24.5, 12.4),
    TopCoin("PUPS", "Ordinals", 9872, 18.7, 8.2),
    TopCoin("ORDI", "BRC-20", 8765, 15.2, -3.1),
    TopCoin("RSIC", "Runes", 7654, 12.8, 5.7),
    TopCoin("MEME", "BRC-20", 6543, 10.1, -1.2)]

  /** The coins whose change cell is green with a plus sign. */
  function GreenCoins(coins: seq<TopCoin>): (r: seq<string>)
    ensures |r| <= |coins|
  {
    if coins == [] then []
    else if ChangeColor(coins[0].change) == "text-green-500" then [coins[0].name] + GreenCoins(coins[1..])
    else GreenCoins(coins[1..])
  }

  /** In the fixed table the three rising coins are green and the two falling ones red. */
  lemma TopCoinColors()
    ensures GreenCoins(TopCoins) == ["DOG•GO•TO•THE•MOON", "PUPS", "RSIC"]
  {
    SignAndColorAgree(12.4);
    SignAndColorAgree(8.2);
    SignAndColorAgree(-3.1);
    SignAndColorAgree(5.7);
    SignAndColorAgree(-1.2);
    var t := TopCoins;
    assert t[1..][1..][1..][1..][1..] == [];
  }
}
