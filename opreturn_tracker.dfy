/** The OP_RETURN tracker panel: block-space percentage, transaction count, the
    shares of four data types and a 24-hour history. The 15 s interval
    overwrites everything but the history with fresh draws. */
module OpReturnTracker {

  datatype TypeShares = TypeShares(text: int, images: int, json: int, other: int)
  datatype HourPercentage = HourPercentage(hour: int, percentage: int)

  function ShareSum(t: TypeShares): int {
    t.text + t.images + t.json + t.other
  }

  const InitialShares: TypeShares := TypeShares(45, 32, 15, 8)

  lemma InitialSharesSumTo100()
    ensures ShareSum(InitialShares) == 100
  {
  }

  /** The draws of one tick. */
  datatype TickDraws = TickDraws(block: int, transactions: int, text: int, images: int, json: int, other: int)

  predicate ValidTickDraws(d: TickDraws) {
    0 <= d.block < 10 && 0 <= d.transactions < 500 &&
    0 <= d.text < 20 && 0 <= d.images < 15 && 0 <= d.json < 10 && 0 <= d.other < 5
  }

  /** The shares a tick writes. They are drawn independently, so their sum is
      anywhere from 65 to 111 rather than 100. */
  function TickShares(d: TickDraws): (t: TypeShares)
    requires ValidTickDraws(d)
    ensures 30 <= t.text <= 49 && 20 <= t.images <= 34 && 10 <= t.json <= 19 && 5 <= t.other <= 9
    ensures 65 <= ShareSum(t) <= 111
  {
    TypeShares(d.text + 30, d.images + 20, d.json + 10, d.other + 5)
  }

  /** Both ends of the range are reached, so a tick does not keep the sum at 100. */
  lemma TickSharesRange()
    ensures ShareSum(TickShares(TickDraws(0, 0, 0, 0, 0, 0))) == 65
    ensures ShareSum(TickShares(TickDraws(0, 0, 19, 14, 9, 4))) == 111
  {
  }

  /** The initial 24-entry history: hour `i` with percentage `5 + draws[i]`. */
  function InitialHistory(draws: seq<int>): (h: seq<HourPercentage>)
    requires |draws| == 24 && forall k :: 0 <= k < |draws| ==> 0 <= draws[k] < 10
    ensures |h| == 24
    ensures forall k :: 0 <= k < |h| ==> h[k].hour == k && 5 <= h[k].percentage <= 14
  {
    seq(24, k requires 0 <= k < 24 => HourPercentage(k, draws[k] + 5))
  }

  class OpReturnPanel {
    /** Starts at 12.5, then whole numbers. */
    var blockPercentage: real
    var transactions: int
    var types: TypeShares
    var history: seq<HourPercentage>

    constructor(historyDraws: seq<int>)
      requires |historyDraws| == 24 && forall k :: 0 <= k < |historyDraws| ==> 0 <= historyDraws[k] < 10
      ensures blockPercentage == 12.5 && transactions == 1245 && types == InitialShares
      ensures ShareSum(types) == 100
      ensures history == InitialHistory(historyDraws)
    {
      blockPercentage := 12.5;
      transactions := 1245;
      types := TypeShares(45, 32, 15, 8);
      history := InitialHistory(historyDraws);
    }

    /** The 15-second interval. */
    method Tick(d: TickDraws)
      requires ValidTickDraws(d)
      modifies this
      ensures 5.0 <= blockPercentage <= 14.0 && blockPercentage == (d.block + 5) as real
      ensures 1000 <= transactions <= 1499 && transactions == d.transactions + 1000
      ensures types == TickShares(d)
      ensures history == old(history)
    {
      blockPercentage := (d.block + 5) as real;
      transactions := d.transactions + 1000;
      types := TypeShares(d.text + 30, d.images + 20, d.json + 10, d.other + 5);
    }
  }
}
