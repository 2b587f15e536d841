/** The memecoin / BRC-20 service: per-token activity, token creation history,
    and the stats record with a fixed top-token table, recent events and a
    volume history that drifts by a random factor each day. */
module MemecoinApi {
  import opened Common
  import TxIds

  const Tickers: seq<string> := ["ORDI", "SATS", "MEME", "PEPE", "WOJAK", "DOGE", "BITCOIN", "SHIB", "MOON", "PUMP"]

  // ---------------------------------------------------------------- getMemecoinsActivity

  datatype TokenInfo = TokenInfo(ticker: string, name: string, priceInBTC: real, marketCapInBTC: real,
                                 holders: int, totalSupply: int, deploymentBlock: int,
                                 volume24h: real, changePercent24h: real)

  /** The draws of one token. Values printed with `toFixed(n)` are drawn already
      rounded, counted in units of 10^-n: `priceUnits` in 10^-8 BTC,
      `capHundredths`, `volumeHundredths` and `changeHundredths` in hundredths. */
  datatype TokenDraws = TokenDraws(priceUnits: int, capHundredths: int, holders: int, supply: int,
                                   block: int, volumeHundredths: int, changeHundredths: int)

  predicate ValidTokenDraws(d: TokenDraws) {
    0 <= d.priceUnits <= 1000000 && 0 <= d.capHundredths <= 100000 && 0 <= d.holders < 50000 &&
    0 <= d.supply < 1000000000 && 0 <= d.block < 50000 && 0 <= d.volumeHundredths <= 100000 &&
    -1000 <= d.changeHundredths <= 1000
  }

  /** The record one iteration of the token loop pushes. */
  function MakeToken(ticker: string, d: TokenDraws): (t: TokenInfo)
    requires ValidTokenDraws(d)
    ensures t.ticker == ticker && t.name == ticker + " Token"
    ensures 1000 <= t.holders <= 50999 && 1000000 <= t.totalSupply <= 1000999999
    ensures 800000 <= t.deploymentBlock <= 849999
    ensures 0.0 <= t.priceInBTC <= 0.01 && 0.0 <= t.marketCapInBTC <= 1000.0
    ensures 0.0 <= t.volume24h <= 1000.0 && -10.0 <= t.changePercent24h <= 10.0
  {
    TokenInfo(ticker, ticker + " Token",
              d.priceUnits as real / 100000000.0, d.capHundredths as real / 100.0,
              d.holders + 1000, d.supply + 1000000, 800000 + d.block,
              d.volumeHundredths as real / 100.0, d.changeHundredths as real / 100.0)
  }

  datatype MemecoinsActivity = MemecoinsActivity(totalTokens: int, uniqueHolders: int, dailyTransactions: int,
                                                 top10Tokens: seq<TokenInfo>)

  /** `getMemecoinsActivity`: a loop over the ten tickers in list order, then three totals. */
  method GetMemecoinsActivity(tokens: seq<TokenDraws>, totalDraw: int, holdersDraw: int, txDraw: int)
    returns (a: MemecoinsActivity)
    requires |tokens| == 10 && forall k :: 0 <= k < |tokens| ==> ValidTokenDraws(tokens[k])
    requires 0 <= totalDraw < 500 && 0 <= holdersDraw < 100000 && 0 <= txDraw < 50000
    ensures |a.top10Tokens| == 10
    ensures forall k :: 0 <= k < 10 ==> a.top10Tokens[k] == MakeToken(Tickers[k], tokens[k])
    ensures 1000 <= a.totalTokens <= 1499 && 50000 <= a.uniqueHolders <= 149999
    ensures 10000 <= a.dailyTransactions <= 59999
  {
    var result: seq<TokenInfo> := [];
    var i := 0;
    while i < 10
      invariant 0 <= i <= 10
      invariant |result| == i
      invariant forall k :: 0 <= k < i ==> result[k] == MakeToken(Tickers[k], tokens[k])
    {
      var ticker := Tickers[i];
      var d := tokens[i];
      var token := TokenInfo(ticker, ticker + " Token",
                             d.priceUnits as real / 100000000.0, d.capHundredths as real / 100.0,
                             d.holders + 1000, d.supply + 1000000, 800000 + d.block,
                             d.volumeHundredths as real / 100.0, d.changeHundredths as real / 100.0);
      result := result + [token];
      i := i + 1;
    }
    a := MemecoinsActivity(totalDraw + 1000, holdersDraw + 50000, txDraw + 10000, result);
  }

  // ---------------------------------------------------------------- getTokenCreationHistory

  /** `getTokenCreationHistory`: 31 days, each with 1 to 20 tokens created. */
  method GetTokenCreationHistory(draws: seq<int>) returns (history: seq<DailyValue>)
    requires |draws| == 31 && forall k :: 0 <= k < |draws| ==> 0 <= draws[k] < 20
    ensures |history| == 31
    ensures forall k :: 0 <= k < |history| ==>
      history[k].daysAgo == 30 - k && 1 <= history[k].value <= 20
  {
    history := DailySeries(30, 1, 20, draws);
  }

  // ---------------------------------------------------------------- recent activity

  datatype EventType = Mint | Transfer | List | Sale

  const EventTypes: seq<EventType> := [Mint, Transfer, List, Sale]

  datatype MemeTokenEvent = MemeTokenEvent(token: string, ticker: string, priceInBTC: real,
                                           changePercent24h: real, volume24h: real, kind: EventType,
                                           amount: int, price: Option<real>, minutesAgo: int, txid: string)

  /** The draws of one event. `listPriceHundredths` is only read for a listing or
      a sale, as the source only draws a price for those. */
  datatype EventDraws = EventDraws(minutesAgo: int, token: int, priceUnits: int, changeHundredths: int,
                                   volumeHundredths: int, kind: int, amount: int,
                                   listPriceHundredths: int, txid: seq<int>)

  predicate ValidEventDraws(d: EventDraws) {
    0 <= d.minutesAgo < 60 && 0 <= d.token < |Tickers| && 0 <= d.priceUnits <= 1000000 &&
    -1000 <= d.changeHundredths <= 1000 && 0 <= d.volumeHundredths <= 100000 &&
    0 <= d.kind < |EventTypes| && 0 <= d.amount < 100000 &&
    1000 <= d.listPriceHundredths <= 101000 && TxIds.ValidDigitDraws(d.txid)
  }

  predicate IsUpperWord(s: string) {
    forall k :: 0 <= k < |s| ==> 'A' <= s[k] <= 'Z'
  }

  /** Every character is an ASCII letter, of either case. */
  predicate IsLetterWord(s: string) {
    forall k :: 0 <= k < |s| ==> 'a' <= s[k] <= 'z' || 'A' <= s[k] <= 'Z'
  }

  /** A lower-case ASCII letter becomes the same letter in upper case; any
      other character is left as it is. */
  function ToUpperChar(c: char): (r: char)
    ensures 'a' <= c <= 'z' ==> 'A' <= r <= 'Z' && r as int - 'A' as int == c as int - 'a' as int
    ensures !('a' <= c <= 'z') ==> r == c
  {
    if 'a' <= c <= 'z' then (c as int - 'a' as int + 'A' as int) as char else c
  }

  /** `toUpperCase`, for the ASCII letters the tickers use. */
  function ToUpper(s: string): (u: string)
    ensures |u| == |s|
  {
    seq(|s|, k requires 0 <= k < |s| => ToUpperChar(s[k]))
  }

  /** A word of letters comes out all upper case, an upper-case word is left
      unchanged, no character other than a lower-case letter is touched, and
      upper-casing again changes nothing. */
  lemma ToUpperMeaning(s: string)
    ensures IsLetterWord(s) ==> IsUpperWord(ToUpper(s))
    ensures IsUpperWord(s) ==> ToUpper(s) == s
    ensures forall k :: 0 <= k < |s| && !('a' <= s[k] <= 'z') ==> ToUpper(s)[k] == s[k]
    ensures ToUpper(ToUpper(s)) == ToUpper(s)
  {
  }

  /** `token.substring(0, 3).toUpperCase()`: at most three characters. */
  function ShortTicker(token: string): (r: string)
    ensures |r| == if |token| < 3 then |token| else 3
  {
    ToUpper(if |token| < 3 then token else token[..3])
  }

  /** The short ticker of a word of letters is upper case, whatever the case of the token. */
  lemma ShortTickerUpper(token: string)
    requires IsLetterWord(token)
    ensures IsUpperWord(ShortTicker(token))
  {
    var t := if |token| < 3 then token else token[..3];
    assert IsLetterWord(t);
    ToUpperMeaning(t);
  }


  /** For an upper-case token of three letters or more the short ticker is its first three letters. */
  lemma ShortTickerIsPrefix(token: string)
    requires |token| >= 3 && IsUpperWord(token)
    ensures ShortTicker(token) == token[..3]
  {
    var u := ShortTicker(token);
    forall k | 0 <= k < 3 ensures u[k] == token[k] {
      assert 'A' <= token[k] <= 'Z';
    }
  }

  lemma ListedTickersAreUpper(k: nat)
    requires k < |Tickers|
    ensures |Tickers[k]| >= 4 && IsUpperWord(Tickers[k])
  {
  }

  lemma BitcoinShortTicker()
    ensures ShortTicker("BITCOIN") == "BIT"
  {
    ListedTickersAreUpper(6);
    ShortTickerIsPrefix("BITCOIN");
  }

  /** The record one iteration of `generateRecentActivity` pushes. */
  function MakeEvent(d: EventDraws): (e: MemeTokenEvent)
    requires ValidEventDraws(d)
    ensures e.price.Some? <==> (e.kind == List || e.kind == Sale)
  {
    var token := Tickers[d.token];
    var kind := EventTypes[d.kind];
    MemeTokenEvent(token, ShortTicker(token), d.priceUnits as real / 100000000.0,
                   d.changeHundredths as real / 100.0, d.volumeHundredths as real / 100.0, kind,
                   d.amount + 1000,
                   if kind == List || kind == Sale then Some(d.listPriceHundredths as real / 100.0) else None,
                   d.minutesAgo, TxIds.GenerateTxId(d.txid))
  }

  /** What every generated event satisfies. */
  lemma MakeEventFacts(d: EventDraws)
    requires ValidEventDraws(d)
    ensures var e := MakeEvent(d);
      e.token in Tickers && e.ticker == e.token[..3] &&
      (e.price.Some? <==> (e.kind == List || e.kind == Sale)) &&
      (e.price.Some? ==> 10.0 <= e.price.value <= 1010.0) &&
      1000 <= e.amount <= 100999 && 0 <= e.minutesAgo <= 59 &&
      |e.txid| == 64 && forall c :: c in e.txid ==> TxIds.IsHexChar(c)
  {
    ListedTickersAreUpper(d.token);
    ShortTickerIsPrefix(Tickers[d.token]);
  }

  /** `generateRecentActivity(count)`. */
  method GenerateRecentActivity(count: nat, draws: seq<EventDraws>) returns (events: seq<MemeTokenEvent>)
    requires |draws| == count && forall k :: 0 <= k < |draws| ==> ValidEventDraws(draws[k])
    ensures |events| == count
    ensures forall k :: 0 <= k < count ==> events[k] == MakeEvent(draws[k])
  {
    events := [];
    var i := 0;
    while i < count
      invariant 0 <= i <= count
      invariant |events| == i
      invariant forall k :: 0 <= k < i ==> events[k] == MakeEvent(draws[k])
    {
      events := events + [MakeEvent(draws[i])];
      i := i + 1;
    }
  }

  // ---------------------------------------------------------------- volume history

  /** The daily drift factor `0.9 + Math.random() * 0.2`. */
  function Drift(u: real): (f: real)
    requires 0.0 <= u < 1.0
    ensures 0.9 <= f < 1.1
  {
    0.9 + u * 0.2
  }

  predicate ValidFractions(us: seq<real>) {
    forall k :: 0 <= k < |us| ==> 0.0 <= us[k] < 1.0
  }

  /** The running volume after `k` drifts. */
  function VolumeAt(start: real, us: seq<real>, k: nat): (v: real)
    requires k <= |us| && ValidFractions(us)
    requires start > 0.0
    ensures v > 0.0
  {
    if k == 0 then start else VolumeAt(start, us, k - 1) * Drift(us[k - 1])
  }

  lemma MulNonNegative(a: real, b: real)
    requires a >= 0.0 && b >= 0.0
    ensures a * b >= 0.0
  {
  }

  lemma MulPositive(a: real, b: real)
    requires a > 0.0 && b > 0.0
    ensures a * b > 0.0
  {
  }

  /** One day's volume stays within 10% of the previous day's. */
  lemma DailyDriftBounded(start: real, us: seq<real>, k: nat)
    requires k < |us| && ValidFractions(us) && start > 0.0
    ensures 0.9 * VolumeAt(start, us, k) <= VolumeAt(start, us, k + 1) < 1.1 * VolumeAt(start, us, k)
  {
    var v := VolumeAt(start, us, k);
    var f := Drift(us[k]);
    var next := VolumeAt(start, us, k + 1);
    assert next == v * f;
    MulNonNegative(v, f - 0.9);
    MulPositive(v, 1.1 - f);
    calc {
      next - 0.9 * v;
    ==
      v * f - 0.9 * v;
    ==
      v * (f - 0.9);
    >=
      0.0;
    }
    calc {
      1.1 * v - next;
    ==
      1.1 * v - v * f;
    ==
      v * (1.1 - f);
    >
      0.0;
    }
  }

  /** `generateVolumeHistory(days)`: the running volume is multiplied by a drift
      each day and its floor recorded. */
  method GenerateVolumeHistory(days: nat, startDraw: real, us: seq<real>) returns (history: seq<DailyValue>)
    requires 0.0 <= startDraw < 1.0
    requires |us| == days + 1 && ValidFractions(us)
    ensures |history| == days + 1
    ensures forall k :: 0 <= k < |history| ==> history[k].daysAgo == days - k
    ensures forall k :: 0 <= k < |history| ==>
      history[k].value == VolumeAt(startDraw * 5000000.0 + 1000000.0, us, k + 1).Floor
    ensures forall k :: 0 <= k < |history| ==> history[k].value >= 0
  {
    var start := startDraw * 5000000.0 + 1000000.0;
    var volume := start;
    history := [];
    var i: int := days;
    while i >= 0
      invariant -1 <= i <= days
      invariant |history| == days - i
      invariant volume == VolumeAt(start, us, days - i)
      invariant forall k :: 0 <= k < |history| ==>
        history[k] == DailyValue(days - k, VolumeAt(start, us, k + 1).Floor)
      invariant forall k :: 0 <= k < |history| ==> history[k].value >= 0
    {
      volume := volume * (0.9 + us[days - i] * 0.2);
      history := history + [DailyValue(i, volume.Floor)];
      i := i - 1;
    }
  }

  // ---------------------------------------------------------------- getMemecoinStats

  datatype TokenVolume = TokenVolume(token: string, volume24h: int, volumeChange: real, holders: int,
                                     price: real, priceChange: real, marketCap: int)

  const TopTokens: seq<TokenVolume> := [
    TokenVolume("ORDI", 12500000, 5.3, 35000, 425.15, 3.2, 425150000),
    TokenVolume("SATS", 8750000, -2.1, 28000, 0.00052, -1.5, 109200000),
    TokenVolume("MEME", 6300000, 12.7, 19500, 0.075, 8.3, 75000000),
    TokenVolume("PEPE", 4250000, 1.6, 17200, 0.042, 0.8, 42000000),
    TokenVolume("WOJAK", 2100000, -8.2, 9800, 0.0032, -10.5, 9600000)]

  /** `topTokens.reduce((sum, token) => sum + token.volume24h, 0)`. */
  function TotalVolume(tokens: seq<TokenVolume>): int {
    if tokens == [] then 0 else tokens[0].volume24h + TotalVolume(tokens[1..])
  }

  lemma TopTokensTotal()
    ensures TotalVolume(TopTokens) == 33900000
  {
    var t := TopTokens;
    assert t[1..][1..][1..][1..][1..] == [];
  }

  datatype MemecoinsStats = MemecoinsStats(totalTokens: int, newTokens24h: int, totalVolume24h: int,
                                           volumeChange24h: real, topTokens: seq<TokenVolume>,
                                           recentActivity: seq<MemeTokenEvent>, volumeHistory: seq<DailyValue>)

  datatype StatsDraws = StatsDraws(totalTokens: int, newTokens: int, volumeChangeTenths: int,
                                   events: seq<EventDraws>, volumeStart: real, volumeDrifts: seq<real>)

  predicate ValidStatsDraws(d: StatsDraws) {
    0 <= d.totalTokens < 500 && 0 <= d.newTokens < 20 && -100 <= d.volumeChangeTenths <= 100 &&
    |d.events| == 15 && (forall k :: 0 <= k < |d.events| ==> ValidEventDraws(d.events[k])) &&
    0.0 <= d.volumeStart < 1.0 && |d.volumeDrifts| == 31 && ValidFractions(d.volumeDrifts)
  }

  /** `getMemecoinStats`. */
  method GetMemecoinStats(d: StatsDraws) returns (s: MemecoinsStats)
    requires ValidStatsDraws(d)
    ensures 1000 <= s.totalTokens <= 1499
    ensures 5 <= s.newTokens24h <= 24
    ensures s.topTokens == TopTokens
    ensures s.totalVolume24h == TotalVolume(s.topTokens) == 33900000
    ensures -10.0 <= s.volumeChange24h <= 10.0
    ensures |s.recentActivity| == 15
    ensures forall k :: 0 <= k < 15 ==> s.recentActivity[k] == MakeEvent(d.events[k])
    ensures |s.volumeHistory| == 31
    ensures forall k :: 0 <= k < 31 ==> s.volumeHistory[k].daysAgo == 30 - k && s.volumeHistory[k].value >= 0
  {
    var recent := GenerateRecentActivity(15, d.events);
    var history := GenerateVolumeHistory(30, d.volumeStart, d.volumeDrifts);
    TopTokensTotal();
    s := MemecoinsStats(d.totalTokens + 1000, d.newTokens + 5, TotalVolume(TopTokens),
                        d.volumeChangeTenths as real / 10.0, TopTokens, recent, history);
  }
}
