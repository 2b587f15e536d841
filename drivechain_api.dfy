/** The drivechain statistics service: a fixed table of sidechains, totals taken
    over the active ones only, and a mock daily transaction history. */
module DrivechainApi {
  import opened Common

  datatype Status = Active | Inactive | Developing

  /** `tpsAverage` is fractional in the table (0.5), hence a real. */
  datatype Sidechain = Sidechain(name: string, totalTransactions: int, activeUsers: int, tpsAverage: real,
                                 mainchainFootprint: int, hashrate: string, status: Status)

  const Sidechains: seq<Sidechain> := [
    Sidechain("ZendoLedger", 1245730, 18500, 45.0, 2048, "12.5 PH/s", Active),
    Sidechain("BitVM", 734221, 12000, 38.0, 1536, "8.3 PH/s", Active),
    Sidechain("Bitassets", 523887, 8750, 25.0, 1024, "5.2 PH/s", Active),
    Sidechain("TestChain", 324556, 5200, 15.0, 768, "3.1 PH/s", Active),
    Sidechain("Bitcoin DeFi", 112233, 3100, 8.0, 512, "2.5 PH/s", Active),
    Sidechain("Gaming Chain", 87654, 2500, 7.0, 256, "1.8 PH/s", Active),
    Sidechain("Identity Chain", 5432, 1200, 0.5, 128, "0.9 PH/s", Active),
    Sidechain("Smart BTC", 0, 0, 0.0, 0, "0 PH/s", Developing)]

  /** `sidechains.filter(chain => chain.status === 'active')`. */
  function ActiveOnly(chains: seq<Sidechain>): (r: seq<Sidechain>)
    ensures |r| <= |chains|
  {
    if chains == [] then []
    else if chains[0].status == Active then [chains[0]] + ActiveOnly(chains[1..])
    else ActiveOnly(chains[1..])
  }

  /** The filter keeps exactly the active chains. */
  lemma {:induction false} ActiveOnlyMembers(chains: seq<Sidechain>)
    ensures forall c :: c in ActiveOnly(chains) <==> c in chains && c.status == Active
  {
    if chains != [] {
      ActiveOnlyMembers(chains[1..]);
      assert forall c :: c in chains <==> c == chains[0] || c in chains[1..];
    }
  }

  /** `reduce((sum, chain) => sum + chain.activeUsers, 0)`. */
  function SumUsers(chains: seq<Sidechain>): int {
    if chains == [] then 0 else chains[0].activeUsers + SumUsers(chains[1..])
  }

  /** `reduce((sum, chain) => sum + chain.tpsAverage, 0)`. */
  function SumTps(chains: seq<Sidechain>): real {
    if chains == [] then 0.0 else chains[0].tpsAverage + SumTps(chains[1..])
  }

  /** Reference definitions: sums over the whole table in which a chain that is
      not active counts zero. */
  function ActiveUsersOf(chains: seq<Sidechain>): int {
    if chains == [] then 0
    else (if chains[0].status == Active then chains[0].activeUsers else 0) + ActiveUsersOf(chains[1..])
  }

  function ActiveTpsOf(chains: seq<Sidechain>): real {
    if chains == [] then 0.0
    else (if chains[0].status == Active then chains[0].tpsAverage else 0.0) + ActiveTpsOf(chains[1..])
  }

  /** Filtering then summing is the same as summing with non-active chains counted as zero. */
  lemma {:induction false} FilterThenSum(chains: seq<Sidechain>)
    ensures SumUsers(ActiveOnly(chains)) == ActiveUsersOf(chains)
    ensures SumTps(ActiveOnly(chains)) == ActiveTpsOf(chains)
  {
    if chains != [] {
      FilterThenSum(chains[1..]);
    }
  }

  lemma {:induction false} ActiveOnlyAppend(a: seq<Sidechain>, b: seq<Sidechain>)
    ensures ActiveOnly(a + b) == ActiveOnly(a) + ActiveOnly(b)
  {
    if a == [] {
      assert a + b == b;
    } else {
      var ab := a + b;
      assert ab[0] == a[0];
      assert ab[1..] == a[1..] + b;
      ActiveOnlyAppend(a[1..], b);
      if a[0].status == Active {
        assert ActiveOnly(ab) == [a[0]] + ActiveOnly(a[1..] + b);
        assert ActiveOnly(a) == [a[0]] + ActiveOnly(a[1..]);
      } else {
        assert ActiveOnly(ab) == ActiveOnly(a[1..] + b);
        assert ActiveOnly(a) == ActiveOnly(a[1..]);
      }
    }
  }

  lemma {:induction false} AllActiveKept(chains: seq<Sidechain>)
    requires forall k :: 0 <= k < |chains| ==> chains[k].status == Active
    ensures ActiveOnly(chains) == chains
  {
    if chains != [] {
      AllActiveKept(chains[1..]);
    }
  }

  /** A chain that is not active (the developing one) contributes nothing:
      inserting it anywhere leaves the active list, and so every total, unchanged. */
  lemma NonActiveContributesNothing(before: seq<Sidechain>, c: Sidechain, after: seq<Sidechain>)
    requires c.status != Active
    ensures ActiveOnly(before + [c] + after) == ActiveOnly(before + after)
  {
    ActiveOnlyAppend(before + [c], after);
    ActiveOnlyAppend(before, [c]);
    ActiveOnlyAppend(before, after);
    assert ActiveOnly([c]) == [];
    assert ActiveOnly(before + [c]) == ActiveOnly(before);
  }

  datatype DrivechainStats = DrivechainStats(
    totalSidechains: nat,
    activeSidechains: nat,
    totalTps: real,
    totalActiveUsers: int,
    sidechains: seq<Sidechain>,
    historicalActivity: seq<DailyValue>)

  const HistoryDays: nat := 30

  predicate ValidHistoryDraws(draws: seq<int>) {
    |draws| == HistoryDays + 1 && forall k :: 0 <= k < |draws| ==> 0 <= draws[k] < 100000
  }

  /** The history loop of both `getDrivechainTransactionHistory` and `getDrivechainStats`. */
  method GenerateHistoricalData(draws: seq<int>) returns (history: seq<DailyValue>)
    requires ValidHistoryDraws(draws)
    ensures |history| == 31
    ensures forall k :: 0 <= k < |history| ==>
      history[k].daysAgo == 30 - k && 50000 <= history[k].value <= 149999
  {
    history := DailySeries(HistoryDays, 50000, 100000, draws);
  }

  /** `getDrivechainTransactionHistory`. */
  method GetTransactionHistory(draws: seq<int>) returns (history: seq<DailyValue>)
    requires ValidHistoryDraws(draws)
    ensures |history| == 31
    ensures forall k :: 0 <= k < |history| ==>
      history[k].daysAgo == 30 - k && 50000 <= history[k].value <= 149999
  {
    history := GenerateHistoricalData(draws);
  }

  /** Of the eight chains of the table, the first seven are the active ones. */
  lemma ActiveOfTable()
    ensures |Sidechains| == 8
    ensures ActiveOnly(Sidechains) == Sidechains[..7]
  {
    var s := Sidechains;
    var t := s[..7];
    assert s[7].status == Developing;
    assert ActiveOnly([s[7]]) == [] by {
      assert [s[7]][1..] == [];
    }
    assert t + [s[7]] == s;
    ActiveOnlyAppend(t, [s[7]]);
    assert forall k :: 0 <= k < |t| ==> t[k].status == Active by {
      assert t == [s[0], s[1], s[2], s[3], s[4], s[5], s[6]];
    }
    AllActiveKept(t);
  }

  /** The totals over the fixed table: eight chains, seven active, 51250 users, 138.5 tps. */
  lemma TableTotals()
    ensures |Sidechains| == 8 && |ActiveOnly(Sidechains)| == 7
    ensures SumUsers(ActiveOnly(Sidechains)) == 51250
    ensures SumTps(ActiveOnly(Sidechains)) == 138.5
  {
    ActiveOfTable();
    var t := Sidechains[..7];
    var t1 := t[1..];
    var t2 := t1[1..];
    var t3 := t2[1..];
    var t4 := t3[1..];
    var t5 := t4[1..];
    var t6 := t5[1..];
    assert t6[1..] == [];
    assert SumUsers(t6) == 1200 && SumTps(t6) == 0.5;
    assert SumUsers(t5) == 3700 && SumTps(t5) == 7.5;
    assert SumUsers(t4) == 6800 && SumTps(t4) == 15.5;
    assert SumUsers(t3) == 12000 && SumTps(t3) == 30.5;
    assert SumUsers(t2) == 20750 && SumTps(t2) == 55.5;
    assert SumUsers(t1) == 32750 && SumTps(t1) == 93.5;
  }

  /** `getDrivechainStats`. */
  method GetDrivechainStats(draws: seq<int>) returns (s: DrivechainStats)
    requires ValidHistoryDraws(draws)
    ensures s.sidechains == Sidechains
    ensures s.totalSidechains == |s.sidechains| == 8
    ensures s.activeSidechains == |ActiveOnly(s.sidechains)| == 7
    ensures s.activeSidechains <= s.totalSidechains
    ensures s.totalActiveUsers == ActiveUsersOf(s.sidechains) == 51250
    ensures s.totalTps == ActiveTpsOf(s.sidechains) == 138.5
    ensures |s.historicalActivity| == 31
    ensures forall k :: 0 <= k < |s.historicalActivity| ==> 50000 <= s.historicalActivity[k].value <= 149999
  {
    var active := ActiveOnly(Sidechains);
    var totalTps := SumTps(active);
    var totalActiveUsers := SumUsers(active);
    var history := GenerateHistoricalData(draws);
    TableTotals();
    FilterThenSum(Sidechains);
    s := DrivechainStats(|Sidechains|, |active|, totalTps, totalActiveUsers, Sidechains, history);
  }
}
