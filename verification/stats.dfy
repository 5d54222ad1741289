/**
 * The aggregate statistics of a batch of result rows: premise outcomes, debater and
 * debater-model win rates, judge and judge-model leanings, the speaking-order effect
 * and the side effect. Rates are exact quotients here (see the README).
 */
module RunStats {
  import opened Wrappers
  import opened Roles
  import opened RunRow
  import opened Ranking
  import opened Tallies

  /** `a / b` for counts, as an exact quotient. */
  function Rate(a: nat, b: nat): real
    requires b > 0
  {
    a as real / b as real
  }

  lemma RateBounds(a: nat, b: nat)
    requires 0 < b && a <= b
    ensures 0.0 <= Rate(a, b) <= 1.0
  {
  }

  // ---------------------------------------------------------------------------
  // Premise outcomes
  // ---------------------------------------------------------------------------

  /** The rows with a known outcome on the premise. */
  function Completed(rows: seq<Row>): (c: seq<Row>)
    ensures |c| <= |rows|
    ensures forall i :: 0 <= i < |c| ==> c[i].premiseUpheld.Some?
  {
    if rows == [] then []
    else (if rows[0].premiseUpheld.Some? then [rows[0]] else []) + Completed(rows[1..])
  }

  /** The completed rows whose outcome is the given one. */
  function Decided(rows: seq<Row>, outcome: bool): (c: seq<Row>)
    ensures |c| <= |rows|
  {
    if rows == [] then []
    else (if rows[0].premiseUpheld == Some(outcome) then [rows[0]] else []) + Decided(rows[1..], outcome)
  }

  /** The share of completed rows that upheld the premise; none without a completed row. */
  function UpholdRate(rows: seq<Row>): Option<real> {
    var completed := Completed(rows);
    if completed == [] then None else Some(Rate(|Decided(completed, true)|, |completed|))
  }

  /** Every completed row either upheld or rejected the premise. */
  lemma OutcomePartition(rows: seq<Row>)
    ensures |Decided(Completed(rows), true)| + |Decided(Completed(rows), false)| == |Completed(rows)|
    ensures Decided(Completed(rows), true) == Decided(rows, true)
    ensures Decided(Completed(rows), false) == Decided(rows, false)
  {
    DecidedSplit(Completed(rows));
    CompletedDecided(rows, true);
    CompletedDecided(rows, false);
  }

  lemma {:induction false} DecidedSplit(c: seq<Row>)
    requires forall i :: 0 <= i < |c| ==> c[i].premiseUpheld.Some?
    ensures |Decided(c, true)| + |Decided(c, false)| == |c|
  {
    if c != [] {
      DecidedSplit(c[1..]);
      if c[0].premiseUpheld.value {
        assert |Decided(c, true)| == 1 + |Decided(c[1..], true)|;
        assert Decided(c, false) == Decided(c[1..], false);
      } else {
        assert Decided(c, true) == Decided(c[1..], true);
        assert |Decided(c, false)| == 1 + |Decided(c[1..], false)|;
      }
    }
  }

  lemma {:induction false} CompletedDecided(rows: seq<Row>, outcome: bool)
    ensures Decided(Completed(rows), outcome) == Decided(rows, outcome)
  {
    if rows != [] {
      CompletedDecided(rows[1..], outcome);
      var head := if rows[0].premiseUpheld.Some? then [rows[0]] else [];
      DecidedAppend(head, Completed(rows[1..]), outcome);
      if head != [] {
        assert head[1..] == [];
      }
    }
  }

  lemma DecidedAppend(a: seq<Row>, b: seq<Row>, outcome: bool)
    requires |a| <= 1
    ensures Decided(a + b, outcome) == Decided(a, outcome) + Decided(b, outcome)
  {
    if a != [] {
      assert (a + b)[0] == a[0] && (a + b)[1..] == b && a[1..] == [];
    } else {
      assert a + b == b;
    }
  }

  /** The uphold rate is absent exactly when nothing completed, and else a share between 0 and 1. */
  lemma UpholdRateRule(rows: seq<Row>)
    ensures UpholdRate(rows).None? <==> Completed(rows) == []
    ensures UpholdRate(rows).Some? ==> 0.0 <= UpholdRate(rows).value <= 1.0
  {
    OutcomePartition(rows);
    if Completed(rows) != [] {
      RateBounds(|Decided(Completed(rows), true)|, |Completed(rows)|);
    }
  }

  // ---------------------------------------------------------------------------
  // Debaters and debater models
  // ---------------------------------------------------------------------------

  /** One line of the debater table. */
  datatype DebaterStats = DebaterStats(
    name: string,
    n: nat,
    wins: nat,
    winRate: Option<real>,
    avgScore: Option<real>,
    side: Option<string>)

  /** A tally as a table line; the side is only reported for debaters, not for models. */
  function Summary(name: string, d: DebaterTally, withSide: bool): DebaterStats {
    DebaterStats(
      name, d.n, d.wins,
      if d.n > 0 then Some(Rate(d.wins, d.n)) else None,
      if d.scoreN > 0 then Some(d.scoreSum as real / d.scoreN as real) else None,
      if withSide then Some(d.side) else None)
  }

  /** The sort key: the win rate, a missing rate counting as 0. */
  function RateKey(s: DebaterStats): real {
    s.winRate.GetOr(0.0)
  }

  /** The table lines in insertion order, each with its sort key. */
  function DebaterRanking(b: Book<DebaterTally>, withSide: bool): (r: seq<Ranked<DebaterStats>>)
    requires Ordered(b)
    ensures |r| == |b.order|
  {
    seq(|b.order|, i requires 0 <= i < |b.order| =>
      var s := Summary(b.order[i], b.entries[b.order[i]], withSide);
      Ranked(RateKey(s), s))
  }

  /** The debater (or debater-model) lines, by descending win rate. */
  function DebaterOrder(rows: seq<Row>, byModel: bool): seq<Ranked<DebaterStats>> {
    DebaterBookOrdered(rows, byModel);
    Sort(DebaterRanking(DebaterBook(rows, byModel), !byModel))
  }

  function Debaters(rows: seq<Row>, byModel: bool): seq<DebaterStats> {
    Items(DebaterOrder(rows, byModel))
  }

  /** Every sorted entry carries its own line's win rate as key. */
  lemma RanksAreRates(rows: seq<Row>, byModel: bool)
    ensures var sorted := DebaterOrder(rows, byModel);
      forall i :: 0 <= i < |sorted| ==> sorted[i].rank == RateKey(sorted[i].item)
  {
    DebaterBookOrdered(rows, byModel);
    var ranking := DebaterRanking(DebaterBook(rows, byModel), !byModel);
    SortRule(ranking);
    var sorted := DebaterOrder(rows, byModel);
    forall i | 0 <= i < |sorted|
      ensures sorted[i].rank == RateKey(sorted[i].item)
    {
      assert sorted[i] in multiset(ranking);
    }
  }

  /**
   * The lines come by descending win rate (a missing rate as 0), one line per
   * tallied key.
   */
  lemma DebaterOrderRule(rows: seq<Row>, byModel: bool)
    ensures Ordered(DebaterBook(rows, byModel))
    ensures var out := Debaters(rows, byModel);
      |out| == |DebaterBook(rows, byModel).order| &&
      forall i, j :: 0 <= i < j < |out| ==> RateKey(out[i]) >= RateKey(out[j])
  {
    DebaterBookOrdered(rows, byModel);
    var ranking := DebaterRanking(DebaterBook(rows, byModel), !byModel);
    SortRule(ranking);
    RanksAreRates(rows, byModel);
  }

  /**
   * The sorted lines are a permutation of the lines in insertion order, and lines
   * with equal win rates keep the order in which their keys first appeared.
   */
  lemma DebaterOrderStable(rows: seq<Row>, byModel: bool)
    ensures Ordered(DebaterBook(rows, byModel))
    ensures var ranking := DebaterRanking(DebaterBook(rows, byModel), !byModel);
      multiset(DebaterOrder(rows, byModel)) == multiset(ranking) &&
      forall r :: WithRank(DebaterOrder(rows, byModel), r) == WithRank(ranking, r)
  {
    DebaterBookOrdered(rows, byModel);
    SortRule(DebaterRanking(DebaterBook(rows, byModel), !byModel));
  }

  /**
   * Each line is a key that appears in the rows, with its appearances, wins, win
   * rate and average score as counted over every seat, and, for debaters, the side
   * of its first seat; wins never exceed appearances, and the average is absent
   * exactly when no score was received.
   */
  lemma DebaterLines(rows: seq<Row>, byModel: bool, i: nat)
    requires i < |Debaters(rows, byModel)|
    ensures var s, ss := Debaters(rows, byModel)[i], Sittings(rows, byModel);
      var t := TotalsOf(ss, s.name);
      s.name != "" && s.n == t.n > 0 && s.wins == t.wins <= s.n &&
      s.winRate == Some(Rate(t.wins, t.n)) &&
      (s.avgScore.None? <==> t.scoreN == 0) &&
      (t.scoreN > 0 ==> s.avgScore == Some(t.scoreSum as real / t.scoreN as real)) &&
      s.side == (if byModel then None else FirstSide(ss, s.name))
  {
    DebaterBookOrdered(rows, byModel);
    var b := DebaterBook(rows, byModel);
    var ranking := DebaterRanking(b, !byModel);
    SortRule(ranking);
    var x := DebaterOrder(rows, byModel)[i];
    assert x in multiset(ranking);
    var j :| 0 <= j < |ranking| && ranking[j] == x;
    var k := b.order[j];
    DebaterCounts(rows, byModel, k);
  }

  // ---------------------------------------------------------------------------
  // Judges and judge models
  // ---------------------------------------------------------------------------

  /** One line of the judge table. */
  datatype JudgeStats = JudgeStats(
    name: string,
    n: nat,
    upheld: nat,
    rejected: nat,
    completed: nat,
    upholdRate: Option<real>,
    bias: Option<real>)

  /**
   * A tally as a table line: the completed verdicts, their uphold rate, and how far
   * that rate lies from the batch's rate.
   */
  function JudgeSummary(name: string, d: JudgeTally, overall: Option<real>): (s: JudgeStats)
    ensures s.name == name && s.n == d.n && s.upheld == d.upheld && s.rejected == d.rejected
    ensures s.completed == s.upheld + s.rejected
    ensures s.upholdRate.None? <==> s.completed == 0
    ensures s.upholdRate.Some? ==> s.upholdRate.value == Rate(s.upheld, s.completed) && 0.0 <= s.upholdRate.value <= 1.0
    ensures s.bias.Some? <==> s.upholdRate.Some? && overall.Some?
    ensures s.bias.Some? ==> s.bias.value == s.upholdRate.value - overall.value
  {
    var completed := d.upheld + d.rejected;
    var rate := if completed > 0 then RateBounds(d.upheld, completed); Some(Rate(d.upheld, completed)) else None;
    JudgeStats(name, d.n, d.upheld, d.rejected, completed, rate,
               if rate.Some? && overall.Some? then Some(rate.value - overall.value) else None)
  }

  /** The judge tallies in insertion order, each keyed by its number of verdicts. */
  function JudgeRanking(b: Book<JudgeTally>): (r: seq<Ranked<(string, JudgeTally)>>)
    requires Ordered(b)
    ensures |r| == |b.order|
  {
    seq(|b.order|, i requires 0 <= i < |b.order| =>
      Ranked(b.entries[b.order[i]].n as real, (b.order[i], b.entries[b.order[i]])))
  }

  /** The judge tallies by descending number of verdicts. */
  function JudgeOrder(rows: seq<Row>, byModel: bool): seq<Ranked<(string, JudgeTally)>> {
    JudgeBookOrdered(rows, byModel);
    Sort(JudgeRanking(JudgeBook(rows, byModel)))
  }

  /** The judge (or judge-model) lines. */
  function Judges(rows: seq<Row>, byModel: bool, overall: Option<real>): (out: seq<JudgeStats>)
    ensures |out| == |JudgeOrder(rows, byModel)|
  {
    var sorted := JudgeOrder(rows, byModel);
    seq(|sorted|, i requires 0 <= i < |sorted| => JudgeSummary(sorted[i].item.0, sorted[i].item.1, overall))
  }

  /** Builds the judge lines from the sorted tallies, one at a time. */
  method BuildJudges(sorted: seq<Ranked<(string, JudgeTally)>>, overall: Option<real>) returns (judges: seq<JudgeStats>)
    ensures |judges| == |sorted|
    ensures forall i :: 0 <= i < |sorted| ==> judges[i] == JudgeSummary(sorted[i].item.0, sorted[i].item.1, overall)
  {
    judges := [];
    for i := 0 to |sorted|
      invariant |judges| == i
      invariant forall m :: 0 <= m < i ==> judges[m] == JudgeSummary(sorted[m].item.0, sorted[m].item.1, overall)
    {
      var name, d := sorted[i].item.0, sorted[i].item.1;
      var comp := d.upheld + d.rejected;
      var rate: Option<real> := if comp > 0 then Some(Rate(d.upheld, comp)) else None;
      var bias: Option<real> := if rate.Some? && overall.Some? then Some(rate.value - overall.value) else None;
      judges := judges + [JudgeStats(name, d.n, d.upheld, d.rejected, comp, rate, bias)];
    }
  }

  /**
   * The lines come by descending number of verdicts, ties in order of first
   * appearance; each is a key that judged some row, with the number of rows it
   * judged and, among them, those that upheld and those that rejected the premise.
   */
  lemma JudgeLines(rows: seq<Row>, byModel: bool, overall: Option<real>)
    ensures var out := Judges(rows, byModel, overall);
      forall i, j :: 0 <= i < j < |out| ==> out[i].n >= out[j].n
    ensures var out := Judges(rows, byModel, overall);
      forall i :: 0 <= i < |out| ==>
        var mine := JudgedBy(rows, byModel, out[i].name);
        out[i].name != "" && out[i].n == |mine| > 0 &&
        out[i].upheld == Outcomes(mine, true) && out[i].rejected == Outcomes(mine, false) &&
        out[i].completed <= out[i].n
    ensures Ordered(JudgeBook(rows, byModel))
    ensures forall r :: WithRank(JudgeOrder(rows, byModel), r) == WithRank(JudgeRanking(JudgeBook(rows, byModel)), r)
  {
    JudgeBookOrdered(rows, byModel);
    var b := JudgeBook(rows, byModel);
    var ranking := JudgeRanking(b);
    SortRule(ranking);
    var sorted := JudgeOrder(rows, byModel);
    var out := Judges(rows, byModel, overall);
    forall i | 0 <= i < |sorted|
      ensures var k := sorted[i].item.0;
        k in b.entries && sorted[i].item.1 == b.entries[k] && sorted[i].rank == b.entries[k].n as real
    {
      assert sorted[i] in multiset(ranking);
    }
    forall i | 0 <= i < |out|
      ensures var mine := JudgedBy(rows, byModel, out[i].name);
        out[i].name != "" && out[i].n == |mine| > 0 &&
        out[i].upheld == Outcomes(mine, true) && out[i].rejected == Outcomes(mine, false) &&
        out[i].completed <= out[i].n
    {
      var k := sorted[i].item.0;
      JudgeCounts(rows, byModel, k);
      OutcomesBound(JudgedBy(rows, byModel, k));
    }
  }

  /**
   * Each judge line's uphold rate is the share of the verdicts it decided that
   * upheld the premise, absent when it decided none; its bias is that rate minus
   * the batch's rate, present when both are.
   */
  lemma JudgeRates(rows: seq<Row>, byModel: bool, overall: Option<real>)
    ensures var out := Judges(rows, byModel, overall);
      forall i :: 0 <= i < |out| ==>
        var mine := JudgedBy(rows, byModel, out[i].name);
        var c := Outcomes(mine, true) + Outcomes(mine, false);
        out[i].completed == c &&
        out[i].upholdRate == (if c > 0 then Some(Rate(Outcomes(mine, true), c)) else None) &&
        out[i].bias == (if out[i].upholdRate.Some? && overall.Some? then Some(out[i].upholdRate.value - overall.value) else None)
  {
    JudgeLines(rows, byModel, overall);
  }

  // ---------------------------------------------------------------------------
  // Speaking order and sides
  // ---------------------------------------------------------------------------

  /** The rows with both a first speaker and a winner. */
  function OrderRows(rows: seq<Row>): (r: seq<Row>)
    ensures |r| <= |rows|
    ensures forall i :: 0 <= i < |r| ==> Truthy(r[i].firstSpeaker) && Truthy(r[i].winner)
  {
    if rows == [] then []
    else (if Truthy(rows[0].firstSpeaker) && Truthy(rows[0].winner) then [rows[0]] else []) + OrderRows(rows[1..])
  }

  /** The rows won by their first speaker. */
  function FirstSpeakerWins(rows: seq<Row>): (c: nat)
    ensures c <= |rows|
  {
    if rows == [] then 0
    else (if rows[0].winner == rows[0].firstSpeaker then 1 else 0) + FirstSpeakerWins(rows[1..])
  }

  datatype OrderStats = OrderStats(n: nat, firstWins: nat, firstWinRate: real, secondWins: nat, secondWinRate: real)

  /** The speaking-order effect, when some row has both a first speaker and a winner. */
  function Order(rows: seq<Row>): Option<OrderStats> {
    var orderRows := OrderRows(rows);
    if orderRows == [] then None
    else
      var n := |orderRows|;
      var first := FirstSpeakerWins(orderRows);
      Some(OrderStats(n, first, Rate(first, n), n - first, Rate(n - first, n)))
  }

  /** No row has both a first speaker and a winner exactly when none is kept. */
  lemma {:induction false} NoOrderRows(rows: seq<Row>)
    ensures OrderRows(rows) == [] <==>
      forall i :: 0 <= i < |rows| ==> !(Truthy(rows[i].firstSpeaker) && Truthy(rows[i].winner))
  {
    if rows != [] {
      NoOrderRows(rows[1..]);
      assert forall i :: 1 <= i < |rows| ==> rows[i] == rows[1..][i - 1];
    }
  }

  /**
   * There is no speaking-order effect exactly when no row has both a first speaker
   * and a winner; otherwise every such row is won by the first or the second
   * speaker, and the two rates add up to 1.
   */
  lemma OrderRule(rows: seq<Row>)
    ensures Order(rows).None? <==> forall i :: 0 <= i < |rows| ==> !(Truthy(rows[i].firstSpeaker) && Truthy(rows[i].winner))
    ensures Order(rows).Some? ==>
      var o := Order(rows).value;
      o.n == |OrderRows(rows)| && o.firstWins + o.secondWins == o.n &&
      o.firstWinRate + o.secondWinRate == 1.0
  {
    NoOrderRows(rows);
    if Order(rows).Some? {
      var o := Order(rows).value;
      RatesAddUp(o.firstWins, o.secondWins, o.n);
    }
  }

  lemma RatesAddUp(a: nat, b: nat, n: nat)
    requires n > 0 && a + b == n
    ensures Rate(a, n) + Rate(b, n) == 1.0
  {
    var m := n as real;
    DivAdd(a as real, b as real, m);
    assert a as real + b as real == m;
    DivSelf(m);
  }

  lemma DivAdd(p: real, q: real, m: real)
    requires m > 0.0
    ensures p / m + q / m == (p + q) / m
  {
  }

  lemma DivSelf(m: real)
    requires m > 0.0
    ensures m / m == 1.0
  {
  }

  /** The rows with a winner. */
  function SideRows(rows: seq<Row>): (r: seq<Row>)
    ensures |r| <= |rows|
    ensures forall i :: 0 <= i < |r| ==> Truthy(r[i].winner)
  {
    if rows == [] then []
    else (if Truthy(rows[0].winner) then [rows[0]] else []) + SideRows(rows[1..])
  }

  /** The rows won by the debater on the given side. */
  function SideWins(rows: seq<Row>, forSide: bool): (c: nat)
    ensures c <= |rows|
  {
    if rows == [] then 0
    else
      var seat := if forSide then rows[0].agentFor else rows[0].agentAgainst;
      (if rows[0].winner == seat then 1 else 0) + SideWins(rows[1..], forSide)
  }

  datatype SideStats = SideStats(n: nat, forWins: nat, forWinRate: Option<real>, againstWins: nat, againstWinRate: Option<real>)

  function Sides(rows: seq<Row>): SideStats {
    var sideRows := SideRows(rows);
    var n := |sideRows|;
    var forWins, againstWins := SideWins(sideRows, true), SideWins(sideRows, false);
    SideStats(n, forWins, if n > 0 then Some(Rate(forWins, n)) else None,
              againstWins, if n > 0 then Some(Rate(againstWins, n)) else None)
  }

  /** With two different debaters in every row, a win goes to at most one side. */
  lemma {:induction false} SideWinsBound(rows: seq<Row>)
    requires forall i :: 0 <= i < |rows| ==> rows[i].agentFor != rows[i].agentAgainst
    ensures SideWins(rows, true) + SideWins(rows, false) <= |rows|
  {
    if rows != [] {
      SideWinsBound(rows[1..]);
    }
  }

  lemma {:induction false} SideRowsDistinct(rows: seq<Row>)
    requires forall i :: 0 <= i < |rows| ==> rows[i].agentFor != rows[i].agentAgainst
    ensures forall i :: 0 <= i < |SideRows(rows)| ==> SideRows(rows)[i].agentFor != SideRows(rows)[i].agentAgainst
  {
    if rows != [] {
      SideRowsDistinct(rows[1..]);
    }
  }

  /**
   * Each side's wins are at most the rows with a winner, the rates are absent
   * exactly when there is no such row, and, when no row pits a debater against
   * itself, the two sides' wins add up to at most that number.
   */
  lemma SidesRule(rows: seq<Row>)
    ensures var s := Sides(rows);
      s.n == |SideRows(rows)| <= |rows| && s.forWins <= s.n && s.againstWins <= s.n &&
      (s.forWinRate.None? <==> s.n == 0) && (s.againstWinRate.None? <==> s.n == 0)
    ensures (forall i :: 0 <= i < |rows| ==> rows[i].agentFor != rows[i].agentAgainst) ==>
      Sides(rows).forWins + Sides(rows).againstWins <= Sides(rows).n
  {
    if forall i :: 0 <= i < |rows| ==> rows[i].agentFor != rows[i].agentAgainst {
      SideRowsDistinct(rows);
      SideWinsBound(SideRows(rows));
    }
  }

  // ---------------------------------------------------------------------------
  // The whole computation
  // ---------------------------------------------------------------------------

  datatype Stats = Stats(
    total: nat,
    completed: nat,
    upheld: nat,
    rejected: nat,
    upholdRate: Option<real>,
    agents: seq<DebaterStats>,
    judges: seq<JudgeStats>,
    modelDebaters: seq<DebaterStats>,
    modelJudges: seq<JudgeStats>,
    order: Option<OrderStats>,
    sides: SideStats)

  /** The statistics of a batch of rows. */
  function StatsOf(rows: seq<Row>): Stats {
    var completed := Completed(rows);
    var rate := UpholdRate(rows);
    Stats(|rows|, |completed|, |Decided(completed, true)|, |Decided(completed, false)|, rate,
          Debaters(rows, false), Judges(rows, false, rate),
          Debaters(rows, true), Judges(rows, true, rate),
          Order(rows), Sides(rows))
  }

  /** Computes the statistics: the four tallies by loops, the rest as the comprehensions do. */
  method Compute(rows: seq<Row>) returns (s: Stats)
    ensures s == StatsOf(rows)
  {
    var completed := Completed(rows);
    var upheld, rejected := Decided(completed, true), Decided(completed, false);
    var rate: Option<real> := if completed == [] then None else Some(Rate(|upheld|, |completed|));

    var agentBook := TallyDebaters(rows, false);
    DebaterBookOrdered(rows, false);
    var agents := Items(Sort(DebaterRanking(agentBook, true)));

    var judgeBook := TallyJudges(rows, false);
    JudgeBookOrdered(rows, false);
    var judges := BuildJudges(Sort(JudgeRanking(judgeBook)), rate);

    var modelBook := TallyDebaters(rows, true);
    DebaterBookOrdered(rows, true);
    var modelDebaters := Items(Sort(DebaterRanking(modelBook, false)));

    var modelJudgeBook := TallyJudges(rows, true);
    JudgeBookOrdered(rows, true);
    var modelJudges := BuildJudges(Sort(JudgeRanking(modelJudgeBook)), rate);

    assert rate == UpholdRate(rows);
    assert agents == Debaters(rows, false);
    assert modelDebaters == Debaters(rows, true);
    assert judges == Judges(rows, false, rate);
    assert modelJudges == Judges(rows, true, rate);
    s := Stats(|rows|, |completed|, |upheld|, |rejected|, rate, agents, judges, modelDebaters, modelJudges,
               Order(rows), Sides(rows));
  }

  /**
   * The batch totals: every row counts once, every completed row either upheld or
   * rejected the premise, and the uphold rate is absent exactly when nothing
   * completed.
   */
  lemma StatsTotals(rows: seq<Row>)
    ensures var s := StatsOf(rows);
      s.total == |rows| && s.completed <= s.total && s.upheld + s.rejected == s.completed &&
      (s.upholdRate.None? <==> s.completed == 0) &&
      (s.upholdRate.Some? ==> s.upholdRate.value == Rate(s.upheld, s.completed))
  {
    OutcomePartition(rows);
  }
}
