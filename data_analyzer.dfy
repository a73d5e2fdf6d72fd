/** The data analyzer's integer core: finding a month from a question's month words, the
    first month holding the highest or lowest timely count, the month with the highest
    not-timely share, and the order in which `answerQuestion` picks the kind of answer. */
module DataAnalyzer {
  import opened Common
  import InvestigationData

  // ---------------------------------------------------------------------------
  // findMonthIndex
  // ---------------------------------------------------------------------------

  /** `s.substring(0, 3)`: the first three characters, or all of them when there are fewer. */
  function FirstThree(s: string): (r: string)
    ensures |r| == if |s| < 3 then |s| else 3
    ensures r == s[..|r|]
  {
    if |s| < 3 then s else s[..3]
  }

  /** The test `findMonthIndex` applies to one label, for the lower-cased search string `q`:
      the label's lower-case form contains the first three characters of `q`, and `q` and the
      label share the year "21" or the year "22". */
  predicate MonthMatches(name: string, q: string)
  {
    Contains(Lower(name), FirstThree(q))
    && ((Contains(q, "21") && Contains(name, "21")) || (Contains(q, "22") && Contains(name, "22")))
  }

  /** The first position at or after `from` whose label matches, -1 when there is none. */
  function FirstMatchFrom(months: seq<string>, q: string, from: nat): (r: int)
    requires from <= |months|
    ensures r == -1 || from <= r < |months|
    ensures r == -1 ==> forall j :: from <= j < |months| ==> !MonthMatches(months[j], q)
    ensures r != -1 ==> MonthMatches(months[r], q)
                        && forall j :: from <= j < r ==> !MonthMatches(months[j], q)
    decreases |months| - from
  {
    if from == |months| then -1
    else if MonthMatches(months[from], q) then from
    else FirstMatchFrom(months, q, from + 1)
  }

  /** What `findMonthIndex(monthStr)` computes: the first month matching the lower-cased
      search string, -1 when none does. */
  function MonthIndex(months: seq<string>, monthStr: string): (r: int)
    ensures r == -1 || 0 <= r < |months|
    ensures r == -1 <==> forall j :: 0 <= j < |months| ==> !MonthMatches(months[j], Lower(monthStr))
    ensures r != -1 ==> MonthMatches(months[r], Lower(monthStr))
                        && forall j :: 0 <= j < r ==> !MonthMatches(months[j], Lower(monthStr))
  {
    FirstMatchFrom(months, Lower(monthStr), 0)
  }

  /** A search string with neither "21" nor "22" never finds a month. */
  lemma NoYearNoMonth(months: seq<string>, monthStr: string)
    requires !Contains(Lower(monthStr), "21") && !Contains(Lower(monthStr), "22")
    ensures MonthIndex(months, monthStr) == -1
  {
  }

  /** `findMonthIndex(monthStr)`: scans the months in order and returns at the first one
      whose label contains the search's first three letters and shares its year. */
  method FindMonthIndex(months: seq<string>, monthStr: string) returns (index: int)
    ensures index == MonthIndex(months, monthStr)
  {
    var searchLower := Lower(monthStr);
    var i := 0;
    while i < |months|
      invariant 0 <= i <= |months|
      invariant forall j :: 0 <= j < i ==> !MonthMatches(months[j], searchLower)
    {
      if Contains(Lower(months[i]), FirstThree(searchLower)) {
        if Contains(searchLower, "21") && Contains(months[i], "21") {
          return i;
        }
        if Contains(searchLower, "22") && Contains(months[i], "22") {
          return i;
        }
      }
      i := i + 1;
    }
    return -1;
  }

  // ---------------------------------------------------------------------------
  // Peak and lowest timely month: Math.max / Math.min, then indexOf
  // ---------------------------------------------------------------------------

  /** `Math.max(...xs)` on a non-empty series. */
  function MaxOf(xs: seq<nat>): (m: nat)
    requires |xs| > 0
    ensures m in xs
    ensures forall i :: 0 <= i < |xs| ==> xs[i] <= m
  {
    if |xs| == 1 then xs[0]
    else var rest := MaxOf(xs[1..]); if xs[0] >= rest then xs[0] else rest
  }

  /** `Math.min(...xs)` on a non-empty series. */
  function MinOf(xs: seq<nat>): (m: nat)
    requires |xs| > 0
    ensures m in xs
    ensures forall i :: 0 <= i < |xs| ==> m <= xs[i]
  {
    if |xs| == 1 then xs[0]
    else var rest := MinOf(xs[1..]); if xs[0] <= rest then xs[0] else rest
  }

  /** `xs.indexOf(v)`: the first position holding `v`, -1 when there is none. */
  function IndexOf(xs: seq<nat>, v: nat): (r: int)
    ensures r == -1 <==> v !in xs
    ensures r != -1 ==> 0 <= r < |xs| && xs[r] == v && forall j :: 0 <= j < r ==> xs[j] != v
  {
    if xs == [] then -1
    else if xs[0] == v then 0
    else var rest := IndexOf(xs[1..], v); if rest == -1 then -1 else rest + 1
  }

  /** The peak month: the first position holding the largest count; every earlier count is
      strictly smaller and no count is larger. */
  function PeakIndex(xs: seq<nat>): (r: nat)
    requires |xs| > 0
    ensures r < |xs|
    ensures forall j :: 0 <= j < |xs| ==> xs[j] <= xs[r]
    ensures forall j :: 0 <= j < r ==> xs[j] < xs[r]
  {
    IndexOf(xs, MaxOf(xs))
  }

  /** The lowest month: the first position holding the smallest count; every earlier count is
      strictly larger and no count is smaller. */
  function LowestIndex(xs: seq<nat>): (r: nat)
    requires |xs| > 0
    ensures r < |xs|
    ensures forall j :: 0 <= j < |xs| ==> xs[r] <= xs[j]
    ensures forall j :: 0 <= j < r ==> xs[r] < xs[j]
  {
    IndexOf(xs, MinOf(xs))
  }

  /** The first position holding the maximum is determined by the counts alone: any position
      with no larger count anywhere and only smaller counts before it is the peak. */
  lemma PeakIndexUnique(xs: seq<nat>, k: nat)
    requires k < |xs|
    requires forall j :: 0 <= j < |xs| ==> xs[j] <= xs[k]
    requires forall j :: 0 <= j < k ==> xs[j] < xs[k]
    ensures PeakIndex(xs) == k
  {
    var p := PeakIndex(xs);
    assert xs[p] <= xs[k] && xs[k] <= xs[p];
  }

  /** The lowest position is determined by the counts alone, as for the peak. */
  lemma LowestIndexUnique(xs: seq<nat>, k: nat)
    requires k < |xs|
    requires forall j :: 0 <= j < |xs| ==> xs[k] <= xs[j]
    requires forall j :: 0 <= j < k ==> xs[k] < xs[j]
    ensures LowestIndex(xs) == k
  {
    var p := LowestIndex(xs);
    assert xs[p] <= xs[k] && xs[k] <= xs[p];
  }

  /** On the investigation table the peak timely month is the last, December 2022 (1737). */
  lemma TimelyPeak()
    ensures PeakIndex(InvestigationData.Timely) == 23
  {
    var xs := InvestigationData.Timely;
    assert forall j :: 0 <= j < |xs| ==> xs[j] <= xs[23];
    assert forall j :: 0 <= j < 23 ==> xs[j] < xs[23];
    PeakIndexUnique(xs, 23);
  }

  /** On the investigation table the lowest timely month is the first, January 2021 (45). */
  lemma TimelyLowest()
    ensures LowestIndex(InvestigationData.Timely) == 0
  {
    var xs := InvestigationData.Timely;
    assert forall j :: 0 <= j < |xs| ==> xs[0] <= xs[j];
    LowestIndexUnique(xs, 0);
  }

  // ---------------------------------------------------------------------------
  // The month with the highest not-timely share (findExtremes)
  // ---------------------------------------------------------------------------

  /** The three counts of a record added up, as the loop does. */
  function RecordSum(m: InvestigationData.MonthRecord): nat
  {
    m.timely + m.notTimely + m.pending
  }

  /** `a`'s not-timely share is above `n / d` (for `d > 0`), compared exactly. A month
      without referrals has the share `NaN`, which is above nothing. */
  predicate ShareAbove(a: InvestigationData.MonthRecord, n: nat, d: nat)
  {
    RecordSum(a) > 0 && a.notTimely * d > n * RecordSum(a)
  }

  /** The month the loop settles on: `index` is -1 (month `''`) when no share is above 0;
      otherwise its share is above 0, no share is above it, and every earlier month with
      referrals has a share below it, so it is the first month with the highest share. */
  predicate HighestShareAt(records: seq<InvestigationData.MonthRecord>, index: int)
  {
    && -1 <= index < |records|
    && (index == -1 ==> forall j :: 0 <= j < |records| ==> !ShareAbove(records[j], 0, 1))
    && (index >= 0 ==>
          ShareAbove(records[index], 0, 1)
          && (forall j :: 0 <= j < |records| ==>
                !ShareAbove(records[j], records[index].notTimely, RecordSum(records[index])))
          && (forall j :: 0 <= j < index ==>
                RecordSum(records[j]) == 0
                || ShareAbove(records[index], records[j].notTimely, RecordSum(records[j]))))
  }

  /** A share above `n / d` is above every share that is not. */
  lemma ShareChain(a: InvestigationData.MonthRecord, n: nat, d: nat, c: InvestigationData.MonthRecord)
    requires d > 0 && ShareAbove(a, n, d) && !ShareAbove(c, n, d)
    ensures !ShareAbove(c, a.notTimely, RecordSum(a))
    ensures RecordSum(c) == 0 || ShareAbove(a, c.notTimely, RecordSum(c))
  {
    var sa, sc := RecordSum(a), RecordSum(c);
    if sc > 0 {
      MulStrict(a.notTimely * d, n * sa, sc);
      MulMonoNat(c.notTimely * d, n * sc, sa);
      assert a.notTimely * sc * d > c.notTimely * sa * d;
      if a.notTimely * sc <= c.notTimely * sa {
        MulMonoNat(a.notTimely * sc, c.notTimely * sa, d);
      }
    }
  }

  /** Multiplying a strict inequality by a positive number. */
  lemma MulStrict(x: int, y: int, k: int)
    requires x > y && k > 0
    ensures x * k > y * k
  {
  }

  /** Multiplying a non-strict inequality by a non-negative number. */
  lemma MulMonoNat(x: int, y: int, k: int)
    requires x <= y && k >= 0
    ensures x * k <= y * k
  {
  }

  /** The state of the loop after the months before `i`: the best share so far is `n / d`,
      the share of the month at `index` (0 / 1 before any month was kept). */
  predicate LoopState(records: seq<InvestigationData.MonthRecord>, i: nat, index: int, n: nat, d: nat)
  {
    && i <= |records| && d > 0
    && HighestShareAt(records[..i], index)
    && (index == -1 ==> n == 0 && d == 1)
    && (index >= 0 ==> n == records[index].notTimely && d == RecordSum(records[index]))
  }

  /** A month whose share is above the best so far becomes the best. */
  lemma NewBest(records: seq<InvestigationData.MonthRecord>, i: nat, index: int, n: nat, d: nat)
    requires i < |records| && LoopState(records, i, index, n, d) && ShareAbove(records[i], n, d)
    ensures LoopState(records, i + 1, i, records[i].notTimely, RecordSum(records[i]))
  {
    var m := records[i];
    assert records[..i + 1] == records[..i] + [m];
    forall j | 0 <= j < i
      ensures !ShareAbove(records[j], m.notTimely, RecordSum(m))
      ensures RecordSum(records[j]) == 0 || ShareAbove(m, records[j].notTimely, RecordSum(records[j]))
    {
      assert records[..i][j] == records[j];
      ShareChain(m, n, d, records[j]);
    }
  }

  /** A month whose share is not above the best so far leaves the best as it is. */
  lemma KeepBest(records: seq<InvestigationData.MonthRecord>, i: nat, index: int, n: nat, d: nat)
    requires i < |records| && LoopState(records, i, index, n, d) && !ShareAbove(records[i], n, d)
    ensures LoopState(records, i + 1, index, n, d)
  {
    assert records[..i + 1] == records[..i] + [records[i]];
    assert forall j :: 0 <= j < i ==> records[..i + 1][j] == records[..i][j];
  }

  /** `findExtremes`' loop: keeps the month whose not-timely share is strictly above the
      best so far, starting from 0 and `''`. */
  method HighestNotTimelyShare(records: seq<InvestigationData.MonthRecord>) returns (index: int, month: string)
    ensures HighestShareAt(records, index)
    ensures month == if index == -1 then "" else records[index].month
  {
    var bestN: nat, bestD: nat := 0, 1;
    index, month := -1, "";
    var i := 0;
    while i < |records|
      invariant 0 <= i <= |records|
      invariant LoopState(records, i, index, bestN, bestD)
      invariant month == if index == -1 then "" else records[index].month
    {
      var m := records[i];
      var total := m.timely + m.notTimely + m.pending;
      if total > 0 && m.notTimely * bestD > bestN * total {
        NewBest(records, i, index, bestN, bestD);
        index, month, bestN, bestD := i, m.month, m.notTimely, total;
      } else {
        KeepBest(records, i, index, bestN, bestD);
      }
      i := i + 1;
    }
    assert records[..i] == records;
  }

  // ---------------------------------------------------------------------------
  // answerQuestion: which kind of answer
  // ---------------------------------------------------------------------------

  /** One detected anomaly, as far as the answer shows it. */
  datatype Anomaly = Anomaly(month: string, category: string, kind: string)

  /** The kinds of answer `answerQuestion` gives, with the values they depend on. */
  datatype Answer =
    | HighestTimely(month: string, count: nat)
    | LowestTimely(month: string, count: nat)
    | NoAnomalies
    | AnomalyList(found: nat, shown: seq<Anomaly>)
    | Trends
    | ExecutiveSummary
    | MonthDetail(record: InvestigationData.MonthRecord)
    | CurrentPercentages
    | Comparison
    | June2022
    | December2022
    | DefaultHelp

  /** `answerQuestion(question)` on a table with at least one month. Two inputs computed
      elsewhere are parameters: `monthMatch`, the first match of the month pattern in the
      lower-cased question, and `anomalies`, what `detectAnomalies` reports. The branches
      are taken in this order, the first that applies deciding the answer. */
  function AnswerQuestion(t: InvestigationData.Table, question: string, monthMatch: Option<string>,
                          anomalies: seq<Anomaly>): (a: Answer)
    requires t.WellFormed() && |t.months| > 0
    ensures a.AnomalyList? ==> |a.shown| <= 5 && a.shown <= anomalies && a.found == |anomalies| > 0
    ensures a.HighestTimely? || a.LowestTimely? ==> !Contains(Lower(question), "not")
  {
    var q := Lower(question);
    if Contains(q, "highest") && Contains(q, "timely") && !Contains(q, "not") then
      var i := PeakIndex(t.timely);
      HighestTimely(t.months[i], t.timely[i])
    else if Contains(q, "lowest") && Contains(q, "timely") && !Contains(q, "not") then
      var i := LowestIndex(t.timely);
      LowestTimely(t.months[i], t.timely[i])
    else if Contains(q, "anomal") || Contains(q, "unusual") || Contains(q, "outlier") then
      if |anomalies| == 0 then NoAnomalies
      else AnomalyList(|anomalies|, if |anomalies| <= 5 then anomalies else anomalies[..5])
    else if Contains(q, "trend") then Trends
    else if Contains(q, "summar") || Contains(q, "overview") || Contains(q, "executive") then
      ExecutiveSummary
    else if monthMatch.Some? && MonthIndex(t.months, monthMatch.value) != -1 then
      MonthDetail(InvestigationData.MonthlyTotals(t)[MonthIndex(t.months, monthMatch.value)])
    else if Contains(q, "percent") then CurrentPercentages
    else if Contains(q, "compare") || Contains(q, "vs") || Contains(q, "versus") then Comparison
    else if Contains(q, "june") && Contains(q, "2022") && (Contains(q, "increase") || Contains(q, "why")) then
      June2022
    else if Contains(q, "december") && Contains(q, "2022") then December2022
    else DefaultHelp
  }

  // ---------------------------------------------------------------------------
  // An independent statement of the routing: a guard per branch and their order
  // ---------------------------------------------------------------------------

  /** The branches of `answerQuestion`, one per kind of answer (the anomaly branch gives
      either of its two answers). */
  datatype Branch =
    | HighestBranch | LowestBranch | AnomalyBranch | TrendBranch | SummaryBranch | MonthBranch
    | PercentBranch | CompareBranch | JuneBranch | DecemberBranch | HelpBranch

  /** The test that sends a lower-cased question `q` to a branch; the help branch takes
      anything. */
  predicate Guard(q: string, months: seq<string>, monthMatch: Option<string>, b: Branch)
  {
    match b
    case HighestBranch => Contains(q, "highest") && Contains(q, "timely") && !Contains(q, "not")
    case LowestBranch => Contains(q, "lowest") && Contains(q, "timely") && !Contains(q, "not")
    case AnomalyBranch => Contains(q, "anomal") || Contains(q, "unusual") || Contains(q, "outlier")
    case TrendBranch => Contains(q, "trend")
    case SummaryBranch => Contains(q, "summar") || Contains(q, "overview") || Contains(q, "executive")
    case MonthBranch => monthMatch.Some? && MonthIndex(months, monthMatch.value) != -1
    case PercentBranch => Contains(q, "percent")
    case CompareBranch => Contains(q, "compare") || Contains(q, "vs") || Contains(q, "versus")
    case JuneBranch => Contains(q, "june") && Contains(q, "2022") && (Contains(q, "increase") || Contains(q, "why"))
    case DecemberBranch => Contains(q, "december") && Contains(q, "2022")
    case HelpBranch => true
  }

  /** The order in which the branches are tried; the help branch is what is left. */
  const Routing: seq<Branch> := [HighestBranch, LowestBranch, AnomalyBranch, TrendBranch, SummaryBranch,
                                 MonthBranch, PercentBranch, CompareBranch, JuneBranch, DecemberBranch]

  /** The first branch of `order` whose guard holds, the help branch when none does. */
  function FirstBranch(q: string, months: seq<string>, monthMatch: Option<string>, order: seq<Branch>): Branch
  {
    if order == [] then HelpBranch
    else if Guard(q, months, monthMatch, order[0]) then order[0]
    else FirstBranch(q, months, monthMatch, order[1..])
  }

  /** The branch an answer comes from. */
  function BranchOf(a: Answer): (b: Branch)
    ensures b == AnomalyBranch <==> a.NoAnomalies? || a.AnomalyList?
    ensures b == HelpBranch <==> a.DefaultHelp?
  {
    match a
    case HighestTimely(_, _) => HighestBranch
    case LowestTimely(_, _) => LowestBranch
    case NoAnomalies => AnomalyBranch
    case AnomalyList(_, _) => AnomalyBranch
    case Trends => TrendBranch
    case ExecutiveSummary => SummaryBranch
    case MonthDetail(_) => MonthBranch
    case CurrentPercentages => PercentBranch
    case Comparison => CompareBranch
    case June2022 => JuneBranch
    case December2022 => DecemberBranch
    case DefaultHelp => HelpBranch
  }

  /** The routing list names every branch but the help branch, each exactly once. */
  lemma RoutingListsEveryBranch(b: Branch)
    ensures b in Routing <==> b != HelpBranch
    ensures forall i, j :: 0 <= i < j < |Routing| ==> Routing[i] != Routing[j]
  {
  }

  /** No branch before position `k` of `order` applies. */
  predicate NoEarlierGuard(q: string, months: seq<string>, monthMatch: Option<string>, order: seq<Branch>, k: nat)
  {
    forall j :: 0 <= j < k && j < |order| ==> !Guard(q, months, monthMatch, order[j])
  }

  /** First branch, stated by position: the result is the branch at the first position of
      the list whose guard holds, and the help branch when no position's guard holds. */
  lemma {:induction false} FirstBranchIsFirst(q: string, months: seq<string>, monthMatch: Option<string>,
                                              order: seq<Branch>)
    ensures NoEarlierGuard(q, months, monthMatch, order, |order|) ==> FirstBranch(q, months, monthMatch, order) == HelpBranch
    ensures forall k :: 0 <= k < |order| && Guard(q, months, monthMatch, order[k])
                        && NoEarlierGuard(q, months, monthMatch, order, k) ==>
              FirstBranch(q, months, monthMatch, order) == order[k]
  {
    if order != [] {
      FirstBranchIsFirst(q, months, monthMatch, order[1..]);
      forall k: nat | k <= |order|
        ensures NoEarlierGuard(q, months, monthMatch, order, k) && k > 0 ==>
                NoEarlierGuard(q, months, monthMatch, order[1..], k - 1)
      {
        if NoEarlierGuard(q, months, monthMatch, order, k) && k > 0 {
          forall j | 0 <= j < k - 1 && j < |order[1..]|
            ensures !Guard(q, months, monthMatch, order[1..][j])
          {
            assert order[1..][j] == order[j + 1];
          }
        }
      }
      assert NoEarlierGuard(q, months, monthMatch, order, |order|) ==> !Guard(q, months, monthMatch, order[0]);
    }
  }

  /** The routing list tried step by step: a chain of tests in routing order. */
  lemma RoutingUnfolds(q: string, m: seq<string>, mm: Option<string>)
    ensures FirstBranch(q, m, mm, Routing)
            == if Guard(q, m, mm, HighestBranch) then HighestBranch
            else if Guard(q, m, mm, LowestBranch) then LowestBranch
            else if Guard(q, m, mm, AnomalyBranch) then AnomalyBranch
            else if Guard(q, m, mm, TrendBranch) then TrendBranch
            else if Guard(q, m, mm, SummaryBranch) then SummaryBranch
            else if Guard(q, m, mm, MonthBranch) then MonthBranch
            else if Guard(q, m, mm, PercentBranch) then PercentBranch
            else if Guard(q, m, mm, CompareBranch) then CompareBranch
            else if Guard(q, m, mm, JuneBranch) then JuneBranch
            else if Guard(q, m, mm, DecemberBranch) then DecemberBranch
            else HelpBranch
  {
    assert FirstBranch(q, m, mm, Routing) == if Guard(q, m, mm, HighestBranch) then HighestBranch else FirstBranch(q, m, mm, [LowestBranch, AnomalyBranch, TrendBranch, SummaryBranch, MonthBranch, PercentBranch, CompareBranch, JuneBranch, DecemberBranch]);
    assert FirstBranch(q, m, mm, [LowestBranch, AnomalyBranch, TrendBranch, SummaryBranch, MonthBranch, PercentBranch, CompareBranch, JuneBranch, DecemberBranch]) == if Guard(q, m, mm, LowestBranch) then LowestBranch else FirstBranch(q, m, mm, [AnomalyBranch, TrendBranch, SummaryBranch, MonthBranch, PercentBranch, CompareBranch, JuneBranch, DecemberBranch]);
    assert FirstBranch(q, m, mm, [AnomalyBranch, TrendBranch, SummaryBranch, MonthBranch, PercentBranch, CompareBranch, JuneBranch, DecemberBranch]) == if Guard(q, m, mm, AnomalyBranch) then AnomalyBranch else FirstBranch(q, m, mm, [TrendBranch, SummaryBranch, MonthBranch, PercentBranch, CompareBranch, JuneBranch, DecemberBranch]);
    assert FirstBranch(q, m, mm, [TrendBranch, SummaryBranch, MonthBranch, PercentBranch, CompareBranch, JuneBranch, DecemberBranch]) == if Guard(q, m, mm, TrendBranch) then TrendBranch else FirstBranch(q, m, mm, [SummaryBranch, MonthBranch, PercentBranch, CompareBranch, JuneBranch, DecemberBranch]);
    assert FirstBranch(q, m, mm, [SummaryBranch, MonthBranch, PercentBranch, CompareBranch, JuneBranch, DecemberBranch]) == if Guard(q, m, mm, SummaryBranch) then SummaryBranch else FirstBranch(q, m, mm, [MonthBranch, PercentBranch, CompareBranch, JuneBranch, DecemberBranch]);
    assert FirstBranch(q, m, mm, [MonthBranch, PercentBranch, CompareBranch, JuneBranch, DecemberBranch]) == if Guard(q, m, mm, MonthBranch) then MonthBranch else FirstBranch(q, m, mm, [PercentBranch, CompareBranch, JuneBranch, DecemberBranch]);
    assert FirstBranch(q, m, mm, [PercentBranch, CompareBranch, JuneBranch, DecemberBranch]) == if Guard(q, m, mm, PercentBranch) then PercentBranch else FirstBranch(q, m, mm, [CompareBranch, JuneBranch, DecemberBranch]);
    assert FirstBranch(q, m, mm, [CompareBranch, JuneBranch, DecemberBranch]) == if Guard(q, m, mm, CompareBranch) then CompareBranch else FirstBranch(q, m, mm, [JuneBranch, DecemberBranch]);
    assert FirstBranch(q, m, mm, [JuneBranch, DecemberBranch]) == if Guard(q, m, mm, JuneBranch) then JuneBranch else FirstBranch(q, m, mm, [DecemberBranch]);
    assert FirstBranch(q, m, mm, [DecemberBranch]) == if Guard(q, m, mm, DecemberBranch) then DecemberBranch else FirstBranch(q, m, mm, []);
    assert FirstBranch(q, m, mm, []) == HelpBranch;
  }

  /** `answerQuestion` answers from the first branch, in routing order, whose guard holds on
      the lower-cased question. */
  lemma AnswerIsFirstBranch(t: InvestigationData.Table, question: string, monthMatch: Option<string>,
                            anomalies: seq<Anomaly>)
    requires t.WellFormed() && |t.months| > 0
    ensures BranchOf(AnswerQuestion(t, question, monthMatch, anomalies))
            == FirstBranch(Lower(question), t.months, monthMatch, Routing)
  {
    RoutingUnfolds(Lower(question), t.months, monthMatch);
  }

  // ---------------------------------------------------------------------------
  // Properties of the answers
  // ---------------------------------------------------------------------------

  /** The highest-timely answer names the first month holding the largest timely count. */
  lemma HighestTimelyAnswer(t: InvestigationData.Table, question: string, monthMatch: Option<string>,
                            anomalies: seq<Anomaly>)
    requires t.WellFormed() && |t.months| > 0
    requires var q := Lower(question); Contains(q, "highest") && Contains(q, "timely") && !Contains(q, "not")
    ensures var a, i := AnswerQuestion(t, question, monthMatch, anomalies), PeakIndex(t.timely);
      && a.HighestTimely? && a.month == t.months[i] && a.count == t.timely[i]
      && (forall j :: 0 <= j < |t.timely| ==> t.timely[j] <= a.count)
      && (forall j :: 0 <= j < i ==> t.timely[j] < a.count)
  {
  }

  /** The lowest-timely answer names the first month holding the smallest timely count. */
  lemma LowestTimelyAnswer(t: InvestigationData.Table, question: string, monthMatch: Option<string>,
                           anomalies: seq<Anomaly>)
    requires t.WellFormed() && |t.months| > 0
    requires var q := Lower(question);
      && Contains(q, "lowest") && Contains(q, "timely") && !Contains(q, "not") && !Contains(q, "highest")
    ensures var a, i := AnswerQuestion(t, question, monthMatch, anomalies), LowestIndex(t.timely);
      && a.LowestTimely? && a.month == t.months[i] && a.count == t.timely[i]
      && (forall j :: 0 <= j < |t.timely| ==> a.count <= t.timely[j])
      && (forall j :: 0 <= j < i ==> a.count < t.timely[j])
  {
  }

  /** The anomaly words come before "trend": a question with both (and neither "highest"
      nor "lowest") gets the anomaly answer. */
  lemma AnomalyBeforeTrend(t: InvestigationData.Table, question: string, monthMatch: Option<string>,
                           anomalies: seq<Anomaly>)
    requires t.WellFormed() && |t.months| > 0
    requires var q := Lower(question);
      && (Contains(q, "anomal") || Contains(q, "unusual") || Contains(q, "outlier")) && Contains(q, "trend")
      && !Contains(q, "highest") && !Contains(q, "lowest")
    ensures var a := AnswerQuestion(t, question, monthMatch, anomalies);
      if |anomalies| == 0 then a == NoAnomalies else a.AnomalyList? && a.found == |anomalies|
  {
  }

  /** "trend" and the summary words come before the month words: such a question gets the
      trends or the summary even when its month words find a month. */
  lemma TrendAndSummaryBeforeMonth(t: InvestigationData.Table, question: string, monthMatch: Option<string>,
                                   anomalies: seq<Anomaly>)
    requires t.WellFormed() && |t.months| > 0
    requires var q := Lower(question);
      && !Contains(q, "highest") && !Contains(q, "lowest")
      && !Contains(q, "anomal") && !Contains(q, "unusual") && !Contains(q, "outlier")
    requires monthMatch.Some? && MonthIndex(t.months, monthMatch.value) != -1
    ensures var q, a := Lower(question), AnswerQuestion(t, question, monthMatch, anomalies);
      && (Contains(q, "trend") ==> a == Trends)
      && ((!Contains(q, "trend") && (Contains(q, "summar") || Contains(q, "overview") || Contains(q, "executive")))
            ==> a == ExecutiveSummary)
  {
  }

  /** Month words that find a month come before "percent" and every later word. */
  lemma MonthBeforePercent(t: InvestigationData.Table, question: string, monthMatch: Option<string>,
                           anomalies: seq<Anomaly>)
    requires t.WellFormed() && |t.months| > 0
    requires var q := Lower(question);
      && !Contains(q, "highest") && !Contains(q, "lowest")
      && !Contains(q, "anomal") && !Contains(q, "unusual") && !Contains(q, "outlier")
      && !Contains(q, "trend") && !Contains(q, "summar") && !Contains(q, "overview") && !Contains(q, "executive")
    requires monthMatch.Some? && MonthIndex(t.months, monthMatch.value) != -1
    ensures AnswerQuestion(t, question, monthMatch, anomalies).MonthDetail?
  {
  }

  /** "percent" comes before the comparison words. */
  lemma PercentBeforeCompare(t: InvestigationData.Table, question: string, monthMatch: Option<string>,
                             anomalies: seq<Anomaly>)
    requires t.WellFormed() && |t.months| > 0
    requires var q := Lower(question);
      && !Contains(q, "highest") && !Contains(q, "lowest")
      && !Contains(q, "anomal") && !Contains(q, "unusual") && !Contains(q, "outlier")
      && !Contains(q, "trend") && !Contains(q, "summar") && !Contains(q, "overview") && !Contains(q, "executive")
      && Contains(q, "percent")
    requires monthMatch.None? || MonthIndex(t.months, monthMatch.value) == -1
    ensures AnswerQuestion(t, question, monthMatch, anomalies) == CurrentPercentages
  {
  }

  /** The June 2022 question comes before the December 2022 one: a question with "june",
      "2022", "increase" or "why", and "december", and none of the earlier words, is
      answered about June. */
  lemma JuneBeforeDecember(t: InvestigationData.Table, question: string, monthMatch: Option<string>,
                           anomalies: seq<Anomaly>)
    requires t.WellFormed() && |t.months| > 0
    requires var q := Lower(question);
      && !Contains(q, "highest") && !Contains(q, "lowest")
      && !Contains(q, "anomal") && !Contains(q, "unusual") && !Contains(q, "outlier")
      && !Contains(q, "trend") && !Contains(q, "summar") && !Contains(q, "overview") && !Contains(q, "executive")
      && !Contains(q, "percent") && !Contains(q, "compare") && !Contains(q, "vs") && !Contains(q, "versus")
      && Contains(q, "june") && Contains(q, "2022") && (Contains(q, "increase") || Contains(q, "why"))
      && Contains(q, "december")
    requires monthMatch.None? || MonthIndex(t.months, monthMatch.value) == -1
    ensures AnswerQuestion(t, question, monthMatch, anomalies) == June2022
  {
  }

  /** A month answer carries the record of the first month the month words find. */
  lemma MonthDetailAnswer(t: InvestigationData.Table, question: string, monthMatch: Option<string>,
                          anomalies: seq<Anomaly>)
    requires t.WellFormed() && |t.months| > 0
    ensures var a := AnswerQuestion(t, question, monthMatch, anomalies);
      a.MonthDetail? ==>
        && monthMatch.Some?
        && var i := MonthIndex(t.months, monthMatch.value);
        && 0 <= i < |t.months|
        && a.record.month == t.months[i] && a.record.timely == t.timely[i]
        && a.record.notTimely == t.notTimely[i] && a.record.pending == t.pending[i]
        && a.record.total == t.timely[i] + t.notTimely[i] + t.pending[i]
  {
  }

  /** A question that mentions none of the words of any branch, and has no month words that
      find a month, gets the fixed help text. */
  lemma DefaultWhenNothingMatches(t: InvestigationData.Table, question: string, monthMatch: Option<string>,
                                  anomalies: seq<Anomaly>)
    requires t.WellFormed() && |t.months| > 0
    requires var q := Lower(question);
      && !Contains(q, "highest") && !Contains(q, "lowest")
      && !Contains(q, "anomal") && !Contains(q, "unusual") && !Contains(q, "outlier")
      && !Contains(q, "trend") && !Contains(q, "summar") && !Contains(q, "overview") && !Contains(q, "executive")
      && !Contains(q, "percent") && !Contains(q, "compare") && !Contains(q, "vs") && !Contains(q, "versus")
      && !Contains(q, "june") && !Contains(q, "december")
    requires monthMatch.None? || MonthIndex(t.months, monthMatch.value) == -1
    ensures AnswerQuestion(t, question, monthMatch, anomalies) == DefaultHelp
  {
  }

  /** The anomaly answer lists the first five anomalies when there are more than five, and
      all of them otherwise. */
  lemma AnomalyAnswerPrefix(t: InvestigationData.Table, question: string, monthMatch: Option<string>,
                            anomalies: seq<Anomaly>)
    requires t.WellFormed() && |t.months| > 0
    ensures var a := AnswerQuestion(t, question, monthMatch, anomalies);
      a.AnomalyList? ==> a.shown == anomalies[..if |anomalies| < 5 then |anomalies| else 5]
  {
  }

  /** "Highest not timely" mentions "not", so it is never answered with the highest timely
      month. */
  lemma NotExcludesTimelyBranches()
    ensures !AnswerQuestion(InvestigationData.Data, "highest not timely", None, []).HighestTimely?
  {
    var q := "highest not timely";
    LowerOfLowercase(q);
    ContainsWitness(q, "not", 8);
  }

  /** On the investigation table "highest timely" is answered with December 2022 and 1737. */
  lemma HighestTimelyOnTable()
    ensures AnswerQuestion(InvestigationData.Data, "highest timely", None, []) == HighestTimely("Dec 22", 1737)
  {
    var q := "highest timely";
    LowerOfLowercase(q);
    ContainsWitness(q, "highest", 0);
    ContainsWitness(q, "timely", 8);
    NotContainsChar(q, "not", 1);
    TimelyPeak();
  }
}
