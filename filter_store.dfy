/** The centralized filter state of the dashboard: a date window, a display mode and one
    visibility flag per category over a fixed table of monthly counts, a list of listeners that
    are called with a freshly derived view after every change, and the derived view itself.
    The store is written once over any table (`Dataset`) and instantiated with the screening
    table in module SdmScreening. */
module FilterStore {
  import opened Common

  /** The static description of one series: its id, display name and colour. */
  datatype CategoryDescriptor = CategoryDescriptor(id: string, name: string, color: string)

  /** A fixed table: period labels, and one count series per category in descriptor order. */
  datatype Dataset = Dataset(title: string, labels: seq<string>,
                             descriptors: seq<CategoryDescriptor>, series: seq<seq<nat>>)
  {
    /** One series per descriptor, every series as long as the labels, distinct ids. */
    predicate WellFormed()
    {
      |series| == |descriptors|
      && (forall c :: 0 <= c < |series| ==> |series[c]| == |labels|)
      && (forall c, d :: 0 <= c < d < |descriptors| ==> descriptors[c].id != descriptors[d].id)
    }

    /** The ids of the categories, the keys of the visibility map. */
    function CategoryIds(): set<string>
    {
      set c | 0 <= c < |descriptors| :: descriptors[c].id
    }
  }

  // ---------------------------------------------------------------------------
  // The derived view (getFilteredData)
  // ---------------------------------------------------------------------------

  /** How `Array.prototype.slice` reads one bound: a negative bound counts back from the end,
      and the result is clamped to `[0, len]`. */
  function SliceBound(k: int, len: nat): (r: nat)
    ensures r <= len
    ensures 0 <= k <= len ==> r == k
  {
    if k < 0 then (if len + k < 0 then 0 else len + k)
    else if k > len then len
    else k
  }

  /** `s.slice(start, end)`, for any integers: the store does not check its bounds, so an
      inverted or out-of-range window falls back on JavaScript's clamping. */
  function JsSlice<T>(s: seq<T>, start: int, end: int): (r: seq<T>)
    ensures |r| <= |s|
    ensures 0 <= start <= end <= |s| ==> r == s[start..end]
    ensures 0 <= end <= start ==> r == []
  {
    var from, to := SliceBound(start, |s|), SliceBound(end, |s|);
    if from < to then s[from..to] else []
  }

  /** `(count / total * 100).toFixed(1)` read back as a number, as an integer count of tenths
      of a percent rounded half up; 0 when the total is 0. */
  function PercentTenths(count: nat, total: nat): (r: nat)
    ensures total == 0 ==> r == 0
    ensures total > 0 ==> 2 * r * total - total <= 2000 * count < 2 * r * total + total
  {
    if total > 0 then (2000 * count + total) / (2 * total) else 0
  }

  /** The summary row of one category in the derived view. */
  datatype CategorySummary = CategorySummary(id: string, name: string, count: nat,
                                             percentage: nat, color: string)

  /** The date labels of the derived view: the first and last sliced labels (absent, as
      JavaScript's `undefined`, when the slice is empty) and their "start - end" form. */
  datatype DateRangeLabel = DateRangeLabel(start: Option<string>, end: Option<string>, full: string)

  /** What `getFilteredData` returns: sliced labels and series (in descriptor order), the
      grand total and one summary row per category, and copies of the mode and the flags. */
  datatype View = View(title: string, labels: seq<string>, chartData: seq<seq<nat>>,
                       total: nat, summary: seq<CategorySummary>, displayMode: string,
                       categories: map<string, bool>, dateRange: DateRangeLabel)

  /** The first element of a sequence, if any (`labels[0]`). */
  function First(s: seq<string>): Option<string>
  {
    if s == [] then None else Some(s[0])
  }

  /** The last element of a sequence, if any (`labels[labels.length - 1]`). */
  function Last(s: seq<string>): Option<string>
  {
    if s == [] then None else Some(s[|s| - 1])
  }

  /** The counts of each sliced series. */
  function Totals(chart: seq<seq<nat>>): seq<nat>
  {
    seq(|chart|, c requires 0 <= c < |chart| => Sum(chart[c]))
  }

  /** The derived view for a window `[startIndex, endIndex]`, a mode and the flags: one
      sliced series and one summary row per category, never more labels than the table, and
      the title, the mode and the flags copied. */
  function ViewOf(d: Dataset, startIndex: int, endIndex: int, displayMode: string,
                  categories: map<string, bool>): (v: View)
    requires d.WellFormed()
    ensures |v.chartData| == |d.series| && |v.summary| == |d.descriptors|
    ensures |v.labels| <= |d.labels| && forall c :: 0 <= c < |v.chartData| ==> |v.chartData[c]| == |v.labels|
    ensures v.title == d.title && v.displayMode == displayMode && v.categories == categories
  {
    var labels := JsSlice(d.labels, startIndex, endIndex + 1);
    var chart := seq(|d.series|, c requires 0 <= c < |d.series| =>
                       JsSlice(d.series[c], startIndex, endIndex + 1));
    var counts := Totals(chart);
    var grand := Sum(counts);
    var summary := seq(|d.descriptors|, c requires 0 <= c < |d.descriptors| =>
                         CategorySummary(d.descriptors[c].id, d.descriptors[c].name, counts[c],
                                         PercentTenths(counts[c], grand), d.descriptors[c].color));
    View(d.title, labels, chart, grand, summary, displayMode, categories,
         DateRangeLabel(First(labels), Last(labels), Show(First(labels)) + " - " + Show(Last(labels))))
  }

  /** The summary counts of a view, in category order. */
  function SummaryCounts(s: seq<CategorySummary>): seq<nat>
  {
    seq(|s|, c requires 0 <= c < |s| => s[c].count)
  }

  /** The summary percentages of a view, in category order. */
  function SummaryPercents(s: seq<CategorySummary>): seq<nat>
  {
    seq(|s|, c requires 0 <= c < |s| => s[c].percentage)
  }

  /** For a window inside the table, the view's labels and each series are exactly the table
      restricted to `[start, end]`, `end - start + 1` entries each, and the date labels are
      the first and last label of the window. */
  lemma ViewSlices(d: Dataset, start: int, end: int, mode: string, flags: map<string, bool>)
    requires d.WellFormed()
    requires 0 <= start <= end < |d.labels|
    ensures var v := ViewOf(d, start, end, mode, flags);
      && |v.labels| == end - start + 1
      && v.labels == d.labels[start..end + 1]
      && |v.chartData| == |d.series|
      && (forall c :: 0 <= c < |d.series| ==>
            |v.chartData[c]| == end - start + 1 && v.chartData[c] == d.series[c][start..end + 1])
      && v.dateRange.start == Some(d.labels[start])
      && v.dateRange.end == Some(d.labels[end])
      && v.dateRange.full == d.labels[start] + " - " + d.labels[end]
  {
  }

  /** Each summary row carries its category's descriptor and the sum of its sliced series,
      and the view's total is the sum of the category counts. */
  lemma ViewTotals(d: Dataset, start: int, end: int, mode: string, flags: map<string, bool>)
    requires d.WellFormed()
    ensures var v := ViewOf(d, start, end, mode, flags);
      && |v.summary| == |d.descriptors| == |v.chartData|
      && (forall c :: 0 <= c < |v.summary| ==>
            v.summary[c].id == d.descriptors[c].id
            && v.summary[c].name == d.descriptors[c].name
            && v.summary[c].color == d.descriptors[c].color
            && v.summary[c].count == Sum(v.chartData[c]))
      && v.total == Sum(SummaryCounts(v.summary))
  {
    var v := ViewOf(d, start, end, mode, flags);
    assert SummaryCounts(v.summary) == Totals(v.chartData);
  }

  /** Each percentage is its count's share of the total to the nearest tenth (half up) when
      the total is positive, and exactly 0 when it is 0. */
  lemma ViewPercentages(d: Dataset, start: int, end: int, mode: string, flags: map<string, bool>)
    requires d.WellFormed()
    ensures var v := ViewOf(d, start, end, mode, flags);
      forall c :: 0 <= c < |v.summary| ==>
        var r, n := v.summary[c].percentage, v.summary[c].count;
        && (v.total == 0 ==> r == 0)
        && (v.total > 0 ==> 2 * r * v.total - v.total <= 2000 * n < 2 * r * v.total + v.total)
  {
  }

  /** An empty or inverted window (which the store accepts) gives no labels, empty series,
      a zero total, zero percentages and absent date labels. */
  lemma ViewOfEmptyWindow(d: Dataset, start: int, end: int, mode: string, flags: map<string, bool>)
    requires d.WellFormed()
    requires 0 <= end + 1 <= start
    ensures var v := ViewOf(d, start, end, mode, flags);
      && v.labels == []
      && (forall c :: 0 <= c < |v.chartData| ==> v.chartData[c] == [])
      && v.total == 0
      && (forall c :: 0 <= c < |v.summary| ==> v.summary[c].count == 0 && v.summary[c].percentage == 0)
      && v.dateRange.start == None && v.dateRange.end == None
      && v.dateRange.full == "undefined - undefined"
  {
    var v := ViewOf(d, start, end, mode, flags);
    SumOfZeros(Totals(v.chartData));
  }

  /** A sequence of zero counts sums to zero. */
  lemma {:induction false} SumOfZeros(s: seq<nat>)
    requires forall i :: 0 <= i < |s| ==> s[i] == 0
    ensures Sum(s) == 0
  {
    if s != [] {
      SumOfZeros(s[..|s| - 1]);
    }
  }

  /** The display mode and the category flags never change the numbers: two views of the
      same window agree on labels, series, total, summary and date labels, whatever their
      modes and flags; mode and flags are only copied into the view. */
  lemma VisibilityIndependent(d: Dataset, start: int, end: int,
                              mode1: string, flags1: map<string, bool>,
                              mode2: string, flags2: map<string, bool>)
    requires d.WellFormed()
    ensures var v1, v2 := ViewOf(d, start, end, mode1, flags1), ViewOf(d, start, end, mode2, flags2);
      && v1.labels == v2.labels && v1.chartData == v2.chartData && v1.total == v2.total
      && v1.summary == v2.summary && v1.dateRange == v2.dateRange
      && v1.displayMode == mode1 && v1.categories == flags1
  {
  }

  /** Rounded shares of one total: when the counts sum to a positive total `t`, the rounded
      tenths `R` stay within half a tenth per category of 1000 tenths (100%):
      `2000 - n < 2R <= 2000 + n` for `n` categories. */
  lemma PercentSumBounds(counts: seq<nat>, t: nat)
    requires t > 0 && Sum(counts) == t && |counts| > 0
    ensures var r := Sum(Percents(counts, t));
      2000 - |counts| < 2 * r <= 2000 + |counts|
  {
    ShareBounds(counts, t);
    ScaledBoundsDivide(Sum(Percents(counts, t)), |counts|, t);
  }

  /** Dividing the scaled bounds by the positive total. */
  lemma ScaledBoundsDivide(r: int, n: int, t: int)
    requires t > 0
    requires 2000 * t - n * t < 2 * r * t <= 2000 * t + n * t
    ensures 2000 - n < 2 * r <= 2000 + n
  {
    if 2 * r <= 2000 - n {
      MulMono(2 * r, 2000 - n, t);
    }
    if 2 * r > 2000 + n {
      MulMono(2000 + n + 1, 2 * r, t);
    }
  }

  /** Multiplying both sides of `a <= b` by a positive number keeps the order. */
  lemma MulMono(a: int, b: int, t: int)
    requires a <= b && t > 0
    ensures a * t <= b * t
  {
  }

  /** The rounded tenths of each count of a common total. */
  function Percents(counts: seq<nat>, t: nat): (ps: seq<nat>)
    ensures |ps| == |counts|
  {
    seq(|counts|, c requires 0 <= c < |counts| => PercentTenths(counts[c], t))
  }

  /** The rounding errors of the categories add up: each tenth is off by at most half a
      tenth, so the scaled sum is within `n` scaled half-tenths of the exact total. */
  lemma {:induction false} ShareBounds(counts: seq<nat>, t: nat)
    requires t > 0 && |counts| > 0
    ensures var r := Sum(Percents(counts, t));
      2000 * Sum(counts) - |counts| * t < 2 * r * t <= 2000 * Sum(counts) + |counts| * t
  {
    var n := |counts|;
    var init, last := counts[..n - 1], counts[n - 1];
    var ps := Percents(counts, t);
    var p := PercentTenths(last, t);
    assert ps[..n - 1] == Percents(init, t);
    assert Sum(ps) == Sum(Percents(init, t)) + p;
    assert Sum(counts) == Sum(init) + last;
    if n == 1 {
      assert Sum(init) == 0 && Sum(Percents(init, t)) == 0;
    } else {
      ShareBounds(init, t);
      ShareStep(last, p, Sum(init), Sum(Percents(init, t)), n - 1, t);
    }
  }

  /** One more category in the inductive step of ShareBounds. */
  lemma ShareStep(c0: int, p0: int, s: int, q: int, n: int, t: int)
    requires t > 0
    requires 2 * p0 * t - t <= 2000 * c0 < 2 * p0 * t + t
    requires 2000 * s - n * t < 2 * q * t <= 2000 * s + n * t
    ensures 2000 * (c0 + s) - (n + 1) * t < 2 * (p0 + q) * t <= 2000 * (c0 + s) + (n + 1) * t
  {
    assert 2 * (p0 + q) * t == 2 * p0 * t + 2 * q * t;
    assert (n + 1) * t == n * t + t;
  }

  // ---------------------------------------------------------------------------
  // The store (SDMFilterState)
  // ---------------------------------------------------------------------------

  /** A listener is identified by the callback value the source compares with `!==`. */
  type Listener = nat

  /** One callback invocation made by `notify`: which listener, with which view. */
  datatype Delivery = Delivery(listener: Listener, view: View)

  /** The function `subscribe` returns; calling it removes its callback. */
  datatype Unsubscriber = Unsubscriber(callback: Listener)

  /** What `getState` returns: the window, the mode and a copy of the flags. */
  datatype StateSnapshot = StateSnapshot(startIndex: int, endIndex: int, displayMode: string,
                                         categories: map<string, bool>)

  /** The flags of a new store: every category visible. */
  function AllVisible(d: Dataset): (m: map<string, bool>)
    ensures m.Keys == d.CategoryIds()
    ensures forall k :: k in m ==> m[k]
  {
    map k | k in d.CategoryIds() :: true
  }

  /** The calls one notification makes: every listener in list order, each with the view. */
  function Broadcast(ls: seq<Listener>, v: View): (r: seq<Delivery>)
    ensures |r| == |ls|
    ensures forall i :: 0 <= i < |ls| ==> r[i].listener == ls[i] && r[i].view == v
  {
    seq(|ls|, i requires 0 <= i < |ls| => Delivery(ls[i], v))
  }

  /** `listeners.filter(l => l !== callback)`: what remains are exactly the other
      listeners, and never more of them. */
  function Without(ls: seq<Listener>, x: Listener): (r: seq<Listener>)
    ensures |r| <= |ls|
    ensures forall y :: y in r <==> y in ls && y != x
  {
    if ls == [] then [] else (if ls[0] == x then [] else [ls[0]]) + Without(ls[1..], x)
  }

  /** Unsubscribing removes every occurrence of the callback and keeps every other listener
      as many times as it was subscribed. */
  lemma {:induction false} WithoutCounts(ls: seq<Listener>, x: Listener)
    ensures multiset(Without(ls, x))[x] == 0
    ensures forall y :: y != x ==> multiset(Without(ls, x))[y] == multiset(ls)[y]
  {
    if ls != [] {
      WithoutCounts(ls[1..], x);
      var head: seq<Listener> := if ls[0] == x then [] else [ls[0]];
      assert Without(ls, x) == head + Without(ls[1..], x);
      assert multiset(Without(ls, x)) == multiset(head) + multiset(Without(ls[1..], x));
      assert ls == [ls[0]] + ls[1..];
      assert multiset(ls) == multiset([ls[0]]) + multiset(ls[1..]);
    }
  }

  /** Filtering a concatenation filters each part: the remaining listeners keep their order. */
  lemma {:induction false} WithoutAppend(a: seq<Listener>, b: seq<Listener>, x: Listener)
    ensures Without(a + b, x) == Without(a, x) + Without(b, x)
  {
    if a == [] {
      assert a + b == b;
    } else {
      assert (a + b)[1..] == a[1..] + b;
      WithoutAppend(a[1..], b, x);
    }
  }

  /** Removing a callback that is not subscribed leaves the list as it is. */
  lemma {:induction false} WithoutAbsent(ls: seq<Listener>, x: Listener)
    requires x !in ls
    ensures Without(ls, x) == ls
  {
    if ls != [] {
      WithoutAbsent(ls[1..], x);
      assert ls == [ls[0]] + ls[1..];
    }
  }

  /** The filter state. `delivered` records, in order, every callback invocation the store
      has made, which is how the model observes the listeners being called. */
  class FilterState {
    const data: Dataset
    var startIndex: int
    var endIndex: int
    var displayMode: string
    var categories: map<string, bool>
    var listeners: seq<Listener>
    var delivered: seq<Delivery>

    /** The table is well formed and the flags have exactly the table's category ids. */
    ghost predicate Valid()
      reads this
    {
      data.WellFormed() && categories.Keys == data.CategoryIds()
    }

    /** A new store shows the whole table, in counts mode, with every category visible and
        nobody listening. */
    constructor (d: Dataset)
      requires d.WellFormed()
      ensures Valid() && data == d
      ensures startIndex == 0 && endIndex == |d.labels| - 1
      ensures displayMode == "counts" && categories == AllVisible(d)
      ensures listeners == [] && delivered == []
    {
      data := d;
      startIndex := 0;
      endIndex := |d.labels| - 1;
      displayMode := "counts";
      categories := AllVisible(d);
      listeners := [];
      delivered := [];
    }

    /** `getFilteredData()`: the view of the current parameters; its total is the sum of
        its category counts and it carries the current mode and flags. */
    function GetFilteredData(): (v: View)
      reads this
      requires Valid()
      ensures v.total == Sum(SummaryCounts(v.summary)) && |v.summary| == |data.descriptors|
      ensures v.displayMode == displayMode && v.categories == categories
    {
      ViewTotals(data, startIndex, endIndex, displayMode, categories);
      ViewOf(data, startIndex, endIndex, displayMode, categories)
    }

    /** `getState()`: the current parameters, with the flags copied (a map is a value, so
        the snapshot cannot alias the store's flags). */
    function GetState(): (s: StateSnapshot)
      reads this
      ensures s.startIndex == startIndex && s.endIndex == endIndex
      ensures s.displayMode == displayMode && s.categories == categories
    {
      StateSnapshot(startIndex, endIndex, displayMode, categories)
    }

    /** `subscribe(callback)`: appends the callback (a second subscription of the same
        callback is a second entry) and returns its unsubscribe function. */
    method Subscribe(callback: Listener) returns (unsubscribe: Unsubscriber)
      requires Valid()
      modifies this`listeners
      ensures Valid()
      ensures listeners == old(listeners) + [callback]
      ensures unsubscribe == Unsubscriber(callback)
    {
      listeners := listeners + [callback];
      unsubscribe := Unsubscriber(callback);
    }

    /** Calling the function `subscribe` returned: every entry of that callback goes, the
        others stay in order. */
    method Unsubscribe(unsubscribe: Unsubscriber)
      requires Valid()
      modifies this`listeners
      ensures Valid()
      ensures listeners == Without(old(listeners), unsubscribe.callback)
    {
      listeners := Without(listeners, unsubscribe.callback);
    }

    /** `notify()`: calls every listener, in list order, with the current view. */
    method Notify()
      requires Valid()
      modifies this`delivered
      ensures Valid()
      ensures delivered == old(delivered) + Broadcast(listeners, GetFilteredData())
    {
      var i := 0;
      while i < |listeners|
        invariant 0 <= i <= |listeners|
        invariant delivered == old(delivered) + Broadcast(listeners[..i], GetFilteredData())
      {
        delivered := delivered + [Delivery(listeners[i], GetFilteredData())];
        i := i + 1;
      }
      assert listeners[..i] == listeners;
    }

    /** `setDateRange(startIndex, endIndex)`: stores both bounds as given (no bounds check,
        no reordering, no check for an unchanged value) and notifies once. */
    method SetDateRange(newStart: int, newEnd: int)
      requires Valid()
      modifies this`startIndex, this`endIndex, this`delivered
      ensures Valid()
      ensures startIndex == newStart && endIndex == newEnd
      ensures delivered == old(delivered) + Broadcast(listeners, GetFilteredData())
    {
      startIndex := newStart;
      endIndex := newEnd;
      Notify();
    }

    /** `setDisplayMode(mode)`: stores the mode as given and notifies once. */
    method SetDisplayMode(mode: string)
      requires Valid()
      modifies this`displayMode, this`delivered
      ensures Valid()
      ensures displayMode == mode
      ensures delivered == old(delivered) + Broadcast(listeners, GetFilteredData())
    {
      displayMode := mode;
      Notify();
    }

    /** `setCategory(category, enabled)`: for a known category, sets only that flag and
        notifies once; an unknown category changes nothing and notifies nobody. */
    method SetCategory(category: string, enabled: bool)
      requires Valid()
      modifies this`categories, this`delivered
      ensures Valid()
      ensures category in old(categories) ==>
                categories == old(categories)[category := enabled]
                && delivered == old(delivered) + Broadcast(listeners, GetFilteredData())
      ensures category !in old(categories) ==>
                categories == old(categories) && delivered == old(delivered)
    {
      if category in categories {
        categories := categories[category := enabled];
        Notify();
      }
    }
  }

  /** A client of the store: two listeners, one unsubscribed; every mutation reaches the
      remaining listener once, with the view of the state after the mutation. */
  method StoreScenario(d: Dataset)
    requires d.WellFormed() && |d.labels| >= 2
  {
    var store := new FilterState(d);
    var unsubscribeA := store.Subscribe(1);
    var unsubscribeB := store.Subscribe(2);
    store.Unsubscribe(unsubscribeA);
    assert [1, 2][1..] == [2] && [2][1..] == [];
    assert store.listeners == [2];
    store.SetDateRange(0, 1);
    assert |store.delivered| == 1 && store.delivered[0].listener == 2;
    assert |store.delivered[0].view.labels| == 2;
  }
}
