/** The filter bar: two month selects with a reset button, the counts/percentages toggle
    and one checkbox per investigation category. The handlers decide the range to send
    (the only place that keeps `start <= end`) and then update the shared store. */
module FilterControls {
  import opened FilterStore
  import InvestigationData

  // ---------------------------------------------------------------------------
  // The range-correction rules
  // ---------------------------------------------------------------------------

  /** A date window, as the pair of indices passed to `setDateRange`. */
  datatype Range = Range(start: int, end: int)

  /** The start select changed to `startIdx` while the end select shows `endIdx`: the chosen
      start is always kept, and the end moves to it only when it would be before it. */
  function StartCorrection(startIdx: int, endIdx: int): (r: Range)
    ensures r.start == startIdx && r.start <= r.end
    ensures startIdx <= endIdx <==> r.end == endIdx
    ensures startIdx > endIdx ==> r.end == startIdx
  {
    if startIdx <= endIdx then Range(startIdx, endIdx) else Range(startIdx, startIdx)
  }

  /** The end select changed to `endIdx` while the start select shows `startIdx`: the chosen
      end is always kept, and the start moves to it only when it would be after it. */
  function EndCorrection(startIdx: int, endIdx: int): (r: Range)
    ensures r.end == endIdx && r.start <= r.end
    ensures startIdx <= endIdx <==> r.start == startIdx
    ensures startIdx > endIdx ==> r.start == endIdx
  {
    if startIdx <= endIdx then Range(startIdx, endIdx) else Range(endIdx, endIdx)
  }

  /** The reset button: the whole list of months. */
  function ResetRange(monthCount: nat): (r: Range)
    ensures r.start == 0 && r.end == monthCount - 1
  {
    Range(0, monthCount - 1)
  }

  /** A range the store can show: inside `0..n-1` and in order. */
  predicate InOrderWithin(r: Range, n: nat)
  {
    0 <= r.start <= r.end <= n - 1
  }

  /** For option indices drawn from `0..n-1`, every range the filter bar sends is in order
      and inside the list, whichever select changed, and so is the reset range of a
      non-empty list. */
  lemma CorrectionsStayInOrder(startIdx: int, endIdx: int, n: nat)
    requires 0 <= startIdx < n && 0 <= endIdx < n
    ensures InOrderWithin(StartCorrection(startIdx, endIdx), n)
    ensures InOrderWithin(EndCorrection(startIdx, endIdx), n)
    ensures InOrderWithin(ResetRange(n), n)
  {
  }

  /** The two corrections agree whenever no correction is needed: an ordered pair is sent
      unchanged by either select. */
  lemma CorrectionsAgreeOnOrderedPairs(startIdx: int, endIdx: int)
    ensures startIdx <= endIdx <==>
              StartCorrection(startIdx, endIdx) == EndCorrection(startIdx, endIdx) == Range(startIdx, endIdx)
  {
  }

  // ---------------------------------------------------------------------------
  // Buttons and checkboxes
  // ---------------------------------------------------------------------------

  /** The two display-mode buttons. */
  datatype ModeButton = CountsButton | PercentagesButton
  {
    /** The button's `data-mode`. */
    function Mode(): (m: string)
      ensures m == "counts" || m == "percentages"
      ensures this == CountsButton <==> m == "counts"
    {
      match this
      case CountsButton => "counts"
      case PercentagesButton => "percentages"
    }
  }

  /** The three category checkboxes. */
  datatype Checkbox = TimelyBox | NotTimelyBox | PendingBox
  {
    /** The category key the checkbox passes to `setCategory`. */
    function Key(): (k: string)
      ensures k in InvestigationData.StoreData.CategoryIds()
    {
      InvestigationData.StoreDataWellFormed();
      match this
      case TimelyBox => "timely"
      case NotTimelyBox => "notTimely"
      case PendingBox => "pending"
    }
  }

  /** Different checkboxes drive different categories. */
  lemma CheckboxKeysDistinct(a: Checkbox, b: Checkbox)
    ensures a != b ==> a.Key() != b.Key()
  {
  }

  // ---------------------------------------------------------------------------
  // The component
  // ---------------------------------------------------------------------------

  /** The filter bar over the investigation store. `startSelect` and `endSelect` are the
      values the two selects show. */
  class Filters {
    const store: FilterState
    const months: seq<string>
    var startSelect: int
    var endSelect: int

    /** The selects show the store's window, which is in order and inside the month list. */
    ghost predicate Valid()
      reads this, store
    {
      store.Valid() && store.data == InvestigationData.StoreData
      && months == store.data.labels
      && startSelect == store.startIndex && endSelect == store.endIndex
      && InOrderWithin(Range(startSelect, endSelect), |months|)
    }

    /** `new Filters(...)` followed by the first render: the selects show the store's window. */
    constructor (s: FilterState)
      requires s.Valid() && s.data == InvestigationData.StoreData
      requires InOrderWithin(Range(s.startIndex, s.endIndex), |s.data.labels|)
      ensures Valid() && store == s
    {
      store := s;
      months := s.data.labels;
      startSelect := s.startIndex;
      endSelect := s.endIndex;
    }

    /** The start select changed to option `startIdx`: sends the corrected range and shows it. */
    method OnStartChange(startIdx: int)
      requires Valid() && 0 <= startIdx < |months|
      modifies this`startSelect, this`endSelect, store`startIndex, store`endIndex, store`delivered
      ensures Valid()
      ensures Range(store.startIndex, store.endIndex) == StartCorrection(startIdx, old(endSelect))
      ensures store.delivered == old(store.delivered) + Broadcast(store.listeners, store.GetFilteredData())
    {
      var r := StartCorrection(startIdx, endSelect);
      store.SetDateRange(r.start, r.end);
      startSelect, endSelect := r.start, r.end;
    }

    /** The end select changed to option `endIdx`: sends the corrected range and shows it. */
    method OnEndChange(endIdx: int)
      requires Valid() && 0 <= endIdx < |months|
      modifies this`startSelect, this`endSelect, store`startIndex, store`endIndex, store`delivered
      ensures Valid()
      ensures Range(store.startIndex, store.endIndex) == EndCorrection(old(startSelect), endIdx)
      ensures store.delivered == old(store.delivered) + Broadcast(store.listeners, store.GetFilteredData())
    {
      var r := EndCorrection(startSelect, endIdx);
      store.SetDateRange(r.start, r.end);
      startSelect, endSelect := r.start, r.end;
    }

    /** The reset button: the whole period. */
    method OnReset()
      requires Valid()
      modifies this`startSelect, this`endSelect, store`startIndex, store`endIndex, store`delivered
      ensures Valid()
      ensures Range(store.startIndex, store.endIndex) == ResetRange(|months|)
      ensures store.delivered == old(store.delivered) + Broadcast(store.listeners, store.GetFilteredData())
    {
      var r := ResetRange(|months|);
      store.SetDateRange(r.start, r.end);
      startSelect, endSelect := r.start, r.end;
    }

    /** A display-mode button: sets the button's mode. */
    method OnModeClick(button: ModeButton)
      requires Valid()
      modifies store`displayMode, store`delivered
      ensures Valid()
      ensures store.displayMode == button.Mode()
      ensures store.delivered == old(store.delivered) + Broadcast(store.listeners, store.GetFilteredData())
    {
      store.SetDisplayMode(button.Mode());
    }

    /** A category checkbox changed: sets that one category's flag to the box's state. */
    method OnCheckboxChange(box: Checkbox, checked: bool)
      requires Valid()
      modifies store`categories, store`delivered
      ensures Valid()
      ensures store.categories == old(store.categories)[box.Key() := checked]
      ensures store.delivered == old(store.delivered) + Broadcast(store.listeners, store.GetFilteredData())
    {
      store.SetCategory(box.Key(), checked);
    }
  }
}
