/** `components/expenses/filter-dialog.jsx`: the picked category and date
    range, the filter object handed to `onFilter`, and the reset. */
module FilterDialog {
  import opened Base
  import opened Dates
  import opened Domain

  /** What `onFilter` receives: the empty object `{}` on reset, or the
      category ("" for all) and the two bounds formatted "yyyy-MM-dd". */
  datatype FilterArgs =
    | NoFilter
    | FilterBy(category: string, from: Option<string>, to: Option<string>)

  /** `selectedCategory === "all" ? "" : selectedCategory`. */
  function CategoryArg(selected: string): (c: string)
    ensures selected == "all" ==> c == ""
    ensures selected != "all" ==> c == selected
  {
    if selected == "all" then "" else selected
  }

  /** A bound is formatted when set and left undefined otherwise. */
  function BoundArg(d: Option<Date>): (s: Option<string>)
    ensures d.Some? <==> s.Some?
    ensures d.Some? ==> s.value == FormatIso(d.value)
  {
    if d.Some? then Some(FormatIso(d.value)) else None
  }

  /** Each formatted bound reads back as the picked date. */
  lemma BoundArgReadsBack(d: Date)
    requires WellFormed(d)
    ensures ParseIso(BoundArg(Some(d)).value) == Some(d)
  {
    ParseFormatIso(d);
  }

  class Dialog {
    var selectedCategory: string
    var range: DateRange
    var open: bool

    constructor (isOpen: bool)
      ensures selectedCategory == "all" && range == DateRange(None, None) && open == isOpen
    {
      selectedCategory := "all";
      range := DateRange(None, None);
      open := isOpen;
    }

    /** `handleFilter`: emits the mapped filter and closes the dialog. */
    method HandleFilter() returns (args: FilterArgs)
      modifies this
      ensures args == FilterBy(CategoryArg(selectedCategory), BoundArg(range.from), BoundArg(range.to))
      ensures !open && selectedCategory == old(selectedCategory) && range == old(range)
    {
      var from := if range.from.Some? then Some(FormatIso(range.from.value)) else None;
      var to := if range.to.Some? then Some(FormatIso(range.to.value)) else None;
      args := FilterBy(if selectedCategory == "all" then "" else selectedCategory, from, to);
      open := false;
    }

    /** `handleReset`: back to "all" and an empty range, emits `{}`, closes. */
    method HandleReset() returns (args: FilterArgs)
      modifies this
      ensures args == NoFilter
      ensures selectedCategory == "all" && range == DateRange(None, None) && !open
    {
      selectedCategory := "all";
      range := DateRange(None, None);
      args := NoFilter;
      open := false;
    }
  }
}
