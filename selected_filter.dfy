/** `components/SelectedFilter.jsx`: the chips showing the active filter,
    one per selected category and one for the date range, and the filters
    that clicking a chip hands back. */
module SelectedFilter {
  import opened Base
  import opened Text
  import opened Dates
  import opened Domain

  /** The date part of the active filter, as "yyyy-MM-dd" strings. */
  datatype RangeText = RangeText(from: Option<string>, to: Option<string>)

  /** The active filter: the selected category ids (as strings), the date
      range, and every other key of the object, which the spreads carry over. */
  datatype ActiveFilters = ActiveFilters(
    categories: Option<seq<string>>,
    dateRange: Option<RangeText>,
    others: map<string, string>)

  /** A string bound is set when present and non-empty (truthy). */
  predicate IsSet(b: Option<string>) {
    b.Some? && b.value != ""
  }

  /** `activeFilters.categories?.length > 0`. */
  predicate HasCategories(f: ActiveFilters) {
    f.categories.Some? && |f.categories.value| > 0
  }

  /** `activeFilters.categories.includes(category.id.toString())`. */
  predicate IsActive(f: ActiveFilters, c: Category) {
    f.categories.Some? && NatToString(c.id) in f.categories.value
  }

  /** The categories that get a chip, in the order of the category list. */
  function Chips(f: ActiveFilters, categories: seq<Category>): (r: seq<Category>)
    ensures forall c :: c in r <==> HasCategories(f) && c in categories && IsActive(f, c)
  {
    if HasCategories(f) then Filter(categories, c => IsActive(f, c)) else []
  }

  /** The chips follow the category list, not the order of the ids. */
  lemma ChipsFollowList(f: ActiveFilters, a: seq<Category>, b: seq<Category>)
    ensures Chips(f, a + b) == Chips(f, a) + Chips(f, b)
  {
    if HasCategories(f) {
      FilterAppend(a, b, c => IsActive(f, c));
    }
  }

  /** The filter a category chip's click hands back. */
  function RemoveCategory(f: ActiveFilters, c: Category): (r: ActiveFilters)
    requires f.categories.Some?
    ensures r.dateRange == f.dateRange && r.others == f.others
    ensures r.categories.Some?
    ensures forall id :: id in r.categories.value <==> id in f.categories.value && id != NatToString(c.id)
  {
    f.(categories := Some(Filter(f.categories.value, id => id != NatToString(c.id))))
  }

  /** Removing a chip keeps the other ids in their order and takes away
      that category's chip. */
  lemma RemoveCategoryEffect(f: ActiveFilters, c: Category, a: seq<string>, b: seq<string>)
    requires f.categories == Some(a + b)
    ensures RemoveCategory(f, c).categories.value
         == Filter(a, id => id != NatToString(c.id)) + Filter(b, id => id != NatToString(c.id))
    ensures !IsActive(RemoveCategory(f, c), c)
  {
    FilterAppend(a, b, id => id != NatToString(c.id));
  }

  /** `activeFilters.dateRange?.from || activeFilters.dateRange?.to`. */
  predicate ShowsDateChip(f: ActiveFilters) {
    f.dateRange.Some? && (IsSet(f.dateRange.value.from) || IsSet(f.dateRange.value.to))
  }

  /** The filter the date chip's click hands back. */
  function ClearDates(f: ActiveFilters): (r: ActiveFilters)
    ensures r.categories == f.categories && r.others == f.others
    ensures r.dateRange == Some(RangeText(None, None))
    ensures !ShowsDateChip(r)
  {
    f.(dateRange := Some(RangeText(None, None)))
  }

  /** Clearing the dates leaves the category chips as they were. */
  lemma ClearDatesKeepsChips(f: ActiveFilters, categories: seq<Category>)
    ensures Chips(ClearDates(f), categories) == Chips(f, categories)
  {
    FilterSamePredicate(categories, c => IsActive(ClearDates(f), c), c => IsActive(f, c));
  }

  /** `format(new Date(s), pattern)` of a "yyyy-MM-dd" string: `None` stands
      for the RangeError an Invalid Date raises. */
  function FormatBound(s: string, long: bool): Option<string> {
    var d := ParseIso(s);
    if d.None? then None
    else if long then Some(FormatLong(d.value)) else Some(FormatMonthDay(d.value))
  }

  /** The date chip's label. */
  function DateLabel(r: RangeText): (text: Option<string>)
    ensures IsSet(r.from) && IsSet(r.to) && ParseIso(r.from.value).Some? && ParseIso(r.to.value).Some? ==>
              text == Some(FormatMonthDay(ParseIso(r.from.value).value) + " - " + FormatLong(ParseIso(r.to.value).value))
    ensures IsSet(r.from) && !IsSet(r.to) && ParseIso(r.from.value).Some? ==>
              text == Some("From " + FormatLong(ParseIso(r.from.value).value))
    ensures !IsSet(r.from) && IsSet(r.to) && ParseIso(r.to.value).Some? ==>
              text == Some("Until " + FormatLong(ParseIso(r.to.value).value))
    ensures !IsSet(r.from) && !IsSet(r.to) ==> text == None
  {
    if IsSet(r.from) && IsSet(r.to) then
      var a, b := FormatBound(r.from.value, false), FormatBound(r.to.value, true);
      if a.Some? && b.Some? then Some(a.value + " - " + b.value) else None
    else if IsSet(r.from) then
      var a := FormatBound(r.from.value, true);
      if a.Some? then Some("From " + a.value) else None
    else if IsSet(r.to) then
      var b := FormatBound(r.to.value, true);
      if b.Some? then Some("Until " + b.value) else None
    else None
  }

  /** For bounds as the filter dialog formats them, the label names the
      picked dates. */
  lemma DateLabelOfPicked(from: Option<Date>, to: Option<Date>)
    requires from.Some? ==> WellFormed(from.value)
    requires to.Some? ==> WellFormed(to.value)
    ensures from.Some? && to.Some? ==>
              DateLabel(RangeText(Some(FormatIso(from.value)), Some(FormatIso(to.value))))
              == Some(FormatMonthDay(from.value) + " - " + FormatLong(to.value))
    ensures from.Some? && to.None? ==>
              DateLabel(RangeText(Some(FormatIso(from.value)), None)) == Some("From " + FormatLong(from.value))
    ensures from.None? && to.Some? ==>
              DateLabel(RangeText(None, Some(FormatIso(to.value)))) == Some("Until " + FormatLong(to.value))
  {
    if from.Some? { ParseFormatIso(from.value); }
    if to.Some? { ParseFormatIso(to.value); }
  }
}
