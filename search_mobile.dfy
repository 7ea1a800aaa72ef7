/** `components/SearchMobile.jsx`: the names of the filtered categories and
    the suffix they add to the "EXPENSE HISTORY" heading. */
module SearchMobile {
  import opened Base
  import opened Text
  import opened Domain
  import opened SelectedFilter

  function NamesOf(categories: seq<Category>): (r: seq<string>)
    ensures |r| == |categories|
    ensures forall i :: 0 <= i < |r| ==> r[i] == categories[i].name
  {
    seq(|categories|, i requires 0 <= i < |categories| => categories[i].name)
  }

  /** `selectedCategoryNames`: `None` (null) without active categories. */
  function SelectedCategoryNames(f: ActiveFilters, categories: seq<Category>): (r: Option<seq<string>>)
    ensures !HasCategories(f) ==> r == None
    ensures HasCategories(f) ==> r == Some(NamesOf(Filter(categories, c => IsActive(f, c))))
  {
    if HasCategories(f) then Some(NamesOf(Filter(categories, c => IsActive(f, c)))) else None
  }

  /** The heading shows the same categories, in the same order, as the chips. */
  lemma NamesMatchChips(f: ActiveFilters, categories: seq<Category>)
    requires HasCategories(f)
    ensures SelectedCategoryNames(f, categories) == Some(NamesOf(Chips(f, categories)))
  {
  }

  /** `categoryDisplay`. */
  function CategoryDisplay(names: Option<seq<string>>): (s: string)
    ensures names.None? || names.value == [] ==> s == ""
    ensures names.Some? && names.value != [] ==> s == " - " + Join(names.value, " & ")
  {
    if names.Some? && |names.value| > 0 then " - " + Join(names.value, " & ") else ""
  }

  /** With exactly one selected name the suffix is " - " and that name. */
  lemma SingleNameDisplay(name: string)
    ensures CategoryDisplay(Some([name])) == " - " + name
  {
  }

  /** With several names, they are separated by " & ". */
  lemma {:induction false} JoinCons(first: string, rest: seq<string>, sep: string)
    requires rest != []
    ensures Join([first] + rest, sep) == first + sep + Join(rest, sep)
  {
    assert ([first] + rest)[1..] == rest;
  }
}
