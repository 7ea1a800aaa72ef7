/** `components/ui/multi-select.jsx`: an ordered selection of options,
    toggled and removed by their `value`, and replaced by the `value` prop. */
module MultiSelect {
  import opened Base

  datatype SelectOption = SelectOption(value: string, caption: string)  // `caption` is the option's `label`

  /** `selected.some((item: SelectOption) => item.value === v)`. */
  predicate HasValue(selected: seq<SelectOption>, v: string) {
    exists i :: 0 <= i < |selected| && selected[i].value == v
  }

  /** `selected.filter((item: SelectOption) => item.value !== v)`. */
  function WithoutValue(selected: seq<SelectOption>, v: string): (r: seq<SelectOption>)
    ensures forall o :: o in r <==> o in selected && o.value != v
    ensures !HasValue(r, v)
  {
    var r := Filter(selected, (item: SelectOption) => item.value != v);
    assert forall i :: 0 <= i < |r| ==> r[i] in r;
    r
  }

  /** The list `handleSelect` computes. */
  function Toggle(selected: seq<SelectOption>, option: SelectOption): (r: seq<SelectOption>)
    ensures HasValue(selected, option.value) ==> r == WithoutValue(selected, option.value)
    ensures !HasValue(selected, option.value) ==> r == selected + [option]
  {
    if HasValue(selected, option.value) then WithoutValue(selected, option.value)
    else selected + [option]
  }

  /** After a toggle, the option's value is selected exactly when it was not before. */
  lemma ToggleFlips(selected: seq<SelectOption>, option: SelectOption)
    ensures HasValue(Toggle(selected, option), option.value) <==> !HasValue(selected, option.value)
  {
    if !HasValue(selected, option.value) {
      var r := Toggle(selected, option);
      assert r[|selected|] == option;
    }
  }

  /** Selecting an absent option and then selecting it again restores the
      selection. */
  lemma ToggleTwice(selected: seq<SelectOption>, option: SelectOption)
    requires !HasValue(selected, option.value)
    ensures Toggle(Toggle(selected, option), option) == selected
  {
    var once := selected + [option];
    assert once[|selected|] == option;
    assert HasValue(once, option.value);
    FilterAppend(selected, [option], (item: SelectOption) => item.value != option.value);
    forall o | o in selected ensures o.value != option.value {
      var i :| 0 <= i < |selected| && selected[i] == o;
    }
    FilterKeepsAll(selected, (item: SelectOption) => item.value != option.value);
    assert Filter([option], (item: SelectOption) => item.value != option.value) == [];
  }

  /** Removing is idempotent. */
  lemma RemoveIdempotent(selected: seq<SelectOption>, v: string)
    ensures WithoutValue(WithoutValue(selected, v), v) == WithoutValue(selected, v)
  {
    FilterIdempotent(selected, (item: SelectOption) => item.value != v);
  }

  /** Removing keeps the other items in their order: removing from a
      concatenation removes from each part. */
  lemma RemoveKeepsOrder(a: seq<SelectOption>, b: seq<SelectOption>, v: string)
    ensures WithoutValue(a + b, v) == WithoutValue(a, v) + WithoutValue(b, v)
  {
    FilterAppend(a, b, (item: SelectOption) => item.value != v);
  }

  class Select {
    var selected: seq<SelectOption>
    var inputValue: string

    constructor (value: seq<SelectOption>)
      ensures selected == value && inputValue == ""
    {
      selected := value;
      inputValue := "";
    }

    /** `handleSelect`: returns what `onChange` receives. */
    method HandleSelect(option: SelectOption) returns (changed: seq<SelectOption>)
      modifies this
      ensures selected == Toggle(old(selected), option) && changed == selected
      ensures inputValue == ""
    {
      var isSelected := false;
      for i := 0 to |selected|
        invariant isSelected <==> HasValue(selected[..i], option.value)
      {
        assert selected[..i + 1] == selected[..i] + [selected[i]];
        if selected[i].value == option.value {
          isSelected := true;
        }
      }
      assert selected[..|selected|] == selected;
      var updated;
      if isSelected {
        updated := Filter(selected, (item: SelectOption) => item.value != option.value);
      } else {
        updated := selected + [option];
      }
      selected := updated;
      changed := updated;
      inputValue := "";
    }

    /** `handleRemove`: returns what `onChange` receives. */
    method HandleRemove(option: SelectOption) returns (changed: seq<SelectOption>)
      modifies this
      ensures selected == WithoutValue(old(selected), option.value) && changed == selected
      ensures inputValue == old(inputValue)
    {
      selected := Filter(selected, (item: SelectOption) => item.value != option.value);
      changed := selected;
    }

    /** The effect run when the `value` prop changes. */
    method SyncValue(value: seq<SelectOption>)
      modifies this
      ensures selected == value && inputValue == old(inputValue)
    {
      selected := value;
    }
  }
}
