/**
 * The multi-select answer widget (components/ui/CheckboxGroup.tsx).
 *
 * Checking an option appends it, unless a selection limit is set and already
 * reached; unchecking removes every occurrence. A limit of 0 stands for an
 * absent limit, as the source's truthiness test treats both alike.
 */
module CheckboxGroup {

  /** What a click does: either the selection is left alone and nobody is told, or a new selection is reported. */
  datatype Toggle = Unchanged | Changed(selection: seq<string>)

  /** The selection without any occurrence of `option`, the others in their order. */
  function Without(value: seq<string>, option: string): (rest: seq<string>)
    ensures option !in rest
    ensures forall x :: x in rest <==> x in value && x != option
    ensures |rest| <= |value|
    ensures option !in value ==> rest == value
  {
    if value == [] then []
    else if value[0] == option then Without(value[1..], option)
    else [value[0]] + Without(value[1..], option)
  }

  /** The limit is in force and reached. */
  predicate AtLimit(value: seq<string>, maxSelections: int) {
    maxSelections != 0 && |value| >= maxSelections
  }

  function HandleChange(value: seq<string>, maxSelections: int, option: string, checked: bool): (t: Toggle)
    ensures checked && AtLimit(value, maxSelections) <==> t == Unchanged
    ensures checked && t.Changed? ==> t.selection == value + [option]
    ensures !checked ==> t == Changed(Without(value, option))
  {
    if checked then
      if AtLimit(value, maxSelections) then Unchanged else Changed(value + [option])
    else
      Changed(Without(value, option))
  }

  /** An option is greyed out when the limit is reached and it is not among the selection. */
  function IsDisabled(value: seq<string>, maxSelections: int, option: string): (disabled: bool)
    ensures disabled <==> maxSelections != 0 && |value| >= maxSelections && option !in value
  {
    AtLimit(value, maxSelections) && option !in value
  }

  /** Removal distributes over concatenation, which is what keeping the other elements in order means. */
  lemma {:induction false} WithoutDistributes(a: seq<string>, b: seq<string>, option: string)
    ensures Without(a + b, option) == Without(a, option) + Without(b, option)
  {
    if a != [] {
      assert (a + b)[0] == a[0] && (a + b)[1..] == a[1..] + b;
      WithoutDistributes(a[1..], b, option);
      if a[0] != option {
        var x, p, q := [a[0]], Without(a[1..], option), Without(b, option);
        assert x + (p + q) == (x + p) + q;
      }
    } else {
      assert a + b == b;
    }
  }

  /** Removal drops exactly the occurrences of the option: every other value keeps its count. */
  lemma {:induction false} WithoutCounts(value: seq<string>, option: string)
    ensures multiset(Without(value, option)) == multiset(value)[option := 0]
  {
    if value != [] {
      WithoutCounts(value[1..], option);
      assert value == [value[0]] + value[1..];
    }
  }

  /** Checking then unchecking an option leaves the selection as unchecking alone would; an absent option is restored exactly. */
  lemma CheckThenUncheck(value: seq<string>, maxSelections: int, option: string)
    requires !AtLimit(value, maxSelections)
    ensures HandleChange(HandleChange(value, maxSelections, option, true).selection, maxSelections, option, false)
         == Changed(Without(value, option))
    ensures option !in value ==>
      HandleChange(HandleChange(value, maxSelections, option, true).selection, maxSelections, option, false)
      == Changed(value)
  {
    WithoutDistributes(value, [option], option);
  }

  /** A selection that starts within a positive limit stays within it, whatever is clicked. */
  lemma SelectionStaysWithinLimit(value: seq<string>, maxSelections: int, option: string, checked: bool)
    requires 0 < maxSelections && |value| <= maxSelections
    ensures var t := HandleChange(value, maxSelections, option, checked);
      t.Changed? ==> |t.selection| <= maxSelections
  {
  }

  /** A disabled option cannot be checked, and an option that is not disabled and not selected can be. */
  lemma DisabledMeansBlocked(value: seq<string>, maxSelections: int, option: string)
    ensures IsDisabled(value, maxSelections, option) ==> HandleChange(value, maxSelections, option, true) == Unchanged
    ensures option !in value && !IsDisabled(value, maxSelections, option) ==>
      HandleChange(value, maxSelections, option, true) == Changed(value + [option])
  {
  }

  /** Checking adds no duplicate check: an option already selected is appended a second time when the limit allows. */
  lemma CheckingDuplicates(option: string)
    ensures HandleChange([option], 0, option, true) == Changed([option, option])
  {
  }
}
