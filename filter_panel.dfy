/**
 * The filter panel: the number of switched-on classifications with its
 * "Showing N condition(s)" summary, and one toggle per offered
 * classification.
 */
module FilterPanel {
  import opened Base
  import opened Text
  import Assoc
  import Lists
  import UseData

  /** `Object.values(activeFilters).filter(Boolean).length`. */
  function ActiveCount(flags: seq<(string, bool)>): (n: nat)
    ensures n <= |flags|
  {
    |Lists.Filter(Assoc.Values(flags), (b: bool) => b)|
  }

  /** A switch that is on anywhere makes the count positive, and only then. */
  lemma ActiveCountZero(flags: seq<(string, bool)>)
    ensures ActiveCount(flags) == 0 <==> !UseData.AnyActive(flags)
  {
    var vs := Assoc.Values(flags);
    var on := (b: bool) => b;
    if UseData.AnyActive(flags) {
      var i :| 0 <= i < |flags| && flags[i].1;
      Lists.FilterMembers(vs, on, true);
      assert vs[i] == true;
    } else {
      Lists.FilterNone(vs, on);
    }
  }

  /** Filtering with the identity over a sequence with one switch changed. */
  lemma CountUpdate(vs: seq<bool>, i: nat, b: bool)
    requires i < |vs|
    ensures |Lists.Filter(vs[i := b], (x: bool) => x)|
         == |Lists.Filter(vs, (x: bool) => x)| - (if vs[i] then 1 else 0) + (if b then 1 else 0)
  {
    var on := (x: bool) => x;
    var before, after := vs[..i], vs[i + 1..];
    assert vs == before + [vs[i]] + after;
    assert vs[i := b] == before + [b] + after;
    Lists.FilterAppend(before + [vs[i]], after, on);
    Lists.FilterAppend(before, [vs[i]], on);
    Lists.FilterAppend(before + [b], after, on);
    Lists.FilterAppend(before, [b], on);
    assert [vs[i]][..0] == [] && [b][..0] == [];
  }

  /**
   * Toggling a classification moves the count by exactly that switch:
   * minus one if it was on, plus one if it is now on.
   */
  lemma ToggleCount(flags: seq<(string, bool)>, classification: string, isActive: bool)
    ensures ActiveCount(UseData.ToggleDiseaseFilter(flags, classification, isActive))
         == ActiveCount(flags) - (if Assoc.Get(flags, classification) == Some(true) then 1 else 0)
            + (if isActive then 1 else 0)
  {
    if Assoc.HasKey(flags, classification) {
      CountSetPresent(flags, classification, isActive);
    } else {
      CountAppend(flags, classification, isActive);
    }
  }

  lemma CountSetPresent(flags: seq<(string, bool)>, classification: string, isActive: bool)
    requires Assoc.HasKey(flags, classification)
    ensures ActiveCount(Assoc.Set(flags, classification, isActive))
         == ActiveCount(flags) - (if Assoc.Get(flags, classification) == Some(true) then 1 else 0)
            + (if isActive then 1 else 0)
  {
    var i := Assoc.SetAt(flags, classification, isActive);
    Assoc.ValuesUpdate(flags, i, classification, isActive);
    CountUpdate(Assoc.Values(flags), i, isActive);
  }

  lemma CountAppend(flags: seq<(string, bool)>, classification: string, isActive: bool)
    ensures ActiveCount(flags + [(classification, isActive)]) == ActiveCount(flags) + (if isActive then 1 else 0)
  {
    var on := (x: bool) => x;
    assert Assoc.Values(flags + [(classification, isActive)]) == Assoc.Values(flags) + [isActive];
    Lists.FilterAppend(Assoc.Values(flags), [isActive], on);
    assert [isActive][..0] == [];
  }

  /** The summary line: only with something switched on, with the count and a plural "s" unless it is one. */
  function Summary(flags: seq<(string, bool)>): (r: Option<string>)
    ensures r.None? <==> ActiveCount(flags) == 0
    ensures r.Some? ==> StartsWith(r.value, "Showing ")
  {
    var n := ActiveCount(flags);
    if n > 0 then Some("Showing " + NatToString(n) + " condition" + (if n != 1 then "s" else "")) else None
  }

  /** One condition reads in the singular; more read in the plural, and the number is the count. */
  lemma SummaryWording(flags: seq<(string, bool)>)
    requires ActiveCount(flags) > 0
    ensures ActiveCount(flags) == 1 ==> Summary(flags) == Some("Showing 1 condition")
    ensures var t := Summary(flags).value;
      t[|t| - 1] == 's' <==> ActiveCount(flags) != 1
    ensures var t := Summary(flags).value;
      var digits := NatToString(ActiveCount(flags));
      && t[8..8 + |digits|] == digits && ParseNat(digits) == ActiveCount(flags)
  {
    var n := ActiveCount(flags);
    var digits := NatToString(n);
    var t := Summary(flags).value;
    assert t == "Showing " + digits + " condition" + (if n != 1 then "s" else "");
    if n == 1 {
      assert digits == [DigitChar(1)] == "1";
      assert t == "Showing " + "1" + " condition" + "" == "Showing 1 condition";
    }
    assert t[8..8 + |digits|] == digits;
    ParseNatToString(n);
  }

  /** A classification's switch: on exactly when its flag is `true`. */
  datatype Control = Control(disease: string, checked: bool, labelClass: string, switchClass: string, text: string)

  predicate On(flags: seq<(string, bool)>, disease: string) {
    Assoc.Get(flags, disease) == Some(true)
  }

  function ControlFor(disease: string, flags: seq<(string, bool)>): Control {
    var on := On(flags, disease);
    Control(disease, on,
            "filter-label " + (if on then "active-filter" else ""),
            "toggle-switch " + (if on then "active" else "inactive"),
            if on then "on" else "off")
  }

  /** One control per offered classification, in the offered order. */
  function Controls(diseaseTypes: seq<string>, flags: seq<(string, bool)>): (r: seq<Control>)
    ensures |r| == |diseaseTypes|
    ensures forall i :: 0 <= i < |r| ==> r[i].disease == diseaseTypes[i]
  {
    seq(|diseaseTypes|, i requires 0 <= i < |diseaseTypes| => ControlFor(diseaseTypes[i], flags))
  }

  /** Every control shows on, active and checked exactly when its flag is on. */
  lemma ControlShowsFlag(diseaseTypes: seq<string>, flags: seq<(string, bool)>, i: nat)
    requires i < |diseaseTypes|
    ensures var c := Controls(diseaseTypes, flags)[i];
      && (c.checked <==> On(flags, diseaseTypes[i]))
      && (c.text == "on" <==> On(flags, diseaseTypes[i]))
      && (c.switchClass == "toggle-switch active" <==> On(flags, diseaseTypes[i]))
  {
    var c := Controls(diseaseTypes, flags)[i];
    if !On(flags, diseaseTypes[i]) {
      assert c.switchClass == "toggle-switch inactive";
      assert c.switchClass[14] == 'i';
    }
  }

  /**
   * A change on a control goes through `toggleDiseaseFilter`: the control
   * then shows the new state, and every control of another classification
   * is unchanged.
   */
  lemma ChangeShows(diseaseTypes: seq<string>, flags: seq<(string, bool)>, i: nat, checked: bool)
    requires i < |diseaseTypes|
    ensures var after := Controls(diseaseTypes, UseData.ToggleDiseaseFilter(flags, diseaseTypes[i], checked));
      && after[i].checked == checked
      && forall j :: 0 <= j < |diseaseTypes| && diseaseTypes[j] != diseaseTypes[i] ==>
           after[j] == Controls(diseaseTypes, flags)[j]
  {
  }
}
