/** The country pickers: the native modal picker (CountryPicker) and the web
    dropdown (CountryDropdown). Both filter the country list by a case-insensitive
    substring of the name or the code and look up the selected country by code.
    The country list itself is a parameter. */
module Picker {
  import opened Seqs
  import opened Text

  datatype Country = Country(code: string, name: string)

  /** The lowercased search occurs at position `i` of the lowercased name or code. */
  predicate FoundAt(c: Country, search: string, i: nat) {
    OccursAt(Lower(c.name), Lower(search), i) || OccursAt(Lower(c.code), Lower(search), i)
  }

  /** The search test: the lowercased name or code contains the lowercased search. */
  predicate Matches(c: Country, search: string): (b: bool)
    ensures b <==> exists i: nat :: FoundAt(c, search, i)
    ensures search == [] ==> b
    ensures b ==> |search| <= |c.name| || |search| <= |c.code|
  {
    var inName, inCode := Contains(Lower(c.name), Lower(search)), Contains(Lower(c.code), Lower(search));
    assert (inName || inCode) <==> exists i: nat :: FoundAt(c, search, i) by {
      if inName {
        var i: nat :| OccursAt(Lower(c.name), Lower(search), i);
        assert FoundAt(c, search, i);
      } else if inCode {
        var i: nat :| OccursAt(Lower(c.code), Lower(search), i);
        assert FoundAt(c, search, i);
      }
    }
    assert search == [] ==> FoundAt(c, search, 0);
    inName || inCode
  }

  /** filteredCountries: the matching countries, in list order. */
  function FilteredCountries(countries: seq<Country>, search: string): (r: seq<Country>)
    ensures forall i :: 0 <= i < |r| ==> Matches(r[i], search) && r[i] in countries
    ensures forall i :: 0 <= i < |countries| && Matches(countries[i], search) ==> countries[i] in r
  {
    Filter(countries, (c: Country) => Matches(c, search))
  }

  /** The filtered list keeps the list's order, has one entry per matching country,
      and an empty search shows every country. */
  lemma FilteredCountriesShape(countries: seq<Country>, search: string)
    ensures IsSubsequence(FilteredCountries(countries, search), countries)
    ensures |FilteredCountries(countries, search)| == Count(countries, (c: Country) => Matches(c, search))
    ensures search == [] ==> FilteredCountries(countries, search) == countries
  {
    FilterIsSubsequence(countries, (c: Country) => Matches(c, search));
    FilterLength(countries, (c: Country) => Matches(c, search));
    if search == [] {
      forall i | 0 <= i < |countries| ensures Matches(countries[i], search) {
        assert OccursAt(Lower(countries[i].name), Lower(search), 0);
      }
      FilterKeepsAll(countries, (c: Country) => Matches(c, search));
    }
  }

  /** The case of the letters typed does not matter: a search and its lowercase form
      select the same countries. */
  lemma FilterIgnoresCase(countries: seq<Country>, search: string)
    ensures FilteredCountries(countries, Lower(search)) == FilteredCountries(countries, search)
  {
    LowerIdempotent(search);
    FilterCongruent(countries, (c: Country) => Matches(c, Lower(search)), (c: Country) => Matches(c, search));
  }

  /** selectedCountry: the first country whose code is `value`, if any. */
  function SelectedCountry(countries: seq<Country>, value: string): (r: Option<Country>)
    ensures r.None? <==> forall i :: 0 <= i < |countries| ==> countries[i].code != value
    ensures r.Some? ==> r.value.code == value &&
                        exists i :: 0 <= i < |countries| && countries[i] == r.value &&
                                    forall j :: 0 <= j < i ==> countries[j].code != value
  {
    Find(countries, (c: Country) => c.code == value)
  }

  /** Selecting a listed country by its code, from a list with distinct codes, shows
      that country. */
  lemma SelectedAfterSelect(countries: seq<Country>, k: nat)
    requires k < |countries|
    requires forall i, j :: 0 <= i < j < |countries| ==> countries[i].code != countries[j].code
    ensures SelectedCountry(countries, countries[k].code) == Some(countries[k])
  {
    var r := SelectedCountry(countries, countries[k].code);
    var i :| 0 <= i < |countries| && countries[i] == r.value &&
             forall j :: 0 <= j < i ==> countries[j].code != countries[k].code;
    if i < k {
      assert countries[i].code != countries[k].code;
    }
  }

  /** The native picker: a button that opens a modal with a search box and the list. */
  class NativePicker {
    var modalVisible: bool
    var search: string

    constructor ()
      ensures !modalVisible && search == ""
    {
      modalVisible := false;
      search := "";
    }

    /** The list the modal shows. */
    function Shown(countries: seq<Country>): seq<Country>
      reads this
    {
      FilteredCountries(countries, search)
    }

    /** Pressing the button opens the modal, unless the picker is disabled. */
    method Press(disabled: bool)
      modifies this
      ensures modalVisible == (old(modalVisible) || !disabled)
      ensures disabled ==> modalVisible == old(modalVisible)
      ensures search == old(search)
    {
      if !disabled {
        modalVisible := true;
      }
    }

    /** Typing in the search box. */
    method SetSearch(text: string)
      modifies this
      ensures search == text && modalVisible == old(modalVisible)
    {
      search := text;
    }

    /** The close button and the system back gesture. */
    method Close()
      modifies this
      ensures !modalVisible && search == old(search)
    {
      modalVisible := false;
    }

    /** handleSelect: report the country's code and name, close the modal, clear the search. */
    method Select(c: Country) returns (code: string, name: string)
      modifies this
      ensures code == c.code && name == c.name
      ensures !modalVisible && search == ""
    {
      code, name := c.code, c.name;
      modalVisible := false;
      search := "";
    }
  }

  /** The web dropdown: a button that toggles a list with a search box under it. */
  class WebDropdown {
    var isOpen: bool
    var search: string

    constructor ()
      ensures !isOpen && search == ""
    {
      isOpen := false;
      search := "";
    }

    function Shown(countries: seq<Country>): seq<Country>
      reads this
    {
      FilteredCountries(countries, search)
    }

    /** Clicking the button toggles the list, unless the dropdown is disabled. */
    method Press(disabled: bool)
      modifies this
      ensures isOpen == (if disabled then old(isOpen) else !old(isOpen))
      ensures search == old(search)
    {
      if !disabled {
        isOpen := !isOpen;
      }
    }

    method SetSearch(text: string)
      modifies this
      ensures search == text && isOpen == old(isOpen)
    {
      search := text;
    }

    /** Choosing an entry: report code and name, close the list, clear the search. */
    method Select(c: Country) returns (code: string, name: string)
      modifies this
      ensures code == c.code && name == c.name
      ensures !isOpen && search == ""
    {
      code, name := c.code, c.name;
      isOpen := false;
      search := "";
    }
  }
}
