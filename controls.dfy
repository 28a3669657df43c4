/**
 * The scraper control panel: which directory sites are selected, the
 * category text, and the submit handler that hands the options to its
 * caller. The slider and the two switches only set fields that the
 * options carry along.
 */
module Controls {
  import opened Wrappers
  import opened Sequences
  import Scraper

  /** The options handed to `onStartScraping`. */
  datatype ScraperOptions = ScraperOptions(
    sites: seq<string>,
    maxProducts: int,
    useProxy: bool,
    cacheResults: bool,
    category: string)

  const DefaultMaxProducts: int := 50
  const FallbackCategory: string := "general"

  /** No name occurs twice. */
  ghost predicate Distinct(names: seq<string>)
  {
    forall n :: multiset(names)[n] <= 1
  }

  /** Every name is a directory site name. */
  predicate WithinDirectory(names: seq<string>)
  {
    forall n :: n in names ==> n in Scraper.SiteNames()
  }

  /** `prev.filter(name => name !== siteName)`: every occurrence of `siteName` goes, the rest keep their order and number. */
  function RemoveAll(names: seq<string>, siteName: string): (r: seq<string>)
    ensures siteName !in r
    ensures IsSubsequence(r, names)
    ensures forall n :: n != siteName ==> multiset(r)[n] == multiset(names)[n]
  {
    if names == [] then []
    else
      assert names == [names[0]] + names[1..];
      if names[0] == siteName then RemoveAll(names[1..], siteName)
      else [names[0]] + RemoveAll(names[1..], siteName)
  }

  /** The selection after one click on `siteName`'s checkbox. */
  function Toggled(selected: seq<string>, siteName: string): seq<string>
  {
    if siteName in selected then RemoveAll(selected, siteName) else selected + [siteName]
  }

  /** Removing a name that does not occur changes nothing. */
  lemma {:induction false} RemoveAbsentIsIdentity(names: seq<string>, siteName: string)
    requires siteName !in names
    ensures RemoveAll(names, siteName) == names
  {
    if names != [] {
      RemoveAbsentIsIdentity(names[1..], siteName);
    }
  }

  /** Removing every occurrence of a name from a list that ends with it, and has it nowhere else, drops just that last element. */
  lemma {:induction false} RemoveAppended(names: seq<string>, siteName: string)
    requires siteName !in names
    ensures RemoveAll(names + [siteName], siteName) == names
  {
    if names == [] {
    } else {
      assert (names + [siteName])[1..] == names[1..] + [siteName];
      RemoveAppended(names[1..], siteName);
    }
  }

  /** A click selects an unselected name and deselects a selected one. */
  lemma ToggleFlipsMembership(selected: seq<string>, siteName: string)
    ensures siteName in Toggled(selected, siteName) <==> siteName !in selected
    ensures siteName !in selected ==> Toggled(selected, siteName) == selected + [siteName]
    ensures siteName in selected ==> IsSubsequence(Toggled(selected, siteName), selected)
  {
  }

  /** Two clicks on an unselected name restore the selection exactly. */
  lemma ToggleUnselectedTwiceRestores(selected: seq<string>, siteName: string)
    requires siteName !in selected
    ensures Toggled(Toggled(selected, siteName), siteName) == selected
  {
    RemoveAppended(selected, siteName);
  }

  /** Clicks never make a name occur twice. */
  lemma ToggleKeepsDistinct(selected: seq<string>, siteName: string)
    requires Distinct(selected)
    ensures Distinct(Toggled(selected, siteName))
  {
    if siteName !in selected {
      assert multiset(selected)[siteName] == 0;
      forall n ensures multiset(selected + [siteName])[n] <= 1 {
        assert multiset(selected + [siteName]) == multiset(selected) + multiset{siteName};
      }
    }
  }

  /** Clicks on directory names keep the selection within the directory. */
  lemma ToggleStaysInDirectory(selected: seq<string>, siteName: string)
    requires WithinDirectory(selected)
    requires siteName in Scraper.SiteNames()
    ensures WithinDirectory(Toggled(selected, siteName))
  {
    var r := Toggled(selected, siteName);
    forall n | n in r
      ensures n in Scraper.SiteNames()
    {
      if siteName in selected && n != siteName {
        assert multiset(r)[n] > 0;
        assert multiset(selected)[n] > 0;
      }
    }
  }

  /** `category || 'general'`: only the empty string falls back. */
  function SubmittedCategory(text: string): (c: string)
    ensures text == "" ==> c == FallbackCategory
    ensures text != "" ==> c == text
    ensures c != ""
  {
    if text == "" then FallbackCategory else text
  }

  /** The submit button is disabled exactly while loading or while nothing is selected. */
  function SubmitDisabled(isLoading: bool, selectedSites: seq<string>): (disabled: bool)
    ensures disabled <==> isLoading || |selectedSites| == 0
    ensures !disabled ==> selectedSites != []
  {
    isLoading || |selectedSites| == 0
  }

  class ScraperControls {
    var maxProducts: int
    var useProxy: bool
    var cacheResults: bool
    var category: string
    var selectedSites: seq<string>

    /** Every directory site selected in directory order, 50 products, no proxy, caching on, no category. */
    constructor ()
      ensures selectedSites == Scraper.SiteNames()
      ensures maxProducts == DefaultMaxProducts && !useProxy && cacheResults && category == ""
    {
      maxProducts := DefaultMaxProducts;
      useProxy := false;
      cacheResults := true;
      category := "";
      selectedSites := Scraper.SiteNames();
    }

    /** A checkbox click on `siteName`. */
    method ToggleSite(siteName: string)
      modifies this`selectedSites
      ensures selectedSites == Toggled(old(selectedSites), siteName)
    {
      if siteName in selectedSites {
        selectedSites := RemoveAll(selectedSites, siteName);
      } else {
        selectedSites := selectedSites + [siteName];
      }
    }

    /** "Select All": back to the whole directory, in directory order. */
    method SelectAll()
      modifies this`selectedSites
      ensures selectedSites == Scraper.SiteNames()
    {
      selectedSites := Scraper.SiteNames();
    }

    /** "Clear All". */
    method SelectNone()
      modifies this`selectedSites
      ensures selectedSites == []
    {
      selectedSites := [];
    }

    /** Typing in the category field. */
    method SetCategory(text: string)
      modifies this`category
      ensures category == text
    {
      category := text;
    }

    /**
     * The submit handler: with nothing selected it refuses (the source
     * shows a toast) and calls nobody; otherwise it calls `onStartScraping`
     * once, with the options returned here.
     */
    method Submit() returns (call: Option<ScraperOptions>)
      ensures call.None? <==> selectedSites == []
      ensures call.Some? ==> call.value.sites == selectedSites
      ensures call.Some? ==> call.value.category == SubmittedCategory(category)
      ensures call.Some? ==> call.value.maxProducts == maxProducts
      ensures call.Some? ==> call.value.useProxy == useProxy && call.value.cacheResults == cacheResults
    {
      if |selectedSites| == 0 {
        return None;
      }
      var options := ScraperOptions(
        selectedSites,
        maxProducts,
        useProxy,
        cacheResults,
        SubmittedCategory(category));
      call := Some(options);
    }
  }
}
