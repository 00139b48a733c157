/**
 * The home screen's state: the menu catalog, the debounced search box, the
 * selected category and the list on display. Each React effect becomes the
 * method that runs it; the filter effect always recomputes the list from the
 * full catalog, which the invariant `Valid` records.
 */
module HomeScreen {
  import opened Wrappers
  import opened MenuFilter
  import opened Debounce
  import CategoryBar

  class Home {
    /** `menuData.menu`, fixed for the life of the screen. */
    const catalog: seq<MenuItem>
    var searchText: string
    var pending: Option<string>
    var searchQuery: string
    var selectedCategory: Option<string>
    var menuItems: seq<MenuItem>

    function Search(): SearchState
      reads this
    {
      SearchState(searchText, pending, searchQuery)
    }

    /**
     * The list on display is the filter of the full catalog by the current
     * selection and committed query, the search box is consistent, and the
     * selection is never the label "All".
     */
    predicate Valid()
      reads this
    {
      && Consistent(Search())
      && menuItems == Filter(catalog, selectedCategory, searchQuery)
      && selectedCategory != Some("All")
    }

    /** The mount: every effect has run once, so the whole catalog is shown. */
    constructor (catalog: seq<MenuItem>)
      ensures this.catalog == catalog
      ensures Search() == Mounted
      ensures selectedCategory == None
      ensures menuItems == catalog
      ensures Valid()
    {
      this.catalog := catalog;
      searchText, pending, searchQuery := "", Some(""), "";
      selectedCategory := None;
      menuItems := catalog;
      FilterIdentity(catalog);
    }

    /** `onChangeText` of the search box: the debounce effect reschedules, the list stays. */
    method TypeSearch(text: string)
      requires Valid()
      modifies this
      ensures Search() == Step(old(Search()), Keystroke(text))
      ensures searchQuery == old(searchQuery)
      ensures selectedCategory == old(selectedCategory) && menuItems == old(menuItems)
      ensures Valid()
    {
      if text != searchText {
        searchText := text;
        pending := Some(text);
      }
    }

    /** The debounce timer fires: the query is committed and the filter effect runs. */
    method TimerFires()
      requires Valid()
      modifies this
      ensures Search() == Step(old(Search()), Event.TimerFires)
      ensures selectedCategory == old(selectedCategory)
      ensures Valid()
    {
      if pending.Some? {
        searchQuery := pending.value;
        pending := None;
        menuItems := Filter(catalog, selectedCategory, searchQuery);
      }
    }

    /** A press on a category button: the selection is stored and the filter effect runs. */
    method SelectCategory(button: string)
      requires Valid()
      modifies this
      ensures selectedCategory == CategoryBar.Press(button)
      ensures Search() == old(Search())
      ensures Valid()
    {
      selectedCategory := CategoryBar.Press(button);
      menuItems := Filter(catalog, selectedCategory, searchQuery);
    }
  }

  /** Pressing "All" shows what no selection shows: the filter never compares against "All". */
  lemma PressAllClearsCategory(catalog: seq<MenuItem>, searchQuery: string)
    ensures Filter(catalog, CategoryBar.Press("All"), searchQuery) == Filter(catalog, None, searchQuery)
    ensures Filter(catalog, CategoryBar.Press("All"), "") == catalog
  {
    FilterIdentity(catalog);
  }

  /**
   * A session on a two-item menu: "Starters" is selected, "greek" is typed
   * and its timer fires; only the salad is listed. Pressing "All" then
   * brings back every item matching the query.
   */
  method StartersSearchSession() returns (shown: seq<MenuItem>, afterAll: seq<MenuItem>)
    ensures shown == [GreekSalad]
    ensures afterAll == Filter([GreekSalad, LemonCake], None, "greek")
  {
    var home := new Home([GreekSalad, LemonCake]);
    home.SelectCategory("Starters");
    home.TypeSearch("greek");
    home.TimerFires();
    GreekSaladExample();
    shown := home.menuItems;
    home.SelectCategory("All");
    afterAll := home.menuItems;
  }
}
