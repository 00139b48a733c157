/**
 * The menu filter of the home screen: from the full catalog, keep the items
 * of the selected category (when one is selected) and then the items whose
 * lower-cased name contains the lower-cased search query (when the query is
 * non-empty). Both passes are stable filters.
 */
module MenuFilter {
  import opened Wrappers
  import opened Text

  /** One catalog entry. `price` is kept as the text the screen displays. */
  datatype MenuItem = MenuItem(
    id: int,
    name: string,
    description: string,
    price: string,
    image: string,
    category: string)

  /** `a` can be obtained from `b` by deleting elements: nothing reordered, duplicated or invented. */
  predicate IsSubsequence<T(==)>(a: seq<T>, b: seq<T>)
    decreases |b|
  {
    if a == [] then true
    else if b == [] then false
    else (a[0] == b[0] && IsSubsequence(a[1..], b[1..])) || IsSubsequence(a, b[1..])
  }

  lemma {:induction false} SubsequenceReflexive<T>(a: seq<T>)
    ensures IsSubsequence(a, a)
    decreases |a|
  {
    if a != [] {
      SubsequenceReflexive(a[1..]);
    }
  }

  lemma {:induction false} SubsequenceTransitive<T>(a: seq<T>, b: seq<T>, c: seq<T>)
    requires IsSubsequence(a, b) && IsSubsequence(b, c)
    ensures IsSubsequence(a, c)
    decreases |c|
  {
    if a != [] && c != [] {
      if IsSubsequence(b, c[1..]) {
        SubsequenceTransitive(a, b, c[1..]);
      } else {
        assert b != [] && b[0] == c[0] && IsSubsequence(b[1..], c[1..]);
        if a[0] == b[0] && IsSubsequence(a[1..], b[1..]) {
          SubsequenceTransitive(a[1..], b[1..], c[1..]);
        } else {
          SubsequenceTransitive(a, b[1..], c[1..]);
        }
      }
    }
  }

  /**
   * `Array.prototype.filter`: the elements of `s` that satisfy `p`, in order,
   * each as often as it occurs in `s`.
   */
  function Keep<T(==,!new)>(s: seq<T>, p: T -> bool): (r: seq<T>)
    ensures IsSubsequence(r, s)
    ensures forall x :: x in r <==> x in s && p(x)
    ensures forall x {:trigger multiset(r)[x]} :: p(x) ==> multiset(r)[x] == multiset(s)[x]
    decreases |s|
  {
    if s == [] then []
    else
      var rest := Keep(s[1..], p);
      assert s == [s[0]] + s[1..];
      if p(s[0]) then [s[0]] + rest else rest
  }

  /** One step of the filter: the head is kept when it passes, then the tail is filtered. */
  lemma KeepUnfold<T(!new)>(s: seq<T>, p: T -> bool)
    requires s != []
    ensures Keep(s, p) == (if p(s[0]) then [s[0]] else []) + Keep(s[1..], p)
  {
  }

  lemma {:induction false} KeepAppend<T(!new)>(a: seq<T>, b: seq<T>, p: T -> bool)
    ensures Keep(a + b, p) == Keep(a, p) + Keep(b, p)
    decreases |a|
  {
    if a == [] {
      assert a + b == b;
    } else {
      var head := if p(a[0]) then [a[0]] else [];
      calc {
        Keep(a + b, p);
      == { assert (a + b)[0] == a[0]; assert (a + b)[1..] == a[1..] + b; KeepUnfold(a + b, p); }
        head + Keep(a[1..] + b, p);
      == { KeepAppend(a[1..], b, p); }
        head + (Keep(a[1..], p) + Keep(b, p));
      ==
        (head + Keep(a[1..], p)) + Keep(b, p);
      == { KeepUnfold(a, p); }
        Keep(a, p) + Keep(b, p);
      }
    }
  }

  /** Two stable filters applied one after the other give the same sequence in either order. */
  lemma {:induction false} KeepCommutes<T(!new)>(s: seq<T>, p: T -> bool, q: T -> bool)
    ensures Keep(Keep(s, p), q) == Keep(Keep(s, q), p)
    decreases |s|
  {
    if s != [] {
      var h, t := s[0], s[1..];
      KeepCommutes(t, p, q);
      KeepAppend(if p(h) then [h] else [], Keep(t, p), q);
      KeepAppend(if q(h) then [h] else [], Keep(t, q), p);
    }
  }

  /** The category predicate: `item.category === selectedCategory`. */
  function CategoryIs(category: string): MenuItem -> bool
  {
    (item: MenuItem) => item.category == category
  }

  /** The text predicate: `item.name.toLowerCase().includes(query.toLowerCase())`. */
  function NameHas(query: string): MenuItem -> bool
  {
    (item: MenuItem) => Contains(ToLower(item.name), ToLower(query))
  }

  /** The condition an item must meet to be shown, both filters taken together. */
  predicate Admits(selected: Option<string>, searchQuery: string, item: MenuItem)
  {
    && (Truthy(selected) ==> item.category == selected.value)
    && (searchQuery != "" ==> Contains(ToLower(item.name), ToLower(searchQuery)))
  }

  /**
   * The filter effect. It always restarts from the full catalog; an unset
   * category and an empty query are no-ops.
   */
  function Filter(catalog: seq<MenuItem>, selected: Option<string>, searchQuery: string): (r: seq<MenuItem>)
    ensures IsSubsequence(r, catalog)
    ensures forall item :: item in r <==> item in catalog && Admits(selected, searchQuery, item)
    ensures forall item :: Admits(selected, searchQuery, item) ==> multiset(r)[item] == multiset(catalog)[item]
  {
    var byCategory := if Truthy(selected) then Keep(catalog, CategoryIs(selected.value)) else catalog;
    SubsequenceReflexive(catalog);
    if searchQuery != "" then
      var byName := Keep(byCategory, NameHas(searchQuery));
      SubsequenceTransitive(byName, byCategory, catalog);
      byName
    else
      byCategory
  }

  /** The same two passes with the text filter applied first. */
  function FilterTextFirst(catalog: seq<MenuItem>, selected: Option<string>, searchQuery: string): seq<MenuItem>
  {
    var byName := if searchQuery != "" then Keep(catalog, NameHas(searchQuery)) else catalog;
    if Truthy(selected) then Keep(byName, CategoryIs(selected.value)) else byName
  }

  /** No category and no query: the whole catalog, in catalog order. */
  lemma FilterIdentity(catalog: seq<MenuItem>)
    ensures Filter(catalog, None, "") == catalog
    ensures Filter(catalog, Some(""), "") == catalog
  {
  }

  /** Applying the category filter before or after the text filter gives the same sequence. */
  lemma FilterOrderIrrelevant(catalog: seq<MenuItem>, selected: Option<string>, searchQuery: string)
    ensures Filter(catalog, selected, searchQuery) == FilterTextFirst(catalog, selected, searchQuery)
  {
    if Truthy(selected) && searchQuery != "" {
      KeepCommutes(catalog, CategoryIs(selected.value), NameHas(searchQuery));
    }
  }

  /** Selecting a category only narrows the result obtained without one. */
  lemma CategoryOnlyNarrows(catalog: seq<MenuItem>, category: string, searchQuery: string)
    ensures IsSubsequence(Filter(catalog, Some(category), searchQuery), Filter(catalog, None, searchQuery))
  {
    var unfiltered := Filter(catalog, None, searchQuery);
    if category == "" {
      SubsequenceReflexive(unfiltered);
    } else {
      FilterOrderIrrelevant(catalog, Some(category), searchQuery);
      assert Filter(catalog, Some(category), searchQuery) == Keep(unfiltered, CategoryIs(category));
    }
  }

  /** Two catalog entries used to illustrate the filter. */
  const GreekSalad := MenuItem(1, "Greek Salad", "", "12.99", "greekSalad.jpg", "Starters")
  const LemonCake := MenuItem(2, "Lemon Cake", "", "6.99", "lemonDessert.jpg", "Desserts")

  /** Selecting "Starters" keeps only the salad. */
  lemma StartersOnly()
    ensures Keep([GreekSalad, LemonCake], CategoryIs("Starters")) == [GreekSalad]
  {
    assert [GreekSalad, LemonCake][1..] == [LemonCake];
    assert [LemonCake][1..] == [];
    assert Keep([LemonCake], CategoryIs("Starters")) == [];
  }

  lemma SaladMatches()
    ensures NameHas("greek")(GreekSalad)
    ensures !NameHas("cake")(GreekSalad)
  {
    LowerSaladExample();
    assert ToLower("greek") == "greek" && ToLower("cake") == "cake";
    NoCakeInSalad();
    assert StartsWith("greek salad", "greek");
  }

  /** A category and a query both apply: one item survives, then none. */
  lemma GreekSaladExample()
    ensures Filter([GreekSalad, LemonCake], Some("Starters"), "greek") == [GreekSalad]
    ensures Filter([GreekSalad, LemonCake], Some("Starters"), "cake") == []
  {
    StartersOnly();
    SaladMatches();
    assert [GreekSalad][1..] == [];
  }
}
