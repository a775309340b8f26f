/**
 * The sidebar's menu search: a recursive filter over the menu tree
 * (`MenuItem` in src/types/menu.ts, `filterMenuItems` in
 * src/components/sidebar/MenuFilter.tsx).
 */
module MenuFilter {
  import opened Wrappers
  import opened Strings

  /**
   * The optional `submenu` of a menu entry. A present but empty submenu
   * (`[]`, truthy in JavaScript) is not the same as an absent one.
   */
  datatype Submenu = NoSubmenu | Submenu(items: seq<MenuItem>)

  /** A menu entry; the icon component is not modelled. */
  datatype MenuItem = MenuItem(title: string, path: Option<string>, submenu: Submenu)

  /** `item.title.toLowerCase().includes(searchTerm.toLowerCase())`. */
  predicate TitleMatches(item: MenuItem, term: string)
  {
    ContainsIgnoreCase(item.title, term)
  }

  /** Two entries show the same menu link: same title and same path. */
  predicate SameEntry(a: MenuItem, b: MenuItem)
  {
    a.title == b.title && a.path == b.path
  }

  /**
   * `out` is an order-preserving subsequence of `inp`, element by element
   * the same entries (their submenus may differ).
   */
  predicate Embeds(out: seq<MenuItem>, inp: seq<MenuItem>)
  {
    if out == [] then true
    else if inp == [] then false
    else (SameEntry(out[0], inp[0]) && Embeds(out[1..], inp[1..])) || Embeds(out, inp[1..])
  }

  /** `filterMenuItems(items, searchTerm)`: an empty term returns the list as it is. */
  function FilterMenuItems(items: seq<MenuItem>, term: string): (r: seq<MenuItem>)
    ensures term == "" ==> r == items
    ensures Embeds(r, items) && |r| <= |items|
  {
    if term == "" then EmbedsReflexive(items); items else FilterList(items, term)
  }

  /** The `map(...).filter(Boolean)` pipeline for a non-empty term. */
  function FilterList(items: seq<MenuItem>, term: string): (r: seq<MenuItem>)
    ensures Embeds(r, items) && |r| <= |items|
    ensures forall x | x in r :: TitleMatches(x, term) || (x.submenu.Submenu? && x.submenu.items != [])
    decreases items
  {
    if items == [] then []
    else
      match FilterItem(items[0], term)
      case Some(kept) => [kept] + FilterList(items[1..], term)
      case None => FilterList(items[1..], term)
  }

  /**
   * The callback of `map`: the item with its submenu replaced by the
   * filtered submenu, or `None` (JavaScript `null`) when it is dropped.
   */
  function FilterItem(item: MenuItem, term: string): (r: Option<MenuItem>)
    ensures r.Some? ==> SameEntry(r.value, item)
    ensures r.Some? ==> TitleMatches(r.value, term) || (r.value.submenu.Submenu? && r.value.submenu.items != [])
    ensures TitleMatches(item, term) || (FilterSubmenu(item, term).Submenu? && FilterSubmenu(item, term).items != []) ==> r.Some?
    decreases item
  {
    var filteredSubmenu := FilterSubmenu(item, term);
    if TitleMatches(item, term) || (filteredSubmenu.Submenu? && |filteredSubmenu.items| > 0) then
      Some(item.(submenu := filteredSubmenu))
    else
      None
  }

  /** `item.submenu ? filterMenuItems(item.submenu, searchTerm) : undefined`. */
  function FilterSubmenu(item: MenuItem, term: string): Submenu
    decreases item, 0
  {
    match item.submenu
    case NoSubmenu => NoSubmenu
    case Submenu(children) => Submenu(FilterList(children, term))
  }

  /** Every entry of a list is kept by the filter. */
  predicate Pruned(items: seq<MenuItem>, term: string)
    decreases items
  {
    forall i | 0 <= i < |items| :: ItemPruned(items[i], term)
  }

  /**
   * An entry the filter leaves as it is: its title matches or it has a
   * non-empty submenu, and the same holds throughout that submenu. In
   * particular every leaf of a pruned tree has a matching title.
   */
  predicate ItemPruned(item: MenuItem, term: string)
    decreases item
  {
    && (TitleMatches(item, term) || (item.submenu.Submenu? && item.submenu.items != []))
    && (item.submenu.Submenu? ==> Pruned(item.submenu.items, term))
  }

  lemma {:induction false} EmbedsReflexive(items: seq<MenuItem>)
    ensures Embeds(items, items)
  {
    if items != [] {
      EmbedsReflexive(items[1..]);
    }
  }

  /** Filtering with an empty term is the identity. */
  lemma EmptyTermIsIdentity(items: seq<MenuItem>)
    ensures FilterMenuItems(items, "") == items
  {
  }

  /**
   * An item without a submenu is kept exactly when its title matches, and
   * then it is kept unchanged.
   */
  lemma LeafKeptIffTitleMatches(item: MenuItem, term: string)
    requires item.submenu.NoSubmenu?
    ensures FilterItem(item, term).Some? <==> TitleMatches(item, term)
    ensures FilterItem(item, term).Some? ==> FilterItem(item, term).value == item
  {
  }

  /**
   * A kept item carries the filtered submenu in place of its own, so the
   * children that do not survive the filter are gone even when the parent
   * matches; an item whose title does not match and whose filtered
   * children are all gone is removed.
   */
  lemma KeptItemCarriesFilteredSubmenu(item: MenuItem, term: string)
    ensures FilterItem(item, term).Some? ==>
      FilterItem(item, term).value == item.(submenu := FilterSubmenu(item, term))
    ensures !TitleMatches(item, term) && (item.submenu.NoSubmenu? || FilterList(item.submenu.items, term) == []) ==>
      FilterItem(item, term).None?
  {
  }

  /** The result consists exactly of the items the callback keeps, in order. */
  lemma {:induction false} FilterListMembers(items: seq<MenuItem>, term: string, x: MenuItem)
    ensures x in FilterList(items, term) <==> exists i :: 0 <= i < |items| && FilterItem(items[i], term) == Some(x)
    decreases items
  {
    if items != [] {
      FilterListMembers(items[1..], term, x);
      if exists i :: 0 <= i < |items[1..]| && FilterItem(items[1..][i], term) == Some(x) {
        var i :| 0 <= i < |items[1..]| && FilterItem(items[1..][i], term) == Some(x);
        assert FilterItem(items[i + 1], term) == Some(x);
      }
      if exists i :: 0 <= i < |items| && FilterItem(items[i], term) == Some(x) {
        var i :| 0 <= i < |items| && FilterItem(items[i], term) == Some(x);
        if i > 0 {
          assert FilterItem(items[1..][i - 1], term) == Some(x);
        }
      }
    }
  }

  /**
   * An entry whose title matches, or whose filtered submenu still has
   * entries, stays in the list, carrying its filtered submenu.
   */
  lemma MatchingEntryKept(items: seq<MenuItem>, term: string, i: int)
    requires 0 <= i < |items|
    requires TitleMatches(items[i], term) || (FilterSubmenu(items[i], term).Submenu? && FilterSubmenu(items[i], term).items != [])
    ensures items[i].(submenu := FilterSubmenu(items[i], term)) in FilterList(items, term)
  {
    FilterListMembers(items, term, items[i].(submenu := FilterSubmenu(items[i], term)));
  }

  /** Everything the filter returns is pruned, at every depth. */
  lemma {:induction false} FilterListIsPruned(items: seq<MenuItem>, term: string)
    ensures Pruned(FilterList(items, term), term)
    decreases items
  {
    if items != [] {
      FilterListIsPruned(items[1..], term);
      FilterItemIsPruned(items[0], term);
      var r := FilterList(items, term);
      forall i | 0 <= i < |r| ensures ItemPruned(r[i], term) {
        if FilterItem(items[0], term).Some? && i > 0 {
          assert r[i] == FilterList(items[1..], term)[i - 1];
        }
      }
    }
  }

  lemma {:induction false} FilterItemIsPruned(item: MenuItem, term: string)
    ensures FilterItem(item, term).Some? ==> ItemPruned(FilterItem(item, term).value, term)
    decreases item
  {
    if item.submenu.Submenu? {
      FilterListIsPruned(item.submenu.items, term);
    }
  }

  /** A pruned list is a fixed point of the filter. */
  lemma {:induction false} PrunedIsFixpoint(items: seq<MenuItem>, term: string)
    requires Pruned(items, term)
    ensures FilterList(items, term) == items
    decreases items
  {
    if items != [] {
      PrunedItemIsKept(items[0], term);
      assert Pruned(items[1..], term) by {
        forall i | 0 <= i < |items[1..]| ensures ItemPruned(items[1..][i], term) {
          assert items[1..][i] == items[i + 1];
        }
      }
      PrunedIsFixpoint(items[1..], term);
    }
  }

  lemma {:induction false} PrunedItemIsKept(item: MenuItem, term: string)
    requires ItemPruned(item, term)
    ensures FilterItem(item, term) == Some(item)
    decreases item
  {
    if item.submenu.Submenu? {
      PrunedIsFixpoint(item.submenu.items, term);
    }
  }

  /** Filtering the result again with the same term yields the same tree. */
  lemma FilterIdempotent(items: seq<MenuItem>, term: string)
    ensures FilterMenuItems(FilterMenuItems(items, term), term) == FilterMenuItems(items, term)
  {
    if term != "" {
      FilterListIsPruned(items, term);
      PrunedIsFixpoint(FilterList(items, term), term);
    }
  }
}
