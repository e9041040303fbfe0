/**
 * The searchable dropdown (components/ui/CustomSelect.tsx). Its list is the
 * case-insensitive substring filter of the items by the search query; its own
 * state is the open/closed flag and the query. The token selector of
 * components/ui/CurrencyInput.tsx keeps the same state and the same filter and
 * reuses what is defined here.
 */
module CustomSelect {
  import opened Wrappers
  import opened Data

  /** ASCII lower-casing of one character; other characters are unchanged. */
  function LowerChar(c: char): char
  {
    if 'A' <= c <= 'Z' then (c as int + 32) as char else c
  }

  /** `toLowerCase`, restricted to ASCII letters. */
  function Lower(s: string): string
  {
    seq(|s|, i requires 0 <= i < |s| => LowerChar(s[i]))
  }

  /** `needle` occurs in `hay` starting at index `i`. */
  predicate OccursAt(hay: string, needle: string, i: int)
  {
    0 <= i && i + |needle| <= |hay| && hay[i..i + |needle|] == needle
  }

  /** An occurrence at index 0 is a prefix. */
  lemma OccursAtStart(hay: string, needle: string)
    ensures OccursAt(hay, needle, 0) <==> needle <= hay
  {
    if OccursAt(hay, needle, 0) {
      assert hay[..|needle|] == needle;
    }
  }

  /** `String.prototype.includes`: a scan for `needle` from each start index. */
  function Includes(hay: string, needle: string): (b: bool)
    ensures b <==> exists i :: OccursAt(hay, needle, i)
    decreases |hay|
  {
    if needle <= hay then
      assert OccursAt(hay, needle, 0);
      true
    else if hay == [] then
      false
    else
      var rest := Includes(hay[1..], needle);
      OccursAtStart(hay, needle);
      assert forall i :: OccursAt(hay[1..], needle, i) ==> OccursAt(hay, needle, i + 1) by {
        forall i | OccursAt(hay[1..], needle, i) ensures OccursAt(hay, needle, i + 1) {
          assert hay[i + 1..i + 1 + |needle|] == hay[1..][i..i + |needle|];
        }
      }
      assert forall i :: OccursAt(hay, needle, i) ==> OccursAt(hay[1..], needle, i - 1) by {
        forall i | OccursAt(hay, needle, i) ensures OccursAt(hay[1..], needle, i - 1) {
          assert hay[1..][i - 1..i - 1 + |needle|] == hay[i..i + |needle|];
        }
      }
      rest
  }

  /** The filter test of both dropdowns: the lower-cased name contains the lower-cased query. */
  predicate Matches(item: Item, query: string)
  {
    Includes(Lower(item.name), Lower(query))
  }

  /** `filteredItems`: the items whose name matches the query, in their original order. */
  function Filter(items: seq<Item>, query: string): (r: seq<Item>)
    ensures |r| <= |items|
    ensures forall x :: x in r <==> x in items && Matches(x, query)
  {
    if items == [] then []
    else (if Matches(items[0], query) then [items[0]] else []) + Filter(items[1..], query)
  }

  /** `r` is obtained from `s` by deleting elements, keeping the order of the rest. */
  predicate IsSubsequence(r: seq<Item>, s: seq<Item>)
    decreases |s|
  {
    r == [] ||
    (s != [] && (IsSubsequence(r, s[1..]) || (r[0] == s[0] && IsSubsequence(r[1..], s[1..]))))
  }

  /** The filtered list preserves the order of the items. */
  lemma {:induction false} FilterIsSubsequence(items: seq<Item>, query: string)
    ensures IsSubsequence(Filter(items, query), items)
  {
    if items != [] {
      FilterIsSubsequence(items[1..], query);
      var r := Filter(items, query);
      if Matches(items[0], query) {
        assert r == [items[0]] + Filter(items[1..], query);
        assert r[1..] == Filter(items[1..], query);
      } else {
        assert r == Filter(items[1..], query);
      }
    }
  }

  /** The filter keeps every copy of a matching item and no copy of any other. */
  lemma {:induction false} FilterMultiplicity(items: seq<Item>, query: string, x: Item)
    ensures multiset(Filter(items, query))[x] == if Matches(x, query) then multiset(items)[x] else 0
  {
    if items != [] {
      FilterMultiplicity(items[1..], query, x);
      assert items == [items[0]] + items[1..];
      var head := if Matches(items[0], query) then [items[0]] else [];
      assert Filter(items, query) == head + Filter(items[1..], query);
      assert multiset(Filter(items, query)) == multiset(head) + multiset(Filter(items[1..], query));
      assert multiset(items) == multiset([items[0]]) + multiset(items[1..]);
    }
  }

  /** Every name contains the empty query, so an empty query keeps the whole list. */
  lemma {:induction false} EmptyQueryKeepsAll(items: seq<Item>)
    ensures Filter(items, "") == items
  {
    if items != [] {
      EmptyQueryKeepsAll(items[1..]);
      assert Lower("") == "";
      assert Matches(items[0], "");
      assert items == [items[0]] + items[1..];
    }
  }

  /** "No results found" appears exactly when no item matches the query. */
  lemma NoResultsIff(items: seq<Item>, query: string)
    ensures Filter(items, query) == [] <==> forall i :: 0 <= i < |items| ==> !Matches(items[i], query)
  {
    var r := Filter(items, query);
    if r != [] {
      assert r[0] in r;
    }
  }

  /** The placeholder the modal passes, which is also the component's default. */
  const DefaultPlaceholder := "Select an option"

  /** The trigger text: the selected item's name, or the placeholder when nothing is selected. */
  function TriggerText(selected: Option<Item>, placeholder: string): (text: string)
    ensures selected.Some? ==> text == selected.value.name
    ensures selected.None? ==> text == placeholder
  {
    match selected
    case Some(item) => item.name
    case None => placeholder
  }

  /** With nothing selected and the default placeholder, the trigger reads "Select an option". */
  lemma DefaultTriggerText()
    ensures TriggerText(None, DefaultPlaceholder) == "Select an option"
  {
  }

  /**
   * Where a click lands: the trigger, the search box of the open panel, the
   * i-th listed item, or elsewhere in the open panel (its padding, or the
   * "No results found" line).
   */
  datatype Target = Trigger | SearchBox | ItemButton(index: nat) | PanelSpace

  /**
   * The local state of one dropdown: whether its panel is open and the search
   * text. `panelInTrigger` says how the panel is laid out: CustomSelect draws
   * it inside the clickable trigger box, so a click in it that does not stop
   * propagating toggles the dropdown; TokenSelector draws it beside the
   * trigger button.
   */
  class Dropdown {
    var isOpen: bool
    var searchQuery: string
    const panelInTrigger: bool

    /** A mounted dropdown starts closed with an empty query. */
    constructor (panelInTrigger: bool)
      ensures !isOpen && searchQuery == "" && this.panelInTrigger == panelInTrigger
    {
      isOpen := false;
      searchQuery := "";
      this.panelInTrigger := panelInTrigger;
    }

    /** The list the open panel shows. */
    function Visible(items: seq<Item>): seq<Item>
      reads this
    {
      Filter(items, searchQuery)
    }

    /** The open panel shows "No results found". */
    predicate ShowsNoResults(items: seq<Item>)
      reads this
    {
      isOpen && Visible(items) == []
    }

    /**
     * A click. On the trigger it toggles the panel. On the search box it does
     * nothing (CustomSelect stops its propagation; TokenSelector's box is not
     * inside its trigger). On a listed item it reports that item to `onSelect`,
     * closes the panel and clears the query; that click stops propagating, so
     * it does not toggle. Elsewhere in the open panel, the click reaches
     * CustomSelect's trigger box and toggles (closes) the panel, and does
     * nothing in TokenSelector. The panel's parts exist only while it is open.
     */
    method Click(target: Target, items: seq<Item>) returns (chosen: Option<Item>)
      requires !target.Trigger? ==> isOpen
      requires target.ItemButton? ==> target.index < |Filter(items, searchQuery)|
      modifies this
      ensures target.Trigger? ==>
        isOpen == !old(isOpen) && searchQuery == old(searchQuery) && chosen == None
      ensures target.SearchBox? ==>
        isOpen == old(isOpen) && searchQuery == old(searchQuery) && chosen == None
      ensures target.ItemButton? ==>
        chosen == Some(Filter(items, old(searchQuery))[target.index]) && !isOpen && searchQuery == ""
      ensures target.PanelSpace? ==>
        isOpen == !panelInTrigger && searchQuery == old(searchQuery) && chosen == None
      ensures chosen.Some? ==> chosen.value in items && Matches(chosen.value, old(searchQuery))
      ensures target.ItemButton? ==> forall list :: Visible(list) == list
    {
      match target
      case Trigger =>
        isOpen := !isOpen;
        chosen := None;
      case SearchBox =>
        chosen := None;
      case PanelSpace =>
        if panelInTrigger {
          isOpen := !isOpen;
        }
        chosen := None;
      case ItemButton(i) =>
        var item := Filter(items, searchQuery)[i];
        assert item in Filter(items, searchQuery);
        chosen := Some(item);
        isOpen := false;
        searchQuery := "";
        forall list ensures Filter(list, "") == list {
          EmptyQueryKeepsAll(list);
        }
    }

    /** Typing in the search box changes the query and nothing else. */
    method Type(query: string)
      modifies this`searchQuery
      ensures searchQuery == query
    {
      searchQuery := query;
    }

    /** A mousedown anywhere in the document; one outside the dropdown closes it and clears the query. */
    method MouseDown(inside: bool)
      modifies this
      ensures inside ==> isOpen == old(isOpen) && searchQuery == old(searchQuery)
      ensures !inside ==> !isOpen && searchQuery == ""
      ensures !inside ==> forall list :: Visible(list) == list
    {
      if !inside {
        isOpen := false;
        searchQuery := "";
        forall list ensures Filter(list, "") == list {
          EmptyQueryKeepsAll(list);
        }
      }
    }
  }

  /** The panel shows "No results found" exactly when it is open and no item matches the query. */
  lemma ShowsNoResultsIff(d: Dropdown, items: seq<Item>)
    ensures d.ShowsNoResults(items) <==>
      d.isOpen && forall i :: 0 <= i < |items| ==> !Matches(items[i], d.searchQuery)
  {
    NoResultsIff(items, d.searchQuery);
  }
}
