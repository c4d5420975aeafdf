/** The header's product search (components/layout/Header.tsx): a query box
    whose debounced search fills a dropdown of at most six results, keyboard
    selection within the dropdown, and the search submit. The database's
    answer and `encodeURIComponent` are arguments of the methods. */
module Header {
  import opened Wrappers
  import opened Domain
  import Text
  import Url

  datatype Key = ArrowDown | ArrowUp | Enter | Escape | OtherKey

  predicate IsArrow(key: Key) {
    key == ArrowDown || key == ArrowUp
  }

  /** The highlighted result after an arrow key, over `len` results: down
      moves one further but not past the last result, up moves one back and
      from the first result (or none) leaves no result highlighted (-1). */
  function ArrowStep(key: Key, i: int, len: int): (r: int)
    requires IsArrow(key)
    ensures -1 <= i < len ==> -1 <= r < len
    ensures key == ArrowDown && i < len - 1 ==> r == i + 1
    ensures key == ArrowDown && i >= len - 1 ==> r == i
    ensures key == ArrowUp && i > 0 ==> r == i - 1
    ensures key == ArrowUp && i <= 0 ==> r == -1
  {
    if key == ArrowDown then (if i < len - 1 then i + 1 else i)
    else (if i > 0 then i - 1 else -1)
  }

  /** The index after a series of key presses over an unchanged result list;
      keys other than the arrows leave it where it is. */
  function Presses(keys: seq<Key>, i: int, len: int): int
    decreases |keys|
  {
    if keys == [] then i
    else Presses(keys[1..], if IsArrow(keys[0]) then ArrowStep(keys[0], i, len) else i, len)
  }

  /** Starting anywhere in [-1, len - 1], the index stays there whatever is pressed. */
  lemma {:induction false} PressesStayInRange(keys: seq<Key>, i: int, len: int)
    requires -1 <= i < len
    ensures -1 <= Presses(keys, i, len) < len
    decreases |keys|
  {
    if keys != [] {
      PressesStayInRange(keys[1..], if IsArrow(keys[0]) then ArrowStep(keys[0], i, len) else i, len);
    }
  }

  function Repeat(key: Key, k: nat): (r: seq<Key>)
    ensures |r| == k && forall j :: 0 <= j < k ==> r[j] == key
  {
    seq(k, _ => key)
  }

  /** `k` presses of the down arrow move `k` results further, up to the last. */
  lemma {:induction false} DownPresses(i: int, len: int, k: nat)
    requires -1 <= i < len
    ensures Presses(Repeat(ArrowDown, k), i, len) == if i + k < len then i + k else len - 1
    decreases k
  {
    if k > 0 {
      assert Repeat(ArrowDown, k)[1..] == Repeat(ArrowDown, k - 1);
      DownPresses(ArrowStep(ArrowDown, i, len), len, k - 1);
    }
  }

  /** `k` presses of the up arrow move `k` results back, down to -1. */
  lemma {:induction false} UpPresses(i: int, len: int, k: nat)
    requires -1 <= i < len
    ensures Presses(Repeat(ArrowUp, k), i, len) == if i - k >= -1 then i - k else -1
    decreases k
  {
    if k > 0 {
      assert Repeat(ArrowUp, k)[1..] == Repeat(ArrowUp, k - 1);
      UpPresses(ArrowStep(ArrowUp, i, len), len, k - 1);
    }
  }

  /** What Enter does with the highlighted index as written: nothing without
      a highlight, a visit to that product, or, for an index past the end of
      the list, a TypeError reading `id` of `undefined`. */
  datatype EnterEffect = Ignored | Navigate(path: string) | Crash

  function EnterAsWritten(results: seq<Product>, i: int): (r: EnterEffect)
    ensures r.Ignored? <==> i < 0
    ensures r.Crash? <==> i >= 0 && i >= |results|
    ensures r.Navigate? ==> 0 <= i < |results| && r.path == "/products/" + results[i].id
  {
    if i < 0 then Ignored
    else if i < |results| then Navigate("/products/" + results[i].id)
    else Crash
  }

  /** The debounced search as written, on the result list and the highlighted
      index: a blank query clears the list, a search replaces it with the rows
      found (or clears it on error), and the index is left as it was. */
  function DebounceAsWritten(query: string, found: Option<seq<Product>>, i: int): (r: (seq<Product>, int))
    ensures r.1 == i
    ensures Text.AllSpace(query) || found.None? ==> r.0 == []
    ensures !Text.AllSpace(query) && found.Some? ==> r.0 == Limit(found.value)
  {
    if Text.Trim(query) != "" && found.Some? then (Limit(found.value), i) else ([], i)
  }

  /** New results leave the highlighted index as it was, so an index chosen
      in a longer list survives into a shorter one: six presses of the down
      arrow over six results highlight the sixth, and after a search that
      finds one product Enter reads past the end of the list. */
  lemma StaleIndexCrashes(query: string, six: seq<Product>, one: seq<Product>)
    requires |six| == 6 && |one| == 1 && !Text.AllSpace(query)
    ensures Presses(Repeat(ArrowDown, 6), -1, |six|) == 5
    ensures var after := DebounceAsWritten(query, Some(one), 5);
      after.0 == one && EnterAsWritten(after.0, after.1).Crash?
  {
    DownPresses(-1, 6, 6);
  }

  /** With the index kept within the list, Enter never reads past its end. */
  lemma EnterWithinListNavigates(results: seq<Product>, i: int)
    requires -1 <= i < |results|
    ensures !EnterAsWritten(results, i).Crash?
    ensures i >= 0 ==> EnterAsWritten(results, i) == Navigate("/products/" + results[i].id)
  {
  }

  /** `.limit(6)`: the first six rows at most. */
  function Limit(rows: seq<Product>): (r: seq<Product>)
    ensures |r| <= 6 && |r| <= |rows| && r == rows[..|r|]
    ensures |rows| <= 6 ==> r == rows
  {
    if |rows| <= 6 then rows else rows[..6]
  }

  /** Where the search form goes: the product list, searching for the trimmed
      query when it is not blank. `encode` is `encodeURIComponent`. */
  function SearchTarget(query: string, encode: string -> string): (r: string)
    ensures Text.AllSpace(query) ==> r == "/products"
  {
    var q := Text.Trim(query);
    if q != "" then "/products?search=" + encode(q) else "/products"
  }

  /** The product list reads the encoded, trimmed query back from the target. */
  lemma SearchTargetReadsBack(query: string, encode: string -> string)
    requires !Text.AllSpace(query) && '&' !in encode(Text.Trim(query))
    ensures Url.Path(SearchTarget(query, encode)) == "/products"
    ensures Url.GetParam(SearchTarget(query, encode), "search") == Some(encode(Text.Trim(query)))
  {
    var e := encode(Text.Trim(query));
    assert SearchTarget(query, encode) == "/products?search=" + e;
    SearchUrlReadsBack(e);
  }

  lemma SearchUrlReadsBack(e: string)
    requires '&' !in e
    ensures Url.Path("/products?search=" + e) == "/products"
    ensures Url.GetParam("/products?search=" + e, "search") == Some(e)
  {
    var pairs := [("search", e)];
    assert Url.WellFormedPairs(pairs) by {
      assert '=' !in "search" && '&' !in "search";
    }
    assert Url.QueryString(pairs) == "search=" + e;
    var url := "/products" + "?" + Url.QueryString(pairs);
    assert url == "/products?search=" + e;
    Url.ReadBackUrl("/products", pairs, "search");
  }

  /** The search box. The highlighted index goes back to -1 whenever the
      result list is replaced, which keeps it within the list. */
  class SearchBox {
    var query: string
    var results: seq<Product>
    var showDropdown: bool
    var selectedIndex: int
    var route: Option<string>

    ghost predicate Valid()
      reads this
    {
      -1 <= selectedIndex < |results| && |results| <= 6
    }

    constructor ()
      ensures Valid() && query == "" && results == [] && !showDropdown && selectedIndex == -1 && route.None?
    {
      query := "";
      results := [];
      showDropdown := false;
      selectedIndex := -1;
      route := None;
    }

    method QueryChange(q: string)
      modifies this`query
      ensures query == q
    {
      query := q;
    }

    /** The debounced search, once the query has rested. `found` is the
        database's answer for the query: its rows, or None when it fails. */
    method DebounceFire(found: Option<seq<Product>>)
      requires Valid()
      modifies this`results, this`showDropdown, this`selectedIndex
      ensures Valid() && selectedIndex == -1
      ensures results == DebounceAsWritten(query, found, old(selectedIndex)).0
      ensures Text.AllSpace(query) ==> results == [] && !showDropdown
      ensures !Text.AllSpace(query) && found.Some? ==> results == Limit(found.value) && showDropdown
      ensures !Text.AllSpace(query) && found.None? ==> results == [] && showDropdown == old(showDropdown)
    {
      results := DebounceAsWritten(query, found, selectedIndex).0;
      if Text.Trim(query) == "" {
        showDropdown := false;
      } else if found.Some? {
        showDropdown := true;
      }
      selectedIndex := -1;
    }

    /** Focusing the box reopens the dropdown for a query that is not blank. */
    method Focus()
      modifies this`showDropdown
      ensures showDropdown == (old(showDropdown) || !Text.AllSpace(query))
    {
      if Text.Trim(query) != "" {
        showDropdown := true;
      }
    }

    /** A mouse press outside the search area, or a click on a result card,
        whose only handler hides the dropdown. */
    method ClickOutside()
      modifies this`showDropdown
      ensures !showDropdown
    {
      showDropdown := false;
    }

    /** The search form's submit. */
    method SubmitSearch(encode: string -> string)
      modifies this`route, this`showDropdown
      ensures route == Some(SearchTarget(query, encode))
      ensures showDropdown == (old(showDropdown) && Text.AllSpace(query))
    {
      if Text.Trim(query) != "" {
        route := Some("/products?search=" + encode(Text.Trim(query)));
        showDropdown := false;
      } else {
        route := Some("/products");
      }
    }

    /** A key in the search box. Keys do nothing while the dropdown is hidden
        or empty; the arrows move the highlight, Enter opens the highlighted
        product, Escape hides the dropdown. */
    method KeyDown(key: Key)
      requires Valid()
      modifies this`selectedIndex, this`showDropdown, this`query, this`route
      ensures Valid()
      ensures !old(showDropdown) || results == [] || key == OtherKey || (key == Enter && old(selectedIndex) < 0) ==>
        selectedIndex == old(selectedIndex) && showDropdown == old(showDropdown) &&
        query == old(query) && route == old(route)
      ensures old(showDropdown) && results != [] && IsArrow(key) ==>
        selectedIndex == ArrowStep(key, old(selectedIndex), |results|) && showDropdown &&
        query == old(query) && route == old(route)
      ensures old(showDropdown) && results != [] && key == Enter && old(selectedIndex) >= 0 ==>
        route == Some("/products/" + results[old(selectedIndex)].id) && !showDropdown && query == "" &&
        selectedIndex == old(selectedIndex)
      ensures old(showDropdown) && results != [] && key == Escape ==>
        !showDropdown && selectedIndex == old(selectedIndex) && query == old(query) && route == old(route)
    {
      if !showDropdown || |results| == 0 {
        return;
      }
      if key == ArrowDown {
        selectedIndex := if selectedIndex < |results| - 1 then selectedIndex + 1 else selectedIndex;
      } else if key == ArrowUp {
        selectedIndex := if selectedIndex > 0 then selectedIndex - 1 else -1;
      } else if key == Enter && selectedIndex >= 0 {
        route := Some("/products/" + results[selectedIndex].id);
        showDropdown := false;
        query := "";
      } else if key == Escape {
        showDropdown := false;
      }
    }
  }
}
