/** The admin's product picker for a home-page section
    (components/admin/ProductSelector.tsx): a text filter over the catalogue,
    the split into selected and available products, and the edits of the
    ordered selection (toggle, remove, move up or down). */
module ProductSelector {
  import opened Wrappers
  import opened Domain
  import Text
  import Seqs
  import Sections

  // ---------------------------------------------------------------------------
  // Filtering and the two lists

  /** The search filter: the query, lower-cased, occurs in the lower-cased
      name or in the lower-cased description (a product without description
      matches on its name only). */
  predicate Matches(p: Product, query: string) {
    var q := Text.ToLower(query);
    Text.Contains(Text.ToLower(p.name), q) ||
    (p.description.Some? && Text.Contains(Text.ToLower(p.description.value), q))
  }

  /** `Matches`, stated through positions: a product matches exactly when the
      lower-cased query starts at some position of its lower-cased name or
      description. */
  lemma MatchesIffOccurs(p: Product, query: string)
    ensures Matches(p, query) <==>
      (exists i :: Text.OccursAt(Text.ToLower(p.name), Text.ToLower(query), i)) ||
      (p.description.Some? && exists i :: Text.OccursAt(Text.ToLower(p.description.value), Text.ToLower(query), i))
  {
    Text.ContainsIsOccurrence(Text.ToLower(p.name), Text.ToLower(query));
    if p.description.Some? {
      Text.ContainsIsOccurrence(Text.ToLower(p.description.value), Text.ToLower(query));
    }
  }

  function Filtered(products: seq<Product>, query: string): seq<Product> {
    Seqs.Filter(products, (p: Product) => Matches(p, query))
  }

  /** The empty query matches every product. */
  lemma EmptyQueryMatchesAll(products: seq<Product>)
    ensures Filtered(products, "") == products
  {
    forall i | 0 <= i < |products| ensures Matches(products[i], "") {
      Text.ContainsEmpty(Text.ToLower(products[i].name));
    }
    Seqs.FilterKeepsAll(products, (p: Product) => Matches(p, ""));
  }

  /** The selected products, in catalogue order (not selection order). */
  function Selected(products: seq<Product>, ids: seq<ProductId>): seq<Product> {
    Seqs.Filter(products, (p: Product) => p.id in ids)
  }

  /** The products offered for selection: matching and not selected. */
  function Available(products: seq<Product>, query: string, ids: seq<ProductId>): seq<Product> {
    Seqs.Filter(Filtered(products, query), (p: Product) => p.id !in ids)
  }

  /** No product is both selected and offered, and every matching product is
      one of the two. */
  lemma SelectedAvailablePartition(products: seq<Product>, query: string, ids: seq<ProductId>)
    ensures forall i, j :: 0 <= i < |Selected(products, ids)| && 0 <= j < |Available(products, query, ids)| ==>
      Selected(products, ids)[i].id != Available(products, query, ids)[j].id
    ensures forall i :: 0 <= i < |products| && Matches(products[i], query) ==>
      products[i] in Selected(products, ids) || products[i] in Available(products, query, ids)
  {
    var avail := Available(products, query, ids);
    var filtered := Filtered(products, query);
    forall i | 0 <= i < |products| && Matches(products[i], query)
      ensures products[i] in Selected(products, ids) || products[i] in avail
    {
      if products[i].id !in ids {
        var k :| 0 <= k < |filtered| && filtered[k] == products[i];
        assert filtered[k] in avail;
      }
    }
  }

  /** The selected list splits like the catalogue does, so it keeps the
      catalogue's relative order. */
  lemma SelectedKeepsCatalogueOrder(a: seq<Product>, b: seq<Product>, ids: seq<ProductId>)
    ensures Selected(a + b, ids) == Selected(a, ids) + Selected(b, ids)
  {
    Seqs.FilterAppend(a, b, (p: Product) => p.id in ids);
  }

  // ---------------------------------------------------------------------------
  // Editing the selection

  /** The selection without any occurrence of `id`. */
  function Remove(ids: seq<ProductId>, id: ProductId): (r: seq<ProductId>)
    ensures id !in r
    ensures forall x :: x != id ==> (x in r <==> x in ids)
  {
    Seqs.Filter(ids, (x: ProductId) => x != id)
  }

  /** Removal works piece by piece: it splits over a concatenation, and on one
      id drops it or keeps it. So the remaining ids keep their order. */
  lemma RemoveKeepsOrder(a: seq<ProductId>, b: seq<ProductId>, id: ProductId, x: ProductId)
    ensures Remove(a + b, id) == Remove(a, id) + Remove(b, id)
    ensures Remove([x], id) == if x == id then [] else [x]
  {
    Seqs.FilterAppend(a, b, (y: ProductId) => y != id);
    assert [x][1..] == [];
  }

  /** Removing an id that is not selected changes nothing. */
  lemma RemoveAbsentIsNoOp(ids: seq<ProductId>, id: ProductId)
    requires id !in ids
    ensures Remove(ids, id) == ids
  {
    Seqs.FilterKeepsAll(ids, (x: ProductId) => x != id);
  }

  /** Clicking a product: a selected id is removed everywhere, another is appended. */
  function Toggle(ids: seq<ProductId>, id: ProductId): (r: seq<ProductId>)
    ensures id in ids ==> r == Remove(ids, id) && id !in r && forall x :: x != id ==> (x in r <==> x in ids)
    ensures id !in ids ==> r == ids + [id]
  {
    if id in ids then Remove(ids, id) else ids + [id]
  }

  /** Toggling an unselected id twice restores the selection. */
  lemma {:induction false} ToggleTwiceRestores(ids: seq<ProductId>, id: ProductId)
    requires id !in ids
    ensures Toggle(Toggle(ids, id), id) == ids
  {
    var keep := (x: ProductId) => x != id;
    Seqs.FilterAppend(ids, [id], keep);
    Seqs.FilterKeepsAll(ids, keep);
    assert Seqs.Filter([id], keep) == [];
    assert ids + [] == ids;
  }

  // ---------------------------------------------------------------------------
  // Moving within the selection

  datatype Direction = Up | Down

  /** The position of the first occurrence of `id`, or -1. */
  function IndexOf(ids: seq<ProductId>, id: ProductId): (r: int)
    ensures -1 <= r < |ids|
    ensures r == -1 <==> id !in ids
    ensures r >= 0 ==> ids[r] == id && forall j :: 0 <= j < r ==> ids[j] != id
    decreases |ids|
  {
    if ids == [] then -1
    else if ids[0] == id then 0
    else
      var k := IndexOf(ids[1..], id);
      if k == -1 then -1 else k + 1
  }

  /** A position holding `id` with no `id` before it is the one `IndexOf` finds. */
  lemma IndexOfAt(ids: seq<ProductId>, id: ProductId, m: nat)
    requires m < |ids| && ids[m] == id
    requires forall j :: 0 <= j < m ==> ids[j] != id
    ensures IndexOf(ids, id) == m
  {
    assert id in ids;
  }

  /** Whether the up button of a selected product is disabled. */
  predicate UpDisabled(ids: seq<ProductId>, id: ProductId) {
    IndexOf(ids, id) == 0
  }

  /** Whether the down button of a selected product is disabled. */
  predicate DownDisabled(ids: seq<ProductId>, id: ProductId) {
    IndexOf(ids, id) == |ids| - 1
  }

  /** The selection after a move: the id trades places with its neighbour in
      that direction; nothing changes at either end, or when the id is not
      selected. */
  function Moved(ids: seq<ProductId>, id: ProductId, dir: Direction): (r: seq<ProductId>)
    ensures |r| == |ids| && multiset(r) == multiset(ids)
  {
    var k := IndexOf(ids, id);
    if k < 0 || (dir == Up && k == 0) || (dir == Down && k == |ids| - 1) then ids
    else
      var j := Neighbour(k, dir);
      ids[k := ids[j]][j := ids[k]]
  }

  /** The position a move trades places with. */
  function Neighbour(k: int, dir: Direction): int {
    match dir
    case Up => k - 1
    case Down => k + 1
  }

  /** A move whose button is disabled changes nothing. */
  lemma MoveAtEdgeIsNoOp(ids: seq<ProductId>, id: ProductId)
    ensures UpDisabled(ids, id) ==> Moved(ids, id, Up) == ids
    ensures DownDisabled(ids, id) ==> Moved(ids, id, Down) == ids
  {
  }

  /** Otherwise the id and its neighbour trade places and every other
      position keeps its id. */
  lemma MoveSwapsNeighbours(ids: seq<ProductId>, id: ProductId, dir: Direction)
    requires id in ids
    requires dir == Up ==> !UpDisabled(ids, id)
    requires dir == Down ==> !DownDisabled(ids, id)
    ensures var k := IndexOf(ids, id);
      var j := Neighbour(k, dir);
      0 <= j < |ids| &&
      Moved(ids, id, dir)[j] == id && Moved(ids, id, dir)[k] == ids[j] &&
      forall i :: 0 <= i < |ids| && i != k && i != j ==> Moved(ids, id, dir)[i] == ids[i]
  {
  }

  /** With distinct ids, moving up and then down restores the selection. */
  lemma {:induction false} UpThenDownRestores(ids: seq<ProductId>, id: ProductId)
    requires forall i, j :: 0 <= i < j < |ids| ==> ids[i] != ids[j]
    requires id in ids && !UpDisabled(ids, id)
    ensures Moved(Moved(ids, id, Up), id, Down) == ids
  {
    var k := IndexOf(ids, id);
    var once := ids[k := ids[k - 1]][k - 1 := id];
    assert Moved(ids, id, Up) == once;
    forall j | 0 <= j < k - 1 ensures once[j] != id {
      assert once[j] == ids[j] && ids[j] != ids[k];
    }
    IndexOfAt(once, id, k - 1);
    assert Moved(once, id, Down) == once[k - 1 := once[k]][k := once[k - 1]];
    assert once[k - 1 := once[k]][k := once[k - 1]] == ids;
  }

  /** The move handler: copy the selection and swap two cells of the copy.
      An id that is not selected leaves the selection as it is. */
  method MoveProduct(ids: seq<ProductId>, id: ProductId, dir: Direction) returns (r: seq<ProductId>)
    ensures r == Moved(ids, id, dir)
  {
    var current := IndexOf(ids, id);
    if (dir == Up && current == 0) || (dir == Down && current == |ids| - 1) {
      return ids;
    }
    if current < 0 {
      return ids;
    }
    var copy := new ProductId[|ids|](i requires 0 <= i < |ids| => ids[i]);
    var swap := Neighbour(current, dir);
    copy[current], copy[swap] := copy[swap], copy[current];
    r := copy[..];
  }

  /** The move handler as written, on cells that may hold `undefined` (None).
      For an id that is not selected the index is -1: a write to a negative
      index sets no cell, and a read from it gives `undefined`. */
  function MoveAsWritten(ids: seq<ProductId>, id: ProductId, dir: Direction): (r: seq<Option<ProductId>>)
    ensures |r| == |ids|
  {
    var cells := seq(|ids|, i requires 0 <= i < |ids| => Some(ids[i]));
    var k := IndexOf(ids, id);
    if (dir == Up && k == 0) || (dir == Down && k == |ids| - 1) then cells
    else
      var j := Neighbour(k, dir);
      WriteCell(WriteCell(cells, k, ReadCell(cells, j)), j, ReadCell(cells, k))
  }

  function ReadCell(cells: seq<Option<ProductId>>, i: int): Option<ProductId> {
    if 0 <= i < |cells| then cells[i] else None
  }

  function WriteCell(cells: seq<Option<ProductId>>, i: int, v: Option<ProductId>): (r: seq<Option<ProductId>>)
    ensures |r| == |cells|
  {
    if 0 <= i < |cells| then cells[i := v] else cells
  }

  /** For a selected id the handler as written agrees with `Moved`. */
  lemma MoveAsWrittenAgrees(ids: seq<ProductId>, id: ProductId, dir: Direction)
    requires id in ids
    ensures forall i :: 0 <= i < |ids| ==> MoveAsWritten(ids, id, dir)[i] == Some(Moved(ids, id, dir)[i])
  {
  }

  /** For an id that is not selected, moving down writes `undefined` into the
      first cell: a one-product selection ["a"] loses its product. */
  lemma MoveAbsentDownClobbers()
    ensures MoveAsWritten(["a"], "z", Down) == [None]
    ensures Moved(["a"], "z", Down) == ["a"]
  {
    assert IndexOf(["a"], "z") == -1;
  }

  // ---------------------------------------------------------------------------
  // Showing the selection

  /** The selected products shown in selection order: each selected id's
      product, skipping ids without one. */
  function SelectedInOrder(products: seq<Product>, ids: seq<ProductId>): seq<Product> {
    Sections.InIdOrder(ids, products)
  }

  /** The selected list as written follows the catalogue, so a move that
      reorders the selection leaves the list on screen as it was: with
      products a, b selected in that order, moving b up gives the selection
      [b, a] and the same list. */
  lemma MoveNotShown(pa: Product, pb: Product)
    requires pa.id == "a" && pb.id == "b"
    ensures Moved(["a", "b"], "b", Up) == ["b", "a"]
    ensures Selected([pa, pb], ["b", "a"]) == Selected([pa, pb], ["a", "b"]) == [pa, pb]
  {
    assert IndexOf(["a", "b"], "b") == 1;
    assert Seqs.Filter([pa, pb], (p: Product) => p.id in ["b", "a"]) == [pa, pb] by {
      Seqs.FilterKeepsAll([pa, pb], (p: Product) => p.id in ["b", "a"]);
    }
    assert Seqs.Filter([pa, pb], (p: Product) => p.id in ["a", "b"]) == [pa, pb] by {
      Seqs.FilterKeepsAll([pa, pb], (p: Product) => p.id in ["a", "b"]);
    }
  }

  /** Shown in selection order, the list follows every move: when every
      selected id has a product, the ids on screen are the selection itself. */
  lemma MovesAreShown(products: seq<Product>, ids: seq<ProductId>, id: ProductId, dir: Direction)
    requires forall i :: 0 <= i < |ids| ==> Sections.FindProduct(products, ids[i]).Some?
    ensures Sections.IdsOf(SelectedInOrder(products, Moved(ids, id, dir))) == Moved(ids, id, dir)
  {
    var moved := Moved(ids, id, dir);
    forall i | 0 <= i < |moved| ensures Sections.FindProduct(products, moved[i]).Some? {
      assert moved[i] in multiset(ids);
      var k :| 0 <= k < |ids| && ids[k] == moved[i];
    }
    Sections.InIdOrderComplete(moved, products);
  }
}
