/** The home page's product sections (lib/supabase/sections.ts): the admin's
    ordered product list is stored as items numbered by position, and read
    back, per active section, as products in that order. The database is a
    snapshot value (`Snapshot`) for reads and a class (`SectionItemTable`) for
    the one write modelled; which calls fail is an argument (`Faults`). */
module Sections {
  import opened Wrappers
  import opened Domain
  import Seqs

  type SectionId = string

  datatype Section = Section(
    id: SectionId,
    name: string,
    description: Option<string>,
    slug: string,
    displayOrder: int,
    isActive: bool)

  /** One product of a section, at a position. */
  datatype SectionItem = SectionItem(sectionId: SectionId, productId: ProductId, displayOrder: int)

  datatype SectionWithProducts = SectionWithProducts(section: Section, products: seq<Product>)

  // ---------------------------------------------------------------------------
  // Writing a section's products

  function ItemOrder(it: SectionItem): int {
    it.displayOrder
  }

  /** The rows for an ordered id list: the id at position i gets order i. */
  function NumberedItems(sectionId: SectionId, productIds: seq<ProductId>): (r: seq<SectionItem>)
    ensures |r| == |productIds|
    ensures forall i :: 0 <= i < |r| ==> r[i].sectionId == sectionId && r[i].productId == productIds[i]
    ensures forall i :: 0 <= i < |r| ==> r[i].displayOrder == i
    ensures Seqs.SortedBy(r, ItemOrder)
  {
    seq(|productIds|, i requires 0 <= i < |productIds| => SectionItem(sectionId, productIds[i], i))
  }

  /** A section's rows, in the order a query sorted on `display_order` returns them. */
  function ItemsOf(items: seq<SectionItem>, sectionId: SectionId): seq<SectionItem> {
    Seqs.SortBy(Seqs.Filter(items, (it: SectionItem) => it.sectionId == sectionId), ItemOrder)
  }

  function ProductIdsOf(items: seq<SectionItem>): (r: seq<ProductId>)
    ensures |r| == |items|
    ensures forall i :: 0 <= i < |r| ==> r[i] == items[i].productId
  {
    seq(|items|, i requires 0 <= i < |items| => items[i].productId)
  }

  /** Numbering an id list and reading the section back gives the list back:
      the stored order is the admin's order. */
  lemma NumberedItemsReadBack(others: seq<SectionItem>, sectionId: SectionId, productIds: seq<ProductId>)
    requires forall i :: 0 <= i < |others| ==> others[i].sectionId != sectionId
    ensures ProductIdsOf(ItemsOf(others + NumberedItems(sectionId, productIds), sectionId)) == productIds
  {
    var keep := (it: SectionItem) => it.sectionId == sectionId;
    var rows := NumberedItems(sectionId, productIds);
    Seqs.FilterAppend(others, rows, keep);
    Seqs.FilterNone(others, keep);
    Seqs.FilterKeepsAll(rows, keep);
    assert Seqs.Filter(others + rows, keep) == rows;
    Seqs.SortBySorted(rows, ItemOrder);
  }

  /** The `product_section_items` table. */
  class SectionItemTable {
    var items: seq<SectionItem>

    constructor (items: seq<SectionItem>)
      ensures this.items == items
    {
      this.items := items;
    }

    /** Replaces a section's products: delete its rows (an error there is not
        checked), then insert the numbered rows when the list is non-empty (an
        error there is thrown to the caller). */
    method UpdateSectionProducts(sectionId: SectionId, productIds: seq<ProductId>, deleteFails: bool, insertFails: bool)
      returns (outcome: Outcome<string>)
      modifies this`items
      ensures outcome.Fail? <==> |productIds| > 0 && insertFails
      ensures var kept := if deleteFails then old(items)
                          else Seqs.Filter(old(items), (it: SectionItem) => it.sectionId != sectionId);
        items == if |productIds| > 0 && !insertFails then kept + NumberedItems(sectionId, productIds) else kept
    {
      if !deleteFails {
        items := Seqs.Filter(items, (it: SectionItem) => it.sectionId != sectionId);
      }
      outcome := Pass;
      if |productIds| > 0 {
        if insertFails {
          return Fail("insert error");
        }
        items := items + NumberedItems(sectionId, productIds);
      }
    }
  }

  /** After a replacement whose writes succeed, the section holds exactly the
      given products in the given order; an empty list leaves it with none. */
  lemma ReplacementReadsBack(items: seq<SectionItem>, sectionId: SectionId, productIds: seq<ProductId>)
    ensures var kept := Seqs.Filter(items, (it: SectionItem) => it.sectionId != sectionId);
      var after := if |productIds| > 0 then kept + NumberedItems(sectionId, productIds) else kept;
      ProductIdsOf(ItemsOf(after, sectionId)) == productIds
  {
    var kept := Seqs.Filter(items, (it: SectionItem) => it.sectionId != sectionId);
    NumberedItemsReadBack(kept, sectionId, productIds);
    assert kept + NumberedItems(sectionId, []) == kept;
  }

  // ---------------------------------------------------------------------------
  // Reading the home page's sections

  /** The first product with that id. */
  function FindProduct(products: seq<Product>, id: ProductId): (r: Option<Product>)
    ensures r.Some? ==> r.value in products && r.value.id == id
    ensures r.None? <==> forall i :: 0 <= i < |products| ==> products[i].id != id
    decreases |products|
  {
    if products == [] then None
    else if products[0].id == id then Some(products[0])
    else FindProduct(products[1..], id)
  }

  /** The products of an id list, in list order, skipping ids no product has. */
  function InIdOrder(ids: seq<ProductId>, products: seq<Product>): (r: seq<Product>)
    ensures |r| <= |ids|
    decreases |ids|
  {
    if ids == [] then []
    else match FindProduct(products, ids[0])
      case Some(p) => [p] + InIdOrder(ids[1..], products)
      case None => InIdOrder(ids[1..], products)
  }

  function IdsOf(products: seq<Product>): (r: seq<ProductId>)
    ensures |r| == |products|
    ensures forall i :: 0 <= i < |r| ==> r[i] == products[i].id
  {
    seq(|products|, i requires 0 <= i < |products| => products[i].id)
  }

  /** The re-sorted products are the listed ids that have a product, in list
      order, each the first product with that id. */
  lemma {:induction false} InIdOrderKeepsListOrder(ids: seq<ProductId>, products: seq<Product>)
    ensures IdsOf(InIdOrder(ids, products)) == Seqs.Filter(ids, (id: ProductId) => FindProduct(products, id).Some?)
    ensures forall i :: 0 <= i < |InIdOrder(ids, products)| ==>
      FindProduct(products, InIdOrder(ids, products)[i].id) == Some(InIdOrder(ids, products)[i])
    decreases |ids|
  {
    if ids != [] {
      InIdOrderKeepsListOrder(ids[1..], products);
      var rest := InIdOrder(ids[1..], products);
      match FindProduct(products, ids[0])
      case Some(p) =>
        assert IdsOf([p] + rest) == [ids[0]] + IdsOf(rest);
      case None =>
    }
  }

  /** When every listed id has a product, the products follow the list one for one. */
  lemma {:induction false} InIdOrderComplete(ids: seq<ProductId>, products: seq<Product>)
    requires forall i :: 0 <= i < |ids| ==> FindProduct(products, ids[i]).Some?
    ensures |InIdOrder(ids, products)| == |ids|
    ensures forall i :: 0 <= i < |ids| ==> InIdOrder(ids, products)[i].id == ids[i]
    decreases |ids|
  {
    if ids != [] {
      InIdOrderComplete(ids[1..], products);
    }
  }

  /** Fetching only the listed products first changes nothing. */
  lemma {:induction false} FetchListedOnly(ids: seq<ProductId>, products: seq<Product>)
    ensures InIdOrder(ids, Seqs.Filter(products, (p: Product) => p.id in ids)) == InIdOrder(ids, products)
  {
    var listed := Seqs.Filter(products, (p: Product) => p.id in ids);
    forall id | id in ids ensures FindProduct(listed, id) == FindProduct(products, id) {
      FindInFiltered(products, (p: Product) => p.id in ids, id);
    }
    InIdOrderSameFinds(ids, listed, products);
  }

  lemma {:induction false} FindInFiltered(products: seq<Product>, keep: Product -> bool, id: ProductId)
    requires forall p: Product :: p.id == id ==> keep(p)
    ensures FindProduct(Seqs.Filter(products, keep), id) == FindProduct(products, id)
    decreases |products|
  {
    if products != [] {
      FindInFiltered(products[1..], keep, id);
    }
  }

  lemma {:induction false} InIdOrderSameFinds(ids: seq<ProductId>, a: seq<Product>, b: seq<Product>)
    requires forall id :: id in ids ==> FindProduct(a, id) == FindProduct(b, id)
    ensures InIdOrder(ids, a) == InIdOrder(ids, b)
    decreases |ids|
  {
    if ids != [] {
      InIdOrderSameFinds(ids[1..], a, b);
    }
  }

  /** The database as the read sees it. */
  datatype Snapshot = Snapshot(sections: seq<Section>, items: seq<SectionItem>, products: seq<Product>)

  /** Which calls of the read fail: creating the client, the sections query,
      and, per section id, the items query or the products query. */
  datatype Faults = Faults(
    clientThrows: bool,
    sectionsFail: bool,
    itemsFail: set<SectionId>,
    productsFail: set<SectionId>)

  function SectionOrder(s: Section): int {
    s.displayOrder
  }

  /** The active sections by ascending `display_order`. */
  function ActiveSections(sections: seq<Section>): (r: seq<Section>)
    ensures |r| <= |sections|
    ensures forall i :: 0 <= i < |r| ==> r[i].isActive && r[i] in sections
    ensures forall i :: 0 <= i < |sections| && sections[i].isActive ==> sections[i] in r
    ensures Seqs.SortedBy(r, SectionOrder)
  {
    var active := Seqs.Filter(sections, (s: Section) => s.isActive);
    Seqs.SortByMembers(active, SectionOrder);
    Seqs.SortBy(active, SectionOrder)
  }

  /** One section's products: none when a query fails or it has no items. */
  function SectionProducts(section: Section, db: Snapshot, faults: Faults): (r: seq<Product>)
    ensures section.id in faults.itemsFail ==> r == []
    ensures section.id in faults.productsFail ==> r == []
    ensures ProductIdsOf(ItemsOf(db.items, section.id)) == [] ==> r == []
    ensures forall i :: 0 <= i < |r| ==> r[i] in db.products
  {
    if section.id in faults.itemsFail then []
    else
      var ids := ProductIdsOf(ItemsOf(db.items, section.id));
      if |ids| == 0 then []
      else if section.id in faults.productsFail then []
      else
        var fetched := Seqs.Filter(db.products, (p: Product) => p.id in ids);
        var r := InIdOrder(ids, fetched);
        InIdOrderFromList(ids, fetched);
        r
  }

  lemma {:induction false} InIdOrderFromList(ids: seq<ProductId>, products: seq<Product>)
    ensures forall i :: 0 <= i < |InIdOrder(ids, products)| ==> InIdOrder(ids, products)[i] in products
    decreases |ids|
  {
    if ids != [] {
      InIdOrderFromList(ids[1..], products);
    }
  }

  /** The home page's sections: active ones by display order, each with its
      products in item order; nothing at all when the client or the sections
      query fails. */
  function ActiveSectionsWithProducts(db: Snapshot, faults: Faults): (r: seq<SectionWithProducts>)
    ensures faults.clientThrows || faults.sectionsFail ==> r == []
    ensures !(faults.clientThrows || faults.sectionsFail) ==>
      |r| == |ActiveSections(db.sections)| &&
      forall i :: 0 <= i < |r| ==>
        r[i].section == ActiveSections(db.sections)[i] &&
        r[i].products == SectionProducts(r[i].section, db, faults)
    ensures forall i :: 0 <= i < |r| ==> r[i].section.isActive && r[i].section in db.sections
    ensures forall i, j :: 0 <= i < j < |r| ==> r[i].section.displayOrder <= r[j].section.displayOrder
  {
    if faults.clientThrows || faults.sectionsFail then []
    else
      var sections := ActiveSections(db.sections);
      seq(|sections|, i requires 0 <= i < |sections| =>
        SectionWithProducts(sections[i], SectionProducts(sections[i], db, faults)))
  }

  /** A section whose item query succeeds gets exactly its listed products that
      exist, in item order. */
  lemma SectionProductsInItemOrder(section: Section, db: Snapshot, faults: Faults)
    requires section.id !in faults.itemsFail && section.id !in faults.productsFail
    ensures var ids := ProductIdsOf(ItemsOf(db.items, section.id));
      IdsOf(SectionProducts(section, db, faults)) ==
        Seqs.Filter(ids, (id: ProductId) => FindProduct(db.products, id).Some?)
  {
    var ids := ProductIdsOf(ItemsOf(db.items, section.id));
    if |ids| > 0 {
      FetchListedOnly(ids, db.products);
      InIdOrderKeepsListOrder(ids, db.products);
    }
  }
}
