/** The cart store of context/CartContext.tsx: the list of cart lines held as
    React state, written through to the `cart_items` table for a signed-in user
    and to the `cart` entry of localStorage otherwise. */
module Cart {
  import opened Wrappers
  import opened Domain
  import Seqs

  // ---------------------------------------------------------------------------
  // Derived values

  /** The unit price of a line: its product's price, or 0 when the product is missing. */
  function UnitPrice(item: CartItem): real {
    if item.product.Some? then item.product.value.price else 0.0
  }

  /** What a line costs: unit price times quantity. */
  function LineTotal(item: CartItem): real {
    UnitPrice(item) * item.quantity as real
  }

  /** `totalItems`: the quantities of the lines summed from the left, starting at 0. */
  function TotalItems(items: seq<CartItem>): int
    decreases |items|
  {
    if items == [] then 0 else TotalItems(items[..|items| - 1]) + items[|items| - 1].quantity
  }

  /** `totalPrice`: the line totals summed from the left, starting at 0. */
  function TotalPrice(items: seq<CartItem>): real
    decreases |items|
  {
    if items == [] then 0.0 else TotalPrice(items[..|items| - 1]) + LineTotal(items[|items| - 1])
  }

  /** Both totals are sums: they add up over a split of the list. */
  lemma {:induction false} TotalsAppend(a: seq<CartItem>, b: seq<CartItem>)
    ensures TotalItems(a + b) == TotalItems(a) + TotalItems(b)
    ensures TotalPrice(a + b) == TotalPrice(a) + TotalPrice(b)
    decreases |b|
  {
    if b == [] {
      assert a + b == a;
    } else {
      var n := |b| - 1;
      assert (a + b)[..|a + b| - 1] == a + b[..n];
      TotalsAppend(a, b[..n]);
    }
  }

  /** Changing one line changes the totals by the difference on that line only. */
  lemma {:induction false} TotalsChangeAt(a: seq<CartItem>, b: seq<CartItem>, k: nat)
    requires |a| == |b| && k < |a|
    requires forall i :: 0 <= i < |a| && i != k ==> a[i] == b[i]
    ensures TotalItems(b) == TotalItems(a) - a[k].quantity + b[k].quantity
    ensures TotalPrice(b) == TotalPrice(a) - LineTotal(a[k]) + LineTotal(b[k])
    decreases |a|
  {
    var n := |a| - 1;
    if k == n {
      assert a[..n] == b[..n];
    } else {
      TotalsChangeAt(a[..n], b[..n], k);
    }
  }

  // ---------------------------------------------------------------------------
  // The lists the operations build (`find`, `map`, `filter`)

  /** The first line holding product `pid`, as its index. */
  function FindByProduct(items: seq<CartItem>, pid: ProductId): (r: Option<nat>)
    ensures r.None? ==> forall i :: 0 <= i < |items| ==> items[i].productId != pid
    ensures r.Some? ==> r.value < |items| && items[r.value].productId == pid
    ensures r.Some? ==> forall i :: 0 <= i < r.value ==> items[i].productId != pid
    decreases |items|
  {
    if items == [] then None
    else if items[0].productId == pid then Some(0)
    else match FindByProduct(items[1..], pid)
      case None => None
      case Some(k) => Some(k + 1)
  }

  /** The map in the signed-out branch of `addToCart`: every line of the product
      gets `quantity` more. */
  function BumpProduct(items: seq<CartItem>, pid: ProductId, quantity: int): seq<CartItem> {
    seq(|items|, i requires 0 <= i < |items| =>
      if items[i].productId == pid then items[i].(quantity := items[i].quantity + quantity) else items[i])
  }

  /** The map in `updateQuantity`: the line(s) with that id get the new quantity. */
  function SetItemQuantity(items: seq<CartItem>, itemId: ItemId, quantity: int): seq<CartItem> {
    seq(|items|, i requires 0 <= i < |items| =>
      if items[i].id == itemId then items[i].(quantity := quantity) else items[i])
  }

  /** The filter in `removeFromCart`. */
  function WithoutItem(items: seq<CartItem>, itemId: ItemId): seq<CartItem> {
    Seqs.Filter(items, (item: CartItem) => item.id != itemId)
  }

  /** The list after `updateQuantity(itemId, quantity)` succeeds: below 1 it is `removeFromCart`. */
  function UpdateLines(items: seq<CartItem>, itemId: ItemId, quantity: int): seq<CartItem> {
    if quantity < 1 then WithoutItem(items, itemId) else SetItemQuantity(items, itemId, quantity)
  }

  /** The line `addToCart` creates for a signed-out shopper (`user_id: ''`). */
  function LocalLine(product: Product, quantity: int, newId: ItemId): CartItem {
    CartItem(newId, "", product.id, quantity, Some(product))
  }

  /** The row the `cart_items` insert returns for a signed-in shopper. */
  function StoredLine(product: Product, quantity: int, uid: UserId, newId: ItemId): CartItem {
    CartItem(newId, uid, product.id, quantity, Some(product))
  }

  /** The list after a signed-out `addToCart`. */
  function LocalAdd(items: seq<CartItem>, product: Product, quantity: int, newId: ItemId): seq<CartItem> {
    match FindByProduct(items, product.id)
    case Some(_) => BumpProduct(items, product.id, quantity)
    case None => items + [LocalLine(product, quantity, newId)]
  }

  /** The list after a signed-in `addToCart` whose database calls succeed: an
      existing line goes through `updateQuantity(existing.id, existing.quantity + quantity)`. */
  function StoredAdd(items: seq<CartItem>, product: Product, quantity: int, uid: UserId, newId: ItemId): seq<CartItem> {
    match FindByProduct(items, product.id)
    case Some(k) => UpdateLines(items, items[k].id, items[k].quantity + quantity)
    case None => items + [StoredLine(product, quantity, uid, newId)]
  }

  ghost predicate UniqueProducts(items: seq<CartItem>) {
    forall i, j :: 0 <= i < j < |items| ==> items[i].productId != items[j].productId
  }

  ghost predicate UniqueIds(items: seq<CartItem>) {
    forall i, j :: 0 <= i < j < |items| ==> items[i].id != items[j].id
  }

  ghost predicate PositiveQuantities(items: seq<CartItem>) {
    forall i :: 0 <= i < |items| ==> items[i].quantity >= 1
  }

  // ---------------------------------------------------------------------------
  // Properties of the list operations

  /** Adding a product that is already in the cart raises that line's quantity and
      adds no line; lines of other products are untouched. */
  lemma AddExistingMerges(items: seq<CartItem>, product: Product, quantity: int, newId: ItemId, k: nat)
    requires FindByProduct(items, product.id) == Some(k)
    requires UniqueProducts(items)
    ensures var r := LocalAdd(items, product, quantity, newId);
      |r| == |items| && r[k] == items[k].(quantity := items[k].quantity + quantity) &&
      forall i :: 0 <= i < |items| && i != k ==> r[i] == items[i]
  {
  }

  /** Adding a product that is not in the cart appends exactly one line with that
      product and quantity; the existing lines are unchanged. */
  lemma AddNewAppends(items: seq<CartItem>, product: Product, quantity: int, newId: ItemId)
    requires forall i :: 0 <= i < |items| ==> items[i].productId != product.id
    ensures var r := LocalAdd(items, product, quantity, newId);
      |r| == |items| + 1 && r[..|items|] == items &&
      r[|items|].productId == product.id && r[|items|].quantity == quantity
  {
  }

  /** A filtered cart keeps "one line per product". */
  lemma {:induction false} FilterKeepsUniqueProducts(items: seq<CartItem>, keep: CartItem -> bool)
    requires UniqueProducts(items)
    ensures UniqueProducts(Seqs.Filter(items, keep))
    decreases |items|
  {
    if items != [] {
      FilterKeepsUniqueProducts(items[1..], keep);
      var rest := Seqs.Filter(items[1..], keep);
      forall j | 0 <= j < |rest| ensures rest[j].productId != items[0].productId {
        assert rest[j] in items[1..];
      }
    }
  }

  /** Both add paths keep "at most one line per product". */
  lemma AddKeepsUniqueProducts(items: seq<CartItem>, product: Product, quantity: int, uid: UserId, newId: ItemId)
    requires UniqueProducts(items)
    ensures UniqueProducts(LocalAdd(items, product, quantity, newId))
    ensures UniqueProducts(StoredAdd(items, product, quantity, uid, newId))
  {
    match FindByProduct(items, product.id)
    case Some(k) =>
      var q := items[k].quantity + quantity;
      if q < 1 {
        FilterKeepsUniqueProducts(items, (item: CartItem) => item.id != items[k].id);
      }
    case None =>
  }

  /** With one line per product, adding raises the item count by `quantity`, and
      the cart price by the change of one line's total: the existing line's, or
      the new line's (see `LineTotalRaise` for that change as a product). */
  lemma AddRaisesTotals(items: seq<CartItem>, product: Product, quantity: int, newId: ItemId)
    requires UniqueProducts(items)
    ensures var r := LocalAdd(items, product, quantity, newId);
      TotalItems(r) == TotalItems(items) + quantity &&
      TotalPrice(r) == TotalPrice(items) +
        (match FindByProduct(items, product.id)
         case Some(k) => LineTotal(items[k].(quantity := items[k].quantity + quantity)) - LineTotal(items[k])
         case None => LineTotal(LocalLine(product, quantity, newId)))
  {
    match FindByProduct(items, product.id)
    case Some(k) =>
      BumpTotals(items, product.id, quantity, k);
    case None =>
      var line := LocalLine(product, quantity, newId);
      TotalsAppend(items, [line]);
      assert [line][..0] == [];
      assert TotalItems([line]) == quantity && TotalPrice([line]) == LineTotal(line);
  }

  /** Bumping the one line of a product changes the totals by that line alone. */
  lemma BumpTotals(items: seq<CartItem>, pid: ProductId, quantity: int, k: nat)
    requires UniqueProducts(items) && k < |items| && items[k].productId == pid
    ensures var r := BumpProduct(items, pid, quantity);
      TotalItems(r) == TotalItems(items) + quantity &&
      TotalPrice(r) == TotalPrice(items) + LineTotal(items[k].(quantity := items[k].quantity + quantity)) - LineTotal(items[k])
  {
    var r := BumpProduct(items, pid, quantity);
    forall i | 0 <= i < |items| && i != k ensures r[i] == items[i] {
      assert items[i].productId != items[k].productId;
    }
    assert r[k] == items[k].(quantity := items[k].quantity + quantity);
    TotalsChangeAt(items, r, k);
  }

  /** Raising a line's quantity by `quantity` raises its total by that many unit prices. */
  lemma LineTotalRaise(item: CartItem, quantity: int)
    ensures LineTotal(item.(quantity := item.quantity + quantity)) ==
            LineTotal(item) + UnitPrice(item) * quantity as real
  {
    var p, n := UnitPrice(item), item.quantity;
    assert p * (n + quantity) as real == p * n as real + p * quantity as real;
  }

  /** `removeFromCart` leaves no line with that id and keeps every other line. */
  lemma RemoveDropsLine(items: seq<CartItem>, itemId: ItemId)
    ensures var r := WithoutItem(items, itemId);
      (forall i :: 0 <= i < |r| ==> r[i].id != itemId && r[i] in items) &&
      (forall i :: 0 <= i < |items| && items[i].id != itemId ==> items[i] in r)
  {
  }

  /** With unique line ids, removing the id of line `k` yields the list without
      exactly that line, the others in their order. */
  lemma RemoveExactlyThatLine(items: seq<CartItem>, k: nat)
    requires k < |items| && UniqueIds(items)
    ensures WithoutItem(items, items[k].id) == items[..k] + items[k + 1..]
  {
    var id := items[k].id;
    forall i | 0 <= i < |items| && i != k ensures items[i].id != id {
      if i < k { assert items[i].id != items[k].id; } else { assert items[k].id != items[i].id; }
    }
    Seqs.FilterDropsOne(items, (item: CartItem) => item.id != id, k);
  }

  /** `removeFromCart` with an id that is in no line changes nothing. */
  lemma RemoveUnknownIsNoOp(items: seq<CartItem>, itemId: ItemId)
    requires forall i :: 0 <= i < |items| ==> items[i].id != itemId
    ensures WithoutItem(items, itemId) == items
  {
    Seqs.FilterKeepsAll(items, (item: CartItem) => item.id != itemId);
  }

  /** `updateQuantity` with a quantity of at least 1 changes only the lines with that
      id, keeps the order, and sets exactly that quantity. */
  lemma UpdateChangesOnlyThatLine(items: seq<CartItem>, itemId: ItemId, quantity: int)
    requires quantity >= 1
    ensures var r := UpdateLines(items, itemId, quantity);
      |r| == |items| &&
      forall i :: 0 <= i < |items| ==>
        r[i] == if items[i].id == itemId then items[i].(quantity := quantity) else items[i]
  {
  }

  /** No update sets a line to a quantity below 1: a cart whose lines are all
      positive stays so. */
  lemma UpdateKeepsQuantitiesPositive(items: seq<CartItem>, itemId: ItemId, quantity: int)
    requires PositiveQuantities(items)
    ensures PositiveQuantities(UpdateLines(items, itemId, quantity))
    ensures quantity < 1 ==> forall i :: 0 <= i < |UpdateLines(items, itemId, quantity)| ==>
      UpdateLines(items, itemId, quantity)[i].id != itemId
  {
    if quantity < 1 {
      var r := WithoutItem(items, itemId);
      forall i | 0 <= i < |r| ensures r[i].quantity >= 1 {
        assert r[i] in items;
      }
    }
  }

  /** Signed in, adding a product already in the cart goes through
      `updateQuantity`: when the sum stays at least 1 the line takes the sum,
      nothing else changes, and the totals rise as for a signed-out add. */
  lemma {:induction false} StoredAddExistingMerges(items: seq<CartItem>, product: Product, quantity: int, uid: UserId,
                                newId: ItemId, k: nat)
    requires FindByProduct(items, product.id) == Some(k)
    requires UniqueIds(items) && items[k].quantity + quantity >= 1
    ensures var r := StoredAdd(items, product, quantity, uid, newId);
      r == items[k := items[k].(quantity := items[k].quantity + quantity)] &&
      TotalItems(r) == TotalItems(items) + quantity &&
      TotalPrice(r) == TotalPrice(items) + LineTotal(items[k].(quantity := items[k].quantity + quantity)) - LineTotal(items[k])
  {
    var q := items[k].quantity + quantity;
    var r := StoredAdd(items, product, quantity, uid, newId);
    assert r == UpdateLines(items, items[k].id, q);
    assert r == SetItemQuantity(items, items[k].id, q);
    SetOnlyThatLine(items, k, q);
    UpdateMovesTotals(items, k, q);
  }

  /** With unique line ids, setting the quantity of line `k`'s id touches that line only. */
  lemma {:induction false} SetOnlyThatLine(items: seq<CartItem>, k: nat, quantity: int)
    requires k < |items| && UniqueIds(items)
    ensures SetItemQuantity(items, items[k].id, quantity) == items[k := items[k].(quantity := quantity)]
  {
    var r := SetItemQuantity(items, items[k].id, quantity);
    forall i | 0 <= i < |items| && i != k ensures r[i] == items[i] {
      assert items[i].id != items[k].id;
    }
  }

  /** Signed in, adding a negative quantity that brings an existing line below 1
      removes that line, as `updateQuantity` does; the totals drop by the line. */
  lemma {:induction false} StoredAddBelowOneRemoves(items: seq<CartItem>, product: Product, quantity: int, uid: UserId,
                                 newId: ItemId, k: nat)
    requires FindByProduct(items, product.id) == Some(k)
    requires UniqueIds(items) && items[k].quantity + quantity < 1
    ensures var r := StoredAdd(items, product, quantity, uid, newId);
      r == items[..k] + items[k + 1..] &&
      TotalItems(r) == TotalItems(items) - items[k].quantity &&
      TotalPrice(r) == TotalPrice(items) - LineTotal(items[k])
  {
    assert StoredAdd(items, product, quantity, uid, newId) == WithoutItem(items, items[k].id);
    RemoveExactlyThatLine(items, k);
    TotalsWithout(items, k);
  }

  /** Dropping line `k` lowers the totals by that line. */
  lemma {:induction false} TotalsWithout(items: seq<CartItem>, k: nat)
    requires k < |items|
    ensures TotalItems(items[..k] + items[k + 1..]) == TotalItems(items) - items[k].quantity
    ensures TotalPrice(items[..k] + items[k + 1..]) == TotalPrice(items) - LineTotal(items[k])
  {
    var front, line, back := items[..k], [items[k]], items[k + 1..];
    assert items == (front + line) + back;
    TotalsAppend(front + line, back);
    TotalsAppend(front, line);
    TotalsAppend(front, back);
    TotalsOfOne(items[k]);
  }

  lemma {:induction false} TotalsOfOne(item: CartItem)
    ensures TotalItems([item]) == item.quantity && TotalPrice([item]) == LineTotal(item)
  {
    assert [item][..0] == [];
  }

  /** The two add paths part ways below 1: signed out, the line stays with a
      quantity below 1; signed in, it is gone. */
  lemma {:induction false} AddPathsDivergeBelowOne(items: seq<CartItem>, product: Product, quantity: int, uid: UserId,
                                newId: ItemId, k: nat)
    requires FindByProduct(items, product.id) == Some(k)
    requires UniqueProducts(items) && UniqueIds(items) && items[k].quantity + quantity < 1
    ensures |LocalAdd(items, product, quantity, newId)| == |items|
    ensures LocalAdd(items, product, quantity, newId)[k].quantity < 1
    ensures |StoredAdd(items, product, quantity, uid, newId)| == |items| - 1
  {
    AddExistingMerges(items, product, quantity, newId, k);
    StoredAddBelowOneRemoves(items, product, quantity, uid, newId, k);
  }

  /** Setting one line's quantity with unique line ids moves the totals by the
      difference on that line. */
  lemma UpdateMovesTotals(items: seq<CartItem>, k: nat, quantity: int)
    requires k < |items| && UniqueIds(items) && quantity >= 1
    ensures var r := UpdateLines(items, items[k].id, quantity);
      TotalItems(r) == TotalItems(items) - items[k].quantity + quantity &&
      TotalPrice(r) == TotalPrice(items) - LineTotal(items[k]) + LineTotal(items[k].(quantity := quantity))
  {
    var r := UpdateLines(items, items[k].id, quantity);
    assert r == SetItemQuantity(items, items[k].id, quantity);
    forall i | 0 <= i < |items| && i != k ensures r[i] == items[i] {
      assert items[i].id != items[k].id;
    }
    TotalsChangeAt(items, r, k);
    assert r[k] == items[k].(quantity := quantity);
  }

  // ---------------------------------------------------------------------------
  // The store

  /** The row a successful `updateQuantity` leaves in `cart_items`. */
  function DbAfterUpdate(db: map<ItemId, CartItem>, itemId: ItemId, quantity: int): map<ItemId, CartItem> {
    if quantity < 1 then db - {itemId}
    else if itemId in db then db[itemId := db[itemId].(quantity := quantity)]
    else db
  }

  /** The table after deleting every row of user `uid`. */
  function DbWithoutUser(db: map<ItemId, CartItem>, uid: UserId): (r: map<ItemId, CartItem>)
    ensures forall k :: k in r ==> k in db && r[k] == db[k] && db[k].userId != uid
    ensures forall k :: k in db && db[k].userId != uid ==> k in r
  {
    map k | k in db && db[k].userId != uid :: db[k]
  }

  /** The cart provider's state. `user` is the signed-in user (None when signed
      out); `local` is the `cart` entry of localStorage; `db` is the `cart_items`
      table keyed by row id. Each database call either succeeds or fails, as the
      `dbFails` argument of the operation says. */
  class CartStore {
    var user: Option<UserId>
    var items: seq<CartItem>
    var loading: bool
    var local: Option<seq<CartItem>>
    var db: map<ItemId, CartItem>

    ghost predicate Valid()
      reads this
    {
      forall k :: k in db ==> db[k].id == k
    }

    constructor (user: Option<UserId>, local: Option<seq<CartItem>>, db: map<ItemId, CartItem>)
      requires forall k :: k in db ==> db[k].id == k
      ensures Valid()
      ensures this.user == user && this.local == local && this.db == db
      ensures items == [] && loading
    {
      this.user := user;
      this.local := local;
      this.db := db;
      items := [];
      loading := true;
    }

    /** `loadCart`: the signed-in user's rows from the table (`rows` is what the
        query returns: exactly that user's rows, in the database's order), or the
        localStorage entry. A failed query is logged and leaves `items` as it was. */
    method LoadCart(queryFails: bool, rows: seq<CartItem>) returns (outcome: Outcome<string>)
      requires Valid()
      requires user.Some? ==> forall i :: 0 <= i < |rows| ==>
        rows[i].id in db && db[rows[i].id] == rows[i] && rows[i].userId == user.value
      requires user.Some? ==> forall k :: k in db && db[k].userId == user.value ==> db[k] in rows
      modifies this`items, this`loading
      ensures !loading
      ensures outcome.Fail? <==> user.Some? && queryFails
      ensures outcome.Fail? ==> items == old(items)
      ensures user.Some? && !queryFails ==> items == rows
      ensures user.Some? && !queryFails ==> forall i :: 0 <= i < |items| ==> items[i].userId == user.value
      ensures user.None? ==> items == local.GetOr([])
    {
      loading := true;
      outcome := Pass;
      if user.Some? {
        if queryFails {
          outcome := Fail("Error loading cart");
        } else {
          items := rows;
        }
      } else {
        items := local.GetOr([]);
      }
      loading := false;
    }

    /** `removeFromCart(itemId)`: deletes the row (signed in), then filters the
        list and writes it to localStorage. A failed delete is logged and changes nothing. */
    method RemoveFromCart(itemId: ItemId, dbFails: bool) returns (outcome: Outcome<string>)
      requires Valid()
      modifies this`items, this`local, this`db
      ensures Valid() && user == old(user)
      ensures outcome.Fail? <==> user.Some? && dbFails
      ensures outcome.Fail? ==> items == old(items) && local == old(local) && db == old(db)
      ensures outcome.Pass? ==> items == WithoutItem(old(items), itemId) && local == Some(items)
      ensures outcome.Pass? ==> db == if user.Some? then old(db) - {itemId} else old(db)
    {
      if user.Some? {
        if dbFails {
          return Fail("Error removing from cart");
        }
        db := db - {itemId};
      }
      items := WithoutItem(items, itemId);
      local := Some(items);
      outcome := Pass;
    }

    /** `updateQuantity(itemId, quantity)`: below 1 it is `removeFromCart(itemId)`;
        otherwise it updates the row (signed in), maps the list and writes it to
        localStorage. A failed database call is logged and changes nothing. */
    method UpdateQuantity(itemId: ItemId, quantity: int, dbFails: bool) returns (outcome: Outcome<string>)
      requires Valid()
      modifies this`items, this`local, this`db
      ensures Valid() && user == old(user)
      ensures outcome.Fail? <==> user.Some? && dbFails
      ensures outcome.Fail? ==> items == old(items) && local == old(local) && db == old(db)
      ensures outcome.Pass? ==> items == UpdateLines(old(items), itemId, quantity) && local == Some(items)
      ensures outcome.Pass? ==> db == if user.Some? then DbAfterUpdate(old(db), itemId, quantity) else old(db)
    {
      if quantity < 1 {
        outcome := RemoveFromCart(itemId, dbFails);
        return;
      }
      if user.Some? {
        if dbFails {
          return Fail("Error updating quantity");
        }
        db := DbAfterUpdate(db, itemId, quantity);
      }
      items := SetItemQuantity(items, itemId, quantity);
      local := Some(items);
      outcome := Pass;
    }

    /** `addToCart(product, quantity)`. Signed in: an existing line of the product
        goes through `updateQuantity` (which logs its own errors), a new one is
        inserted and appended. Signed out: the list is merged by product id and
        written to localStorage. `newId` is the id the table or `crypto.randomUUID`
        gives a new line. `alerted` says whether the shopper saw the error alert. */
    method AddToCart(product: Product, quantity: int, dbFails: bool, newId: ItemId)
      returns (outcome: Outcome<string>, alerted: bool)
      requires Valid()
      requires user.Some? ==> newId !in db
      modifies this`items, this`local, this`db
      ensures Valid() && user == old(user)
      ensures alerted <==> user.Some? && dbFails && FindByProduct(old(items), product.id).None?
      ensures outcome.Fail? <==> user.Some? && dbFails
      ensures user.None? ==>
        items == LocalAdd(old(items), product, quantity, newId) && local == Some(items) && db == old(db)
      ensures user.Some? && outcome.Fail? ==> items == old(items) && local == old(local) && db == old(db)
      ensures user.Some? && outcome.Pass? ==>
        items == StoredAdd(old(items), product, quantity, user.value, newId)
      ensures user.Some? && outcome.Pass? && FindByProduct(old(items), product.id).Some? ==>
        var line := old(items)[FindByProduct(old(items), product.id).value];
        local == Some(items) && db == DbAfterUpdate(old(db), line.id, line.quantity + quantity)
      ensures user.Some? && outcome.Pass? && FindByProduct(old(items), product.id).None? ==>
        local == old(local) && db == old(db)[newId := StoredLine(product, quantity, user.value, newId)]
    {
      alerted := false;
      var existing := FindByProduct(items, product.id);
      if user.Some? {
        if existing.Some? {
          var line := items[existing.value];
          outcome := UpdateQuantity(line.id, line.quantity + quantity, dbFails);
        } else if dbFails {
          outcome, alerted := Fail("Error adding to cart"), true;
        } else {
          var row := StoredLine(product, quantity, user.value, newId);
          db := db[newId := row];
          items := items + [row];
          outcome := Pass;
        }
      } else {
        items := LocalAdd(items, product, quantity, newId);
        local := Some(items);
        outcome := Pass;
      }
    }

    /** `clearCart()`: deletes the user's rows (signed in), empties the list and
        removes the localStorage entry. A failed delete is logged and changes nothing. */
    method ClearCart(dbFails: bool) returns (outcome: Outcome<string>)
      requires Valid()
      modifies this`items, this`local, this`db
      ensures Valid() && user == old(user)
      ensures outcome.Fail? <==> user.Some? && dbFails
      ensures outcome.Fail? ==> items == old(items) && local == old(local) && db == old(db)
      ensures outcome.Pass? ==> items == [] && local.None?
      ensures outcome.Pass? ==> db == if user.Some? then DbWithoutUser(old(db), user.value) else old(db)
    {
      if user.Some? {
        if dbFails {
          return Fail("Error clearing cart");
        }
        db := DbWithoutUser(db, user.value);
      }
      items := [];
      local := None;
      outcome := Pass;
    }
  }
}
