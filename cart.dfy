/**
 * The public site's shopping cart: the menu catalog kept in memory, the cart
 * persisted in browser storage under the key "kitsuCart", the add-to-cart
 * operation and the cart total shown by the cart renderer.
 *
 * Prices are integers in satang (1/100 baht), so the model has no floats.
 */
module ShopCart {
  import opened Wrappers

  /** The menu item id; the add button carries the same id in its data attribute. */
  type ProductId = int

  /** One entry of the fetched menu. */
  datatype CatalogItem = CatalogItem(id: ProductId, name: string, price: int)

  /**
   * One cart line. Name and price are snapshots of the catalog entry taken
   * when the line was created; later catalog changes do not reach them.
   */
  datatype CartLine = CartLine(id: ProductId, name: string, price: int, quantity: int)

  type Cart = seq<CartLine>

  /** Browser storage, each stored value already decoded to a cart. */
  type Storage = map<string, Cart>

  const CartKey: string := "kitsuCart"

  // ---------------------------------------------------------------------
  // Lookups
  // ---------------------------------------------------------------------

  /** The first catalog item with the given id, as the array `find` returns it. */
  function FindItem(catalog: seq<CatalogItem>, id: ProductId): (r: Option<CatalogItem>)
    ensures r.None? <==> forall k :: 0 <= k < |catalog| ==> catalog[k].id != id
    ensures r.Some? ==> r.value.id == id
    ensures r.Some? ==>
      exists k :: 0 <= k < |catalog| && catalog[k] == r.value &&
        (forall j :: 0 <= j < k ==> catalog[j].id != id)
  {
    if catalog == [] then None
    else if catalog[0].id == id then Some(catalog[0])
    else
      var r := FindItem(catalog[1..], id);
      assert r.Some? ==>
        exists k :: 1 <= k < |catalog| && catalog[k] == r.value &&
          (forall j :: 0 <= j < k ==> catalog[j].id != id) by {
        if r.Some? {
          var k :| 0 <= k < |catalog[1..]| && catalog[1..][k] == r.value &&
            forall j :: 0 <= j < k ==> catalog[1..][j].id != id;
          assert forall j :: 1 <= j < k + 1 ==> catalog[j] == catalog[1..][j - 1];
        }
      }
      r
  }

  /** The position of the first cart line with the given id, if any. */
  function FindLine(cart: Cart, id: ProductId): (r: Option<nat>)
    ensures r.None? <==> forall k :: 0 <= k < |cart| ==> cart[k].id != id
    ensures r.Some? ==> r.value < |cart| && cart[r.value].id == id
    ensures r.Some? ==> forall k :: 0 <= k < r.value ==> cart[k].id != id
  {
    FindLineFrom(cart, id, 0)
  }

  /** The position of the first line at or after `j` with the given id, if any. */
  function FindLineFrom(cart: Cart, id: ProductId, j: nat): (r: Option<nat>)
    ensures r.None? <==> forall k :: j <= k < |cart| ==> cart[k].id != id
    ensures r.Some? ==> j <= r.value < |cart| && cart[r.value].id == id
    ensures r.Some? ==> forall k :: j <= k < r.value ==> cart[k].id != id
    decreases |cart| - j
  {
    if j >= |cart| then None
    else if cart[j].id == id then Some(j)
    else FindLineFrom(cart, id, j + 1)
  }

  // ---------------------------------------------------------------------
  // Cart invariants and the add operation on values
  // ---------------------------------------------------------------------

  /** At most one line per product id, and every quantity at least 1. */
  ghost predicate WellFormed(cart: Cart) {
    && (forall j, k :: 0 <= j < k < |cart| ==> cart[j].id != cart[k].id)
    && (forall k :: 0 <= k < |cart| ==> cart[k].quantity >= 1)
  }

  /** The line a successful add appends: a snapshot of the catalog entry with quantity 1. */
  function NewLine(item: CatalogItem): CartLine {
    CartLine(item.id, item.name, item.price, 1)
  }

  /**
   * Adding a resolved catalog item to a cart: the existing line for its id
   * gains one unit, otherwise a fresh line goes at the end.
   */
  function AddLine(cart: Cart, item: CatalogItem): (r: Cart)
  {
    match FindLine(cart, item.id)
    case Some(i) => cart[i := cart[i].(quantity := cart[i].quantity + 1)]
    case None => cart + [NewLine(item)]
  }

  /**
   * What an add does: with a line for the id, only that line changes and it
   * gains exactly one unit; without one, the old lines stay in place and the
   * catalog snapshot with quantity 1 follows them.
   */
  lemma AddLineSpec(cart: Cart, item: CatalogItem)
    ensures FindLine(cart, item.id).Some? ==>
      var i := FindLine(cart, item.id).value;
      && |AddLine(cart, item)| == |cart|
      && AddLine(cart, item)[i] == cart[i].(quantity := cart[i].quantity + 1)
      && (forall k :: 0 <= k < |cart| && k != i ==> AddLine(cart, item)[k] == cart[k])
    ensures FindLine(cart, item.id).None? ==>
      && |AddLine(cart, item)| == |cart| + 1
      && AddLine(cart, item)[..|cart|] == cart
      && AddLine(cart, item)[|cart|] == NewLine(item)
  {
  }

  /** Adding keeps the cart well formed. */
  lemma AddLinePreservesWellFormed(cart: Cart, item: CatalogItem)
    requires WellFormed(cart)
    ensures WellFormed(AddLine(cart, item))
    ensures forall k :: 0 <= k < |AddLine(cart, item)| ==>
      AddLine(cart, item)[k].id == item.id || exists j :: 0 <= j < |cart| && cart[j].id == AddLine(cart, item)[k].id
  {
    AddLineSpec(cart, item);
  }

  /** `n` successive adds of the same catalog item. */
  function AddTimes(cart: Cart, item: CatalogItem, n: nat): Cart
    decreases n
  {
    if n == 0 then cart else AddLine(AddTimes(cart, item, n - 1), item)
  }

  /** The cart with the quantity of line `i` raised by `m`, all else as it was. */
  function Bump(cart: Cart, i: nat, m: int): Cart
    requires i < |cart|
  {
    cart[i := cart[i].(quantity := cart[i].quantity + m)]
  }

  /** Adding an id with a line bumps that line by one. */
  lemma AddLineBumps(cart: Cart, item: CatalogItem, i: nat)
    requires FindLine(cart, item.id) == Some(i)
    ensures AddLine(cart, item) == Bump(cart, i, 1)
  {
  }

  /** Adding an id without a line appends its snapshot. */
  lemma AddLineAppends(cart: Cart, item: CatalogItem)
    requires FindLine(cart, item.id).None?
    ensures AddLine(cart, item) == cart + [NewLine(item)]
  {
  }

  /** A line with the id, preceded by none, is the line `FindLine` reports. */
  lemma FindLineAt(cart: Cart, id: ProductId, i: nat)
    requires i < |cart| && cart[i].id == id
    requires forall k :: 0 <= k < i ==> cart[k].id != id
    ensures FindLine(cart, id) == Some(i)
  {
  }

  /** After bumping the line for an id, adding that id bumps the same line again. */
  lemma AddLineOnBumped(cart: Cart, item: CatalogItem, i: nat, m: int)
    requires FindLine(cart, item.id) == Some(i)
    ensures AddLine(Bump(cart, i, m), item) == Bump(cart, i, m + 1)
  {
    FindLineAt(Bump(cart, i, m), item.id, i);
  }

  /** Repeated adds to a line already present accumulate in that one line. */
  lemma {:induction false} AddTimesExisting(cart: Cart, item: CatalogItem, i: nat, n: nat)
    requires FindLine(cart, item.id) == Some(i)
    ensures AddTimes(cart, item, n) == Bump(cart, i, n)
  {
    if n == 0 {
      assert Bump(cart, i, 0) == cart;
    } else {
      calc {
        AddTimes(cart, item, n);
        AddLine(AddTimes(cart, item, n - 1), item);
        { AddTimesExisting(cart, item, i, n - 1); }
        AddLine(Bump(cart, i, n - 1), item);
        { AddLineOnBumped(cart, item, i, n - 1); }
        Bump(cart, i, n);
      }
    }
  }

  /** One add followed by `n` more is `n + 1` adds. */
  lemma {:induction false} AddTimesShift(cart: Cart, item: CatalogItem, n: nat)
    ensures AddTimes(AddLine(cart, item), item, n) == AddTimes(cart, item, n + 1)
  {
    if n > 0 {
      AddTimesShift(cart, item, n - 1);
      calc {
        AddTimes(AddLine(cart, item), item, n);
        AddLine(AddTimes(AddLine(cart, item), item, n - 1), item);
        AddLine(AddTimes(cart, item, n), item);
      }
    }
  }

  /** `n` adds of an item absent from the cart append one line of quantity `n`. */
  lemma {:induction false} AddTimesAbsent(cart: Cart, item: CatalogItem, n: nat)
    requires FindLine(cart, item.id).None? && n >= 1
    ensures AddTimes(cart, item, n) == cart + [NewLine(item).(quantity := n)]
  {
    var line := NewLine(item);
    AddLineAppends(cart, item);
    AppendedIsFound(cart, line);
    AddTimesExisting(cart + [line], item, |cart|, n - 1);
    AddTimesShift(cart, item, n - 1);
    BumpLast(cart, line, n - 1);
  }

  /** `n` adds of one item to an empty cart give a single line of quantity `n`. */
  lemma {:induction false} AddTimesFromEmpty(item: CatalogItem, n: nat)
    requires n >= 1
    ensures AddTimes([], item, n) == [NewLine(item).(quantity := n)]
  {
    AddTimesAbsent([], item, n);
    assert [] + [NewLine(item).(quantity := n)] == [NewLine(item).(quantity := n)];
  }

  /** A line appended for an id the cart lacks is the line found for that id. */
  lemma AppendedIsFound(cart: Cart, line: CartLine)
    requires FindLine(cart, line.id).None?
    ensures FindLine(cart + [line], line.id) == Some(|cart|)
  {
    FindLineAt(cart + [line], line.id, |cart|);
  }

  /** Bumping the last line of a cart is appending the bumped line. */
  lemma BumpLast(cart: Cart, line: CartLine, m: int)
    ensures Bump(cart + [line], |cart|, m) == cart + [line.(quantity := line.quantity + m)]
  {
  }

  // ---------------------------------------------------------------------
  // Totals
  // ---------------------------------------------------------------------

  /** What one line contributes to the total: its snapshot price times its quantity. */
  function Subtotal(line: CartLine): int {
    line.price * line.quantity
  }

  /** Sum of price times quantity over the lines, accumulated front to back. */
  function Total(cart: Cart): int {
    if cart == [] then 0 else Total(cart[..|cart| - 1]) + Subtotal(cart[|cart| - 1])
  }

  /** Appending a line adds exactly its subtotal. */
  lemma TotalAppend(cart: Cart, line: CartLine)
    ensures Total(cart + [line]) == Total(cart) + Subtotal(line)
  {
  }

  /** Replacing one line changes the total by the difference of the two subtotals. */
  lemma {:induction false} TotalUpdate(cart: Cart, i: nat, line: CartLine)
    requires i < |cart|
    ensures Total(cart[i := line]) == Total(cart) - Subtotal(cart[i]) + Subtotal(line)
  {
    var n := |cart| - 1;
    if i == n {
      assert cart[i := line][..n] == cart[..n];
    } else {
      assert cart[i := line][..n] == cart[..n][i := line];
      TotalUpdate(cart[..n], i, line);
    }
  }

  /**
   * A successful add raises the total by one unit price: the existing line's
   * snapshot price if the product is already in the cart, else the catalog price.
   */
  lemma TotalAfterAdd(cart: Cart, item: CatalogItem)
    ensures Total(AddLine(cart, item)) == Total(cart) +
      match FindLine(cart, item.id)
      case Some(i) => cart[i].price
      case None => item.price
  {
    match FindLine(cart, item.id)
    case Some(i) =>
      AddLineBumps(cart, item, i);
      TotalAfterBump(cart, i);
    case None =>
      AddLineAppends(cart, item);
      TotalAppend(cart, NewLine(item));
  }

  /** One more unit of a line raises the total by that line's price. */
  lemma {:induction false} TotalAfterBump(cart: Cart, i: nat)
    requires i < |cart|
    ensures Total(Bump(cart, i, 1)) == Total(cart) + cart[i].price
  {
    var n := |cart| - 1;
    if i == n {
      assert Bump(cart, i, 1)[..n] == cart[..n];
      SubtotalOneMore(cart[i]);
    } else {
      assert Bump(cart, i, 1)[..n] == Bump(cart[..n], i, 1);
      TotalAfterBump(cart[..n], i);
    }
  }

  /** One more unit adds the line's price to its subtotal. */
  lemma SubtotalOneMore(line: CartLine)
    ensures Subtotal(line.(quantity := line.quantity + 1)) == Subtotal(line) + line.price
  {
    var p, q := line.price, line.quantity;
    assert p * (q + 1) == p * q + p;
  }

  /** With no negative price or quantity the total is never negative. */
  lemma {:induction false} TotalNonNegative(cart: Cart)
    requires forall k :: 0 <= k < |cart| ==> cart[k].price >= 0 && cart[k].quantity >= 0
    ensures Total(cart) >= 0
  {
    if cart != [] {
      TotalNonNegative(cart[..|cart| - 1]);
    }
  }

  // ---------------------------------------------------------------------
  // Persistence
  // ---------------------------------------------------------------------

  /** The stored cart; a missing entry reads as the empty cart. */
  function LoadCart(storage: Storage): Cart {
    if CartKey in storage then storage[CartKey] else []
  }

  /** Writing a cart and reading it back gives the same lines, and no other key changes. */
  lemma LoadAfterSave(storage: Storage, cart: Cart)
    ensures LoadCart(storage[CartKey := cart]) == cart
    ensures forall key :: key in storage && key != CartKey ==>
      key in storage[CartKey := cart] && storage[CartKey := cart][key] == storage[key]
  {
  }

  /**
   * Adding to the stored cart and storing the result: the stored cart is the
   * added one, never empty, a single fresh line when nothing was stored, and
   * still well formed if it was.
   */
  lemma SavedAdd(storage: Storage, item: CatalogItem)
    ensures var after := storage[CartKey := AddLine(LoadCart(storage), item)];
      && LoadCart(after) == AddLine(LoadCart(storage), item)
      && |LoadCart(after)| > 0
      && (CartKey !in storage ==> after[CartKey] == [NewLine(item)])
      && (WellFormed(LoadCart(storage)) ==> WellFormed(LoadCart(after)))
  {
    var cart := LoadCart(storage);
    AddLineSpec(cart, item);
    LoadAfterSave(storage, AddLine(cart, item));
    if CartKey !in storage {
      AddTimesFromEmpty(item, 1);
    }
    if WellFormed(cart) {
      AddLinePreservesWellFormed(cart, item);
    }
  }

  // ---------------------------------------------------------------------
  // Rendering
  // ---------------------------------------------------------------------

  /** One rendered cart line: name, quantity and line subtotal. */
  datatype CartRow = CartRow(name: string, quantity: int, subtotal: int)

  /** What the cart panel shows: the rows, or the empty-cart message, and the total. */
  datatype CartView = CartView(rows: seq<CartRow>, emptyMessage: bool, total: int)

  // ---------------------------------------------------------------------
  // The page state
  // ---------------------------------------------------------------------

  /** The shop page: the in-memory catalog and the browser storage it persists the cart in. */
  class Shop {
    var catalog: seq<CatalogItem>
    var storage: Storage

    /** On page load the catalog is empty until its fetch completes. */
    constructor (storage0: Storage)
      ensures catalog == [] && storage == storage0
    {
      catalog := [];
      storage := storage0;
    }

    /** A completed catalog fetch replaces the catalog wholesale. */
    method ReceiveCatalog(items: seq<CatalogItem>)
      modifies this
      ensures catalog == items && storage == old(storage)
    {
      catalog := items;
    }

    /** The stored cart is well formed. */
    ghost predicate CartWellFormed()
      reads this
    {
      WellFormed(LoadCart(storage))
    }

    /**
     * Resolve the id in the catalog; on a miss do nothing. Otherwise load the
     * stored cart, bump or append the line, store the cart again and render it.
     */
    method AddToCart(productId: ProductId) returns (rendered: Option<CartView>)
      modifies this
      ensures catalog == old(catalog)
      ensures rendered.Some? <==> exists k :: 0 <= k < |catalog| && catalog[k].id == productId
      ensures rendered.None? ==> storage == old(storage)
      ensures rendered.Some? ==>
        storage == old(storage)[CartKey := AddLine(LoadCart(old(storage)), FindItem(catalog, productId).value)]
      ensures rendered.Some? && CartKey !in old(storage) ==>
        storage[CartKey] == [NewLine(FindItem(catalog, productId).value)]
      ensures rendered.Some? ==> var cart := LoadCart(storage);
        && !rendered.value.emptyMessage
        && |rendered.value.rows| == |cart|
        && (forall k :: 0 <= k < |cart| ==>
              rendered.value.rows[k] == CartRow(cart[k].name, cart[k].quantity, Subtotal(cart[k])))
        && rendered.value.total == Total(cart)
      ensures old(CartWellFormed()) ==> CartWellFormed()
    {
      var found := FindItem(catalog, productId);
      if found.None? {
        return None;
      }
      var product := found.value;
      SavedAdd(storage, product);
      var cart := LoadCart(storage);
      cart := AddLine(cart, product);  // bump the line for the id, or append a fresh one
      storage := storage[CartKey := cart];
      var view := RenderCart();
      rendered := Some(view);
    }

    /**
     * Render the stored cart: one row per line in order, the empty-cart
     * message exactly when there are no lines, and the total.
     */
    method RenderCart() returns (view: CartView)
      ensures var cart := LoadCart(storage);
        && (view.emptyMessage <==> |cart| == 0)
        && |view.rows| == |cart|
        && (forall k :: 0 <= k < |cart| ==>
              view.rows[k] == CartRow(cart[k].name, cart[k].quantity, Subtotal(cart[k])))
        && view.total == Total(cart)
      ensures CartKey !in storage ==> view == CartView([], true, 0)
      ensures LoadCart(storage) == [] ==> view.total == 0
    {
      var cart := LoadCart(storage);
      var rows: seq<CartRow> := [];
      var total := 0;
      if |cart| == 0 {
        return CartView([], true, total);
      }
      var i := 0;
      while i < |cart|
        invariant 0 <= i <= |cart|
        invariant |rows| == i
        invariant forall k :: 0 <= k < i ==>
          rows[k] == CartRow(cart[k].name, cart[k].quantity, Subtotal(cart[k]))
        invariant total == Total(cart[..i])
      {
        var line := cart[i];
        rows := rows + [CartRow(line.name, line.quantity, line.price * line.quantity)];
        assert cart[..i + 1] == cart[..i] + [line];
        TotalAppend(cart[..i], line);
        total := total + line.price * line.quantity;
        i := i + 1;
      }
      assert cart[..i] == cart;
      view := CartView(rows, false, total);
    }
  }
}
