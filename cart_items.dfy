/**
 * The cart document of server.js and the pure operations the cart handlers
 * apply to its list of lines: the total (`reduce`), the lookup by product
 * (`find`), increment-or-append, and the removal filter (`filter`).
 */
module CartItems {
  import opened Wrappers

  /** A product reference, taken to be in the lower-case hex form an ObjectId prints as; compared as a string. */
  type ProductId = string

  /** One line of a cart: the element type of `cartSchema.items`. */
  datatype Item = Item(productId: ProductId, name: string, price: int, quantity: int, image: string)

  /** A cart document as the handlers answer with it: its ordered lines and the cached total. */
  datatype Cart = Cart(items: seq<Item>, total: int)

  /** The cart answered to a caller without a session, and by remove when the user has no cart. */
  const EmptyCart: Cart := Cart([], 0)

  /** What one line contributes to the total. */
  function LineTotal(line: Item): int
  {
    line.price * line.quantity
  }

  /** The sum of price times quantity over the lines, taken front to back. */
  function Sum(items: seq<Item>): int
  {
    if items == [] then 0 else LineTotal(items[0]) + Sum(items[1..])
  }

  /** Appending a line to the run adds that line's contribution to its sum. */
  lemma {:induction false} SumSnoc(items: seq<Item>, line: Item)
    ensures Sum(items + [line]) == Sum(items) + LineTotal(line)
  {
    if items != [] {
      assert (items + [line])[1..] == items[1..] + [line];
      SumSnoc(items[1..], line);
    }
  }

  /**
   * `items.reduce((sum, i) => sum + i.price * i.quantity, 0)`: a fold from the
   * left starting at 0. Whatever the order of accumulation, it is the sum of
   * every line's price times quantity.
   */
  function Total(items: seq<Item>): (r: int)
    ensures r == Sum(items)
  {
    if items == [] then 0
    else
      var init, last := items[..|items| - 1], items[|items| - 1];
      assert init + [last] == items;
      SumSnoc(init, last);
      Total(init) + LineTotal(last)
  }

  /** Some line of the cart is for product `id`. */
  predicate HasLine(items: seq<Item>, id: ProductId)
  {
    exists j :: 0 <= j < |items| && items[j].productId == id
  }

  /** No two lines are for the same product. */
  predicate UniqueIds(items: seq<Item>)
  {
    forall i, j :: 0 <= i < j < |items| ==> items[i].productId != items[j].productId
  }

  /** Every line holds at least one unit. */
  predicate PositiveQuantities(items: seq<Item>)
  {
    forall j :: 0 <= j < |items| ==> items[j].quantity >= 1
  }

  /** What every stored cart satisfies: the cached total is up to date, one line per product, no empty line. */
  predicate WellFormed(cart: Cart)
  {
    cart.total == Total(cart.items) && UniqueIds(cart.items) && PositiveQuantities(cart.items)
  }

  /** The position of the first line for product `id`, as `items.find` locates it. */
  function Find(items: seq<Item>, id: ProductId): (r: Option<nat>)
    ensures r.Some? ==> r.value < |items| && items[r.value].productId == id
    ensures r.Some? ==> forall j :: 0 <= j < r.value ==> items[j].productId != id
    ensures r.None? <==> !HasLine(items, id)
  {
    if items == [] then None
    else if items[0].productId == id then Some(0)
    else
      match Find(items[1..], id)
      case None =>
        assert forall j :: 1 <= j < |items| ==> items[j] == items[1..][j - 1];
        None
      case Some(k) => Some(k + 1)
  }

  /**
   * The lines after an add: the first line for `id` gets one more unit and the
   * request's name, price and image are ignored; without such a line, a new
   * line with quantity 1 is appended.
   */
  function AddLine(items: seq<Item>, id: ProductId, name: string, price: int, image: string): (r: seq<Item>)
    ensures HasLine(r, id)
    ensures |r| == if HasLine(items, id) then |items| else |items| + 1
  {
    match Find(items, id)
    case Some(k) =>
      var r := items[k := items[k].(quantity := items[k].quantity + 1)];
      assert r[k].productId == id;
      r
    case None =>
      var r := items + [Item(id, name, price, 1, image)];
      assert r[|items|].productId == id;
      r
  }

  /** The lines after a remove: every line for `id` dropped, the others kept in order. */
  function RemoveAll(items: seq<Item>, id: ProductId): (r: seq<Item>)
    ensures !HasLine(r, id)
    ensures |r| <= |items|
    ensures !HasLine(items, id) ==> r == items
  {
    if items == [] then []
    else if items[0].productId == id then RemoveAll(items[1..], id)
    else
      assert !HasLine(items, id) ==> !HasLine(items[1..], id) by {
        if HasLine(items[1..], id) {
          var j :| 0 <= j < |items[1..]| && items[1..][j].productId == id;
          assert items[j + 1].productId == id;
        }
      }
      [items[0]] + RemoveAll(items[1..], id)
  }

  // ---------------------------------------------------------------------------
  // The total

  /** The total of two runs of lines is the sum of their totals. */
  lemma {:induction false} TotalConcat(a: seq<Item>, b: seq<Item>)
    ensures Total(a + b) == Total(a) + Total(b)
  {
    if b == [] {
      assert a + b == a;
    } else {
      var c := a + b;
      assert c[..|c| - 1] == a + b[..|b| - 1];
      assert c[|c| - 1] == b[|b| - 1];
      TotalConcat(a, b[..|b| - 1]);
    }
  }

  /** Replacing one line changes the total by exactly the difference of the two lines. */
  lemma TotalUpdate(items: seq<Item>, k: nat, line: Item)
    requires k < |items|
    ensures Total(items[k := line]) == Total(items) - LineTotal(items[k]) + LineTotal(line)
  {
    var before, after := items[..k], items[k + 1..];
    assert items == before + [items[k]] + after;
    assert items[k := line] == before + [line] + after;
    TotalConcat(before + [items[k]], after);
    TotalConcat(before, [items[k]]);
    TotalConcat(before + [line], after);
    TotalConcat(before, [line]);
    assert [line][..0] == [];
    assert [items[k]][..0] == [];
  }

  // ---------------------------------------------------------------------------
  // Add

  /** `find` stops at the first line for the product: the one every earlier line differs from. */
  lemma FindFirst(items: seq<Item>, id: ProductId, k: nat)
    requires k < |items| && items[k].productId == id
    requires forall j :: 0 <= j < k ==> items[j].productId != id
    ensures Find(items, id) == Some(k)
  {
    assert HasLine(items, id);
    var first := Find(items, id).value;
    assert !(first < k) && !(k < first);
  }

  /** Adding a product that already has a line replaces its first line by a copy holding one more unit. */
  lemma AddExistingLines(items: seq<Item>, id: ProductId, name: string, price: int, image: string, k: nat)
    requires k < |items| && items[k].productId == id
    requires forall j :: 0 <= j < k ==> items[j].productId != id
    ensures AddLine(items, id, name, price, image) == items[k := items[k].(quantity := items[k].quantity + 1)]
  {
    FindFirst(items, id, k);
  }

  /** One more unit of a line adds its price to the line's contribution. */
  lemma LineTotalIncrement(line: Item)
    ensures LineTotal(line.(quantity := line.quantity + 1)) == LineTotal(line) + line.price
  {
    var p, q := line.price, line.quantity;
    assert p * (q + 1) == p * q + p;
  }

  /**
   * Adding a product that already has a line: that line (the first one for the
   * product) gains exactly one unit and keeps its name, price and image; every
   * other line and the number of lines stay the same; the total grows by that
   * line's stored price.
   */
  lemma AddExisting(items: seq<Item>, id: ProductId, name: string, price: int, image: string, k: nat)
    requires k < |items| && items[k].productId == id
    requires forall j :: 0 <= j < k ==> items[j].productId != id
    ensures var r := AddLine(items, id, name, price, image);
      && |r| == |items|
      && r[k] == Item(id, items[k].name, items[k].price, items[k].quantity + 1, items[k].image)
      && (forall j :: 0 <= j < |items| && j != k ==> r[j] == items[j])
      && Total(r) == Total(items) + items[k].price
  {
    var line := items[k].(quantity := items[k].quantity + 1);
    AddExistingLines(items, id, name, price, image, k);
    LineTotalIncrement(items[k]);
    TotalUpdate(items, k, line);
  }

  /**
   * Adding a product without a line appends one line at the end with quantity
   * 1 and the request's name, price and image; the earlier lines are unchanged
   * and in order; the total grows by the price.
   */
  lemma AddNew(items: seq<Item>, id: ProductId, name: string, price: int, image: string)
    requires !HasLine(items, id)
    ensures AddLine(items, id, name, price, image) == items + [Item(id, name, price, 1, image)]
    ensures Total(AddLine(items, id, name, price, image)) == Total(items) + price
  {
    var r := items + [Item(id, name, price, 1, image)];
    assert r[..|r| - 1] == items;
  }

  /** Adding the same new product twice gives a single line holding two units. */
  lemma AddTwice(items: seq<Item>, id: ProductId, name: string, price: int, image: string)
    requires !HasLine(items, id)
    ensures AddLine(AddLine(items, id, name, price, image), id, name, price, image)
         == items + [Item(id, name, price, 2, image)]
    ensures Total(AddLine(AddLine(items, id, name, price, image), id, name, price, image))
         == Total(items) + 2 * price
  {
    var once := AddLine(items, id, name, price, image);
    AddNew(items, id, name, price, image);
    AddExisting(once, id, name, price, image, |items|);
  }

  /** A product priced 799 added twice to an empty cart: one line of quantity 2, total 1598. */
  lemma AddTwiceExample(id: ProductId)
    ensures var once := AddLine([], id, "Naruto Sage Mode", 799, "naruto.jpg");
      var twice := AddLine(once, id, "Naruto Sage Mode", 799, "naruto.jpg");
      twice == [Item(id, "Naruto Sage Mode", 799, 2, "naruto.jpg")] && Total(twice) == 1598
  {
    AddTwice([], id, "Naruto Sage Mode", 799, "naruto.jpg");
    assert [] + [Item(id, "Naruto Sage Mode", 799, 2, "naruto.jpg")] == [Item(id, "Naruto Sage Mode", 799, 2, "naruto.jpg")];
  }

  /** Add keeps one line per product and at least one unit in every line. */
  lemma AddKeepsInvariant(items: seq<Item>, id: ProductId, name: string, price: int, image: string)
    requires UniqueIds(items) && PositiveQuantities(items)
    ensures UniqueIds(AddLine(items, id, name, price, image))
    ensures PositiveQuantities(AddLine(items, id, name, price, image))
  {
    match Find(items, id)
    case Some(k) =>
      AddExisting(items, id, name, price, image, k);
    case None =>
      AddNew(items, id, name, price, image);
  }

  // ---------------------------------------------------------------------------
  // Remove

  /** The lines a remove keeps are exactly the lines of the cart for other products. */
  lemma {:induction false} RemoveAllKeeps(items: seq<Item>, id: ProductId, line: Item)
    ensures line in RemoveAll(items, id) <==> line in items && line.productId != id
  {
    if items != [] {
      RemoveAllKeeps(items[1..], id, line);
      assert items == [items[0]] + items[1..];
    }
  }

  /** Removal works run by run: the surviving lines keep their relative order. */
  lemma {:induction false} RemoveAllConcat(a: seq<Item>, b: seq<Item>, id: ProductId)
    ensures RemoveAll(a + b, id) == RemoveAll(a, id) + RemoveAll(b, id)
  {
    if a == [] {
      assert a + b == b;
    } else {
      assert (a + b)[1..] == a[1..] + b;
      RemoveAllConcat(a[1..], b, id);
    }
  }

  /** Remove keeps one line per product and at least one unit in every line. */
  lemma {:induction false} RemoveKeepsInvariant(items: seq<Item>, id: ProductId)
    requires UniqueIds(items) && PositiveQuantities(items)
    ensures UniqueIds(RemoveAll(items, id)) && PositiveQuantities(RemoveAll(items, id))
  {
    if items != [] {
      var rest := items[1..];
      RemoveKeepsInvariant(rest, id);
      var r := RemoveAll(items, id);
      forall j | 0 <= j < |r| ensures r[j].quantity >= 1 {
        RemoveAllKeeps(items, id, r[j]);
      }
      if items[0].productId != id {
        var tail := RemoveAll(rest, id);
        forall j | 0 <= j < |tail| ensures tail[j].productId != items[0].productId {
          RemoveAllKeeps(rest, id, tail[j]);
          var i :| 0 <= i < |rest| && rest[i] == tail[j];
          assert items[i + 1] == tail[j];
        }
      }
    }
  }

  /**
   * Removing a product from a run whose line `k` is for that product gives the
   * survivors before `k` followed by the survivors after it, whatever line `k`
   * held.
   */
  lemma RemoveAround(items: seq<Item>, k: nat, line: Item, id: ProductId)
    requires k < |items| && line.productId == id
    ensures RemoveAll(items[k := line], id) == RemoveAll(items[..k], id) + RemoveAll(items[k + 1..], id)
  {
    var before, after := items[..k], items[k + 1..];
    assert items[k := line] == before + [line] + after;
    RemoveAllConcat(before + [line], after, id);
    RemoveAllConcat(before, [line], id);
    assert RemoveAll([line], id) == [];
  }

  /** The total splits around any one line. */
  lemma TotalAround(items: seq<Item>, k: nat)
    requires k < |items|
    ensures Total(items) == Total(items[..k]) + LineTotal(items[k]) + Total(items[k + 1..])
  {
    var before, after := items[..k], items[k + 1..];
    assert items == before + [items[k]] + after;
    TotalConcat(before + [items[k]], after);
    TotalConcat(before, [items[k]]);
    assert [items[k]][..0] == [];
  }

  /**
   * In a cart with one line per product, removing the product of line `k`
   * lowers the total by exactly that line's contribution.
   */
  lemma RemoveTotal(items: seq<Item>, id: ProductId, k: nat)
    requires UniqueIds(items)
    requires k < |items| && items[k].productId == id
    ensures Total(RemoveAll(items, id)) == Total(items) - LineTotal(items[k])
  {
    var before, after := items[..k], items[k + 1..];
    assert !HasLine(before, id);
    assert !HasLine(after, id);
    assert items[k := items[k]] == items;
    RemoveAround(items, k, items[k], id);
    assert RemoveAll(items, id) == before + after;
    TotalAround(items, k);
    TotalConcat(before, after);
  }

  /**
   * Removing a product undoes every add of it: the lines left after the
   * remove are the same whether or not the add happened.
   */
  lemma RemoveUndoesAdd(items: seq<Item>, id: ProductId, name: string, price: int, image: string)
    ensures RemoveAll(AddLine(items, id, name, price, image), id) == RemoveAll(items, id)
  {
    var found := Find(items, id);
    if found.Some? {
      var k := found.value;
      var line := items[k].(quantity := items[k].quantity + 1);
      assert AddLine(items, id, name, price, image) == items[k := line];
      RemoveAround(items, k, line, id);
      RemoveAround(items, k, items[k], id);
      assert items[k := items[k]] == items;
    } else {
      var line := Item(id, name, price, 1, image);
      RemoveAllConcat(items, [line], id);
      assert RemoveAll([line], id) == [];
    }
  }

  /** Adding a product that had no line and then removing it leaves the lines exactly as they were. */
  lemma RemoveUndoesAddNew(items: seq<Item>, id: ProductId, name: string, price: int, image: string)
    requires !HasLine(items, id)
    ensures RemoveAll(AddLine(items, id, name, price, image), id) == items
  {
    RemoveUndoesAdd(items, id, name, price, image);
  }
}
