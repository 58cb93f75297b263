/**
 * The shopping cart of the storefront preview (StorefrontPreview.tsx).
 *
 * The cart is an ordered list of lines, one per product id, each holding the
 * product record captured when the product was first added and a quantity.
 * `Added`, `Updated` and `Removed` are the list expressions that the three
 * handlers hand to `setCart`; the class `Cart` holds the state they replace.
 */
module Storefront {
  import opened Seqs
  import opened Domain

  datatype CartLine = CartLine(product: Product, quantity: int)

  function LineId(line: CartLine): string { line.product.productId }

  predicate HasProduct(lines: seq<CartLine>, id: string)
  {
    exists i :: 0 <= i < |lines| && lines[i].product.productId == id
  }

  /** At most one line per product id. */
  ghost predicate UniqueIds(lines: seq<CartLine>)
  {
    UniqueBy(lines, LineId)
  }

  /** Every line that is kept has a positive quantity. */
  ghost predicate AllPositive(lines: seq<CartLine>)
  {
    forall i :: 0 <= i < |lines| ==> lines[i].quantity >= 1
  }

  ghost predicate WellFormed(lines: seq<CartLine>)
  {
    UniqueIds(lines) && AllPositive(lines)
  }

  function Max(a: int, b: int): int { if a >= b then a else b }

  /** The tests and terms the handlers pass to `find`, `filter` and `reduce`. */
  function IsLineOf(id: string): CartLine -> bool { (line: CartLine) => line.product.productId == id }

  function NotLineOf(id: string): CartLine -> bool { (line: CartLine) => line.product.productId != id }

  const Positive := (line: CartLine) => line.quantity > 0

  const Quantity := (line: CartLine) => line.quantity

  const Amount := (line: CartLine) => line.product.price * line.quantity

  /** `addToCart`: bump every line of the product if one exists, else append a new line of quantity 1. */
  function Added(lines: seq<CartLine>, product: Product): seq<CartLine>
  {
    var id := product.productId;
    if Find(lines, IsLineOf(id)).Some? then
      seq(|lines|, i requires 0 <= i < |lines| =>
        if lines[i].product.productId == id then lines[i].(quantity := lines[i].quantity + 1) else lines[i])
    else
      lines + [CartLine(product, 1)]
  }

  /** The `map` step of `updateQuantity`: the product's lines get `max(0, quantity + delta)`. */
  function WithDelta(lines: seq<CartLine>, id: string, delta: int): seq<CartLine>
  {
    seq(|lines|, i requires 0 <= i < |lines| =>
      if lines[i].product.productId == id then lines[i].(quantity := Max(0, lines[i].quantity + delta)) else lines[i])
  }

  /** `updateQuantity`: apply the delta, then keep only lines whose quantity is above zero. */
  function Updated(lines: seq<CartLine>, id: string, delta: int): seq<CartLine>
  {
    Filter(WithDelta(lines, id, delta), Positive)
  }

  /** `removeFromCart`: keep the lines of every other product. */
  function Removed(lines: seq<CartLine>, id: string): seq<CartLine>
  {
    Filter(lines, NotLineOf(id))
  }

  /** `cartItemCount`. */
  function ItemCount(lines: seq<CartLine>): int
  {
    SumOf(lines, Quantity)
  }

  /** `cartTotal`: the price of the stored product record times the quantity, summed. */
  function CartTotal(lines: seq<CartLine>): int
  {
    SumOf(lines, Amount)
  }

  /** The category tab: `'all'` shows every product, any other value the products of that category. */
  const AllCategories := "all"

  function InCategory(selected: string): Product -> bool
  {
    (p: Product) => p.categoryId == selected
  }

  function ShownProducts(products: seq<Product>, selected: string): seq<Product>
  {
    if selected == AllCategories then products
    else Filter(products, InCategory(selected))
  }

  // ----- adding -----

  /** Adding a product that has no line appends exactly one line `{product, 1}` at the end. */
  lemma AddNewAppends(lines: seq<CartLine>, product: Product)
    requires !HasProduct(lines, product.productId)
    ensures Added(lines, product) == lines + [CartLine(product, 1)]
    ensures |Added(lines, product)| == |lines| + 1
  {
  }

  /**
   * Adding a product that already has a line (at `k`) bumps that line by one,
   * keeping its position and its stored product record; nothing else changes.
   */
  lemma AddExistingBumps(lines: seq<CartLine>, product: Product, k: nat)
    requires UniqueIds(lines)
    requires k < |lines| && lines[k].product.productId == product.productId
    ensures |Added(lines, product)| == |lines|
    ensures Added(lines, product)[k] == CartLine(lines[k].product, lines[k].quantity + 1)
    ensures forall i :: 0 <= i < |lines| && i != k ==> Added(lines, product)[i] == lines[i]
  {
    assert IsLineOf(product.productId)(lines[k]);
    OthersDiffer(lines, k);
  }

  /** In a cart with unique ids, no other line has the id of line `k`. */
  lemma OthersDiffer(lines: seq<CartLine>, k: nat)
    requires UniqueIds(lines) && k < |lines|
    ensures forall i :: 0 <= i < |lines| && i != k ==> lines[i].product.productId != lines[k].product.productId
  {
    forall i | 0 <= i < |lines| && i != k
      ensures lines[i].product.productId != lines[k].product.productId
    {
      if i < k { assert LineId(lines[i]) != LineId(lines[k]); } else { assert LineId(lines[k]) != LineId(lines[i]); }
    }
  }

  /** Adding keeps ids unique and quantities positive. */
  lemma AddKeepsWellFormed(lines: seq<CartLine>, product: Product)
    requires WellFormed(lines)
    ensures WellFormed(Added(lines, product))
  {
    var r := Added(lines, product);
    if HasProduct(lines, product.productId) {
      var k :| 0 <= k < |lines| && lines[k].product.productId == product.productId;
      AddExistingBumps(lines, product, k);
      assert forall i :: 0 <= i < |r| ==> LineId(r[i]) == LineId(lines[i]);
    } else {
      AddNewAppends(lines, product);
      forall i, j | 0 <= i < j < |r| ensures LineId(r[i]) != LineId(r[j]) {
        if j == |lines| {
          assert r[j].product == product;
        } else {
          assert r[i] == lines[i] && r[j] == lines[j];
        }
      }
    }
  }

  /**
   * Adding raises the item count by one and the total by the price of the
   * product record already in the cart (the record captured on first add),
   * or by the given product's price when it is new.
   */
  lemma AddCountAndTotal(lines: seq<CartLine>, product: Product)
    requires UniqueIds(lines)
    ensures ItemCount(Added(lines, product)) == ItemCount(lines) + 1
    ensures CartTotal(Added(lines, product)) == CartTotal(lines) + StoredPrice(lines, product)
  {
    var r := Added(lines, product);
    if HasProduct(lines, product.productId) {
      var k :| 0 <= k < |lines| && lines[k].product.productId == product.productId;
      AddExistingBumps(lines, product, k);
      assert r == lines[k := lines[k].(quantity := lines[k].quantity + 1)];
      BumpSums(lines, k);
      StoredPriceAt(lines, product, k);
    } else {
      AddNewAppends(lines, product);
      SumOfAppend(lines, [CartLine(product, 1)], Quantity);
      SumOfAppend(lines, [CartLine(product, 1)], Amount);
      SumOfSingle(CartLine(product, 1), Quantity);
      SumOfSingle(CartLine(product, 1), Amount);
    }
  }

  /** Raising line `k` by one raises the count by one and the total by that line's stored price. */
  lemma BumpSums(lines: seq<CartLine>, k: nat)
    requires k < |lines|
    ensures ItemCount(lines[k := lines[k].(quantity := lines[k].quantity + 1)]) == ItemCount(lines) + 1
    ensures CartTotal(lines[k := lines[k].(quantity := lines[k].quantity + 1)]) == CartTotal(lines) + lines[k].product.price
  {
    ReplaceSums(lines, k, lines[k].(quantity := lines[k].quantity + 1));
    ScaledChange(lines[k].product.price, lines[k].quantity + 1, lines[k].quantity);
  }

  /** Replacing line `k` by `x` moves both sums by the difference of the two lines' terms. */
  lemma ReplaceSums(lines: seq<CartLine>, k: nat, x: CartLine)
    requires k < |lines|
    ensures ItemCount(lines[k := x]) == ItemCount(lines) - lines[k].quantity + x.quantity
    ensures CartTotal(lines[k := x]) == CartTotal(lines) - Amount(lines[k]) + Amount(x)
  {
    assert lines[k := x] == lines[..k] + [x] + lines[k + 1..];
    SplitAt(lines, k);
    SumOfSplice(lines[..k], x, lines[k + 1..], Quantity);
    SumOfSplice(lines[..k], x, lines[k + 1..], Amount);
    SumOfSplice(lines[..k], lines[k], lines[k + 1..], Quantity);
    SumOfSplice(lines[..k], lines[k], lines[k + 1..], Amount);
  }

  /** The unit price an add contributes: that of the stored record when the product is already in the cart. */
  function StoredPrice(lines: seq<CartLine>, product: Product): int
  {
    match Find(lines, IsLineOf(product.productId))
    case Some(line) => line.product.price
    case None => product.price
  }

  lemma StoredPriceAt(lines: seq<CartLine>, product: Product, k: nat)
    requires UniqueIds(lines)
    requires k < |lines| && lines[k].product.productId == product.productId
    ensures Find(lines, IsLineOf(product.productId)) == Some(lines[k])
    ensures StoredPrice(lines, product) == lines[k].product.price
  {
    OthersDiffer(lines, k);
    FindFirst(lines, IsLineOf(product.productId), k);
  }


  // ----- changing a quantity -----

  /** Every line that survives `updateQuantity` has a quantity of at least 1, whatever the cart was. */
  lemma UpdatedAllPositive(lines: seq<CartLine>, id: string, delta: int)
    ensures AllPositive(Updated(lines, id, delta))
    ensures IsSubsequence(Updated(lines, id, delta), WithDelta(lines, id, delta))
  {
    FilterIsSubsequence(WithDelta(lines, id, delta), Positive);
  }

  /** A quantity change for a product not in a cart of positive lines leaves the cart as it is. */
  lemma UpdateAbsentUnchanged(lines: seq<CartLine>, id: string, delta: int)
    requires AllPositive(lines)
    requires !HasProduct(lines, id)
    ensures Updated(lines, id, delta) == lines
  {
    assert WithDelta(lines, id, delta) == lines;
    FilterKeepsAll(lines, Positive);
  }

  /** On a cart with unique ids the `map` step touches line `k` only. */
  lemma WithDeltaAt(lines: seq<CartLine>, id: string, delta: int, k: nat)
    requires UniqueIds(lines)
    requires k < |lines| && lines[k].product.productId == id
    ensures WithDelta(lines, id, delta) ==
      lines[..k] + [lines[k].(quantity := Max(0, lines[k].quantity + delta))] + lines[k + 1..]
  {
    OthersDiffer(lines, k);
    var x := lines[k].(quantity := Max(0, lines[k].quantity + delta));
    var spliced := lines[..k] + [x] + lines[k + 1..];
    assert |WithDelta(lines, id, delta)| == |spliced|;
    forall i | 0 <= i < |lines| ensures WithDelta(lines, id, delta)[i] == spliced[i] {
      if i < k {
        assert spliced[i] == lines[i];
      } else if i > k {
        assert spliced[i] == lines[k + 1..][i - k - 1];
      }
    }
  }

  /** The lines before and after `k` of a cart of positive lines pass the filter of `updateQuantity`. */
  lemma PositiveAround(lines: seq<CartLine>, k: nat, before: seq<CartLine>, after: seq<CartLine>)
    requires AllPositive(lines) && k < |lines|
    requires before == lines[..k] && after == lines[k + 1..]
    ensures forall i :: 0 <= i < |before| ==> Positive(before[i])
    ensures forall i :: 0 <= i < |after| ==> Positive(after[i])
  {
    assert forall i :: 0 <= i < |after| ==> after[i] == lines[k + 1 + i];
  }

  /** Filtering a cart of positive lines whose line `k` was given quantity `max(0, q)`. */
  lemma FilterChangedLine(lines: seq<CartLine>, k: nat, q: int)
    requires AllPositive(lines) && k < |lines|
    ensures Filter(lines[..k] + [lines[k].(quantity := Max(0, q))] + lines[k + 1..], Positive) ==
      if q > 0 then lines[k := lines[k].(quantity := q)] else lines[..k] + lines[k + 1..]
  {
    var x := lines[k].(quantity := Max(0, q));
    var before, after := lines[..k], lines[k + 1..];
    PositiveAround(lines, k, before, after);
    FilterSplice(before, x, after, Positive);
    if q > 0 {
      UpdateIsSplice(lines, k, x);
    } else {
      assert Filter(before + [x] + after, Positive) == before + [] + after;
      assert before + [] + after == before + after;
    }
  }

  /**
   * On a well-formed cart whose line `k` holds the product: the line takes
   * quantity `q + delta` in place when that is positive, and is dropped
   * otherwise; every other line stays where it was.
   */
  lemma UpdatePresent(lines: seq<CartLine>, id: string, delta: int, k: nat)
    requires WellFormed(lines)
    requires k < |lines| && lines[k].product.productId == id
    ensures var q := lines[k].quantity + delta;
      Updated(lines, id, delta) ==
        if q > 0 then lines[k := lines[k].(quantity := q)] else lines[..k] + lines[k + 1..]
  {
    WithDeltaAt(lines, id, delta, k);
    FilterChangedLine(lines, k, lines[k].quantity + delta);
  }

  /** Changing a quantity keeps ids unique and quantities positive. */
  lemma UpdateKeepsWellFormed(lines: seq<CartLine>, id: string, delta: int)
    requires WellFormed(lines)
    ensures WellFormed(Updated(lines, id, delta))
  {
    var mapped := WithDelta(lines, id, delta);
    assert forall i :: 0 <= i < |lines| ==> LineId(mapped[i]) == LineId(lines[i]);
    FilterKeepsUnique(mapped, Positive, LineId);
    UpdatedAllPositive(lines, id, delta);
  }

  /** The item count moves by the change of that one line, and is never pushed below the other lines' sum. */
  lemma UpdateCount(lines: seq<CartLine>, id: string, delta: int, k: nat)
    requires WellFormed(lines)
    requires k < |lines| && lines[k].product.productId == id
    ensures ItemCount(Updated(lines, id, delta)) == ItemCount(lines) - lines[k].quantity + Max(0, lines[k].quantity + delta)
  {
    UpdatePresent(lines, id, delta, k);
    ChangedLineCount(lines, k, lines[k].quantity + delta);
  }

  /** The item count of a cart whose line `k` takes quantity `q` in place, or is dropped when `q` is not positive. */
  lemma ChangedLineCount(lines: seq<CartLine>, k: nat, q: int)
    requires k < |lines|
    ensures ItemCount(if q > 0 then lines[k := lines[k].(quantity := q)] else lines[..k] + lines[k + 1..]) ==
      ItemCount(lines) - lines[k].quantity + Max(0, q)
  {
    if q > 0 {
      ReplaceSums(lines, k, lines[k].(quantity := q));
    } else {
      SplitAt(lines, k);
      SumOfSplice(lines[..k], lines[k], lines[k + 1..], Quantity);
    }
  }

  /** The total moves by the stored price of the line times the change of its quantity. */
  lemma UpdateTotal(lines: seq<CartLine>, id: string, delta: int, k: nat)
    requires WellFormed(lines)
    requires k < |lines| && lines[k].product.productId == id
    ensures CartTotal(Updated(lines, id, delta)) ==
      CartTotal(lines) + lines[k].product.price * (Max(0, lines[k].quantity + delta) - lines[k].quantity)
  {
    UpdatePresent(lines, id, delta, k);
    ChangedLineTotal(lines, k, lines[k].quantity + delta);
  }

  /** The total of a cart whose line `k` takes quantity `q` in place, or is dropped when `q` is not positive. */
  lemma ChangedLineTotal(lines: seq<CartLine>, k: nat, q: int)
    requires k < |lines|
    ensures CartTotal(if q > 0 then lines[k := lines[k].(quantity := q)] else lines[..k] + lines[k + 1..]) ==
      CartTotal(lines) + lines[k].product.price * (Max(0, q) - lines[k].quantity)
  {
    var price := lines[k].product.price;
    if q > 0 {
      ReplaceSums(lines, k, lines[k].(quantity := q));
      ScaledChange(price, q, lines[k].quantity);
    } else {
      SplitAt(lines, k);
      SumOfSplice(lines[..k], lines[k], lines[k + 1..], Amount);
      ScaledChange(price, 0, lines[k].quantity);
    }
  }

  lemma ScaledChange(price: int, after: int, before: int)
    ensures price * after - price * before == price * (after - before)
  {
  }

  // ----- removing -----

  /** Removing drops exactly the product's lines and keeps every other line, in order. */
  lemma RemoveDropsExactly(lines: seq<CartLine>, id: string)
    ensures !HasProduct(Removed(lines, id), id)
    ensures forall i :: 0 <= i < |lines| && lines[i].product.productId != id ==> lines[i] in Removed(lines, id)
    ensures IsSubsequence(Removed(lines, id), lines)
    ensures forall x :: multiset(Removed(lines, id))[x] == if x.product.productId != id then multiset(lines)[x] else 0
  {
    FilterIsSubsequence(lines, NotLineOf(id));
    FilterCounts(lines, NotLineOf(id));
  }

  /** Removing a product that is not in the cart changes nothing. */
  lemma RemoveAbsentUnchanged(lines: seq<CartLine>, id: string)
    requires !HasProduct(lines, id)
    ensures Removed(lines, id) == lines
  {
    FilterKeepsAll(lines, NotLineOf(id));
  }

  /** On a cart with unique ids, removing the product at `k` splices out exactly that line. */
  lemma RemovePresent(lines: seq<CartLine>, id: string, k: nat)
    requires UniqueIds(lines)
    requires k < |lines| && lines[k].product.productId == id
    ensures Removed(lines, id) == lines[..k] + lines[k + 1..]
    ensures ItemCount(Removed(lines, id)) == ItemCount(lines) - lines[k].quantity
    ensures CartTotal(Removed(lines, id)) == CartTotal(lines) - lines[k].product.price * lines[k].quantity
  {
    RemovedAt(lines, k);
    var before, after := lines[..k], lines[k + 1..];
    SplitAt(lines, k);
    SumOfSplice(before, lines[k], after, Quantity);
    SumOfSplice(before, lines[k], after, Amount);
  }

  lemma RemovedAt(lines: seq<CartLine>, k: nat)
    requires UniqueIds(lines) && k < |lines|
    ensures Removed(lines, lines[k].product.productId) == lines[..k] + lines[k + 1..]
  {
    var before, after := lines[..k], lines[k + 1..];
    OthersAround(lines, k, before, after);
    SplitAt(lines, k);
    FilterSplice(before, lines[k], after, NotLineOf(lines[k].product.productId));
    assert before + [] + after == before + after;
  }

  /** On unique ids, the lines before and after `k` pass the filter that removes line `k`'s product. */
  lemma OthersAround(lines: seq<CartLine>, k: nat, before: seq<CartLine>, after: seq<CartLine>)
    requires UniqueIds(lines) && k < |lines|
    requires before == lines[..k] && after == lines[k + 1..]
    ensures forall i :: 0 <= i < |before| ==> NotLineOf(lines[k].product.productId)(before[i])
    ensures forall i :: 0 <= i < |after| ==> NotLineOf(lines[k].product.productId)(after[i])
  {
    OthersDiffer(lines, k);
    assert forall i :: 0 <= i < |after| ==> after[i] == lines[k + 1 + i];
  }

  /** Removing keeps ids unique and quantities positive. */
  lemma RemoveKeepsWellFormed(lines: seq<CartLine>, id: string)
    requires WellFormed(lines)
    ensures WellFormed(Removed(lines, id))
  {
    FilterKeepsUnique(lines, NotLineOf(id), LineId);
  }

  // ----- totals -----

  /** Both reductions are 0 on the empty cart. */
  lemma EmptyTotals()
    ensures ItemCount([]) == 0 && CartTotal([]) == 0
  {
  }

  /** With positive quantities the item count is at least the number of lines. */
  lemma {:induction false} ItemCountAtLeastLines(lines: seq<CartLine>)
    requires AllPositive(lines)
    ensures ItemCount(lines) >= |lines|
    decreases |lines|
  {
    if lines != [] {
      ItemCountAtLeastLines(lines[..|lines| - 1]);
    }
  }

  // ----- every reachable cart -----

  /** One user action on the cart. */
  datatype CartAction = Add(product: Product) | ChangeQuantity(id: string, delta: int) | Remove(id: string)

  function Apply(lines: seq<CartLine>, action: CartAction): seq<CartLine>
  {
    match action
    case Add(p) => Added(lines, p)
    case ChangeQuantity(id, delta) => Updated(lines, id, delta)
    case Remove(id) => Removed(lines, id)
  }

  /** The cart after a sequence of actions, starting from the empty cart of a new preview. */
  function Replay(actions: seq<CartAction>): seq<CartLine>
  {
    if actions == [] then [] else Apply(Replay(actions[..|actions| - 1]), actions[|actions| - 1])
  }

  /** No sequence of actions from the empty cart yields a repeated id or a non-positive quantity. */
  lemma {:induction false} ReplayWellFormed(actions: seq<CartAction>)
    ensures WellFormed(Replay(actions))
    decreases |actions|
  {
    if actions != [] {
      var before := Replay(actions[..|actions| - 1]);
      ReplayWellFormed(actions[..|actions| - 1]);
      match actions[|actions| - 1]
      case Add(p) => AddKeepsWellFormed(before, p);
      case ChangeQuantity(id, delta) => UpdateKeepsWellFormed(before, id, delta);
      case Remove(id) => RemoveKeepsWellFormed(before, id);
    }
  }

  // ----- the category tab -----

  /** `'all'` shows the whole list; a category shows exactly its products, in order. */
  lemma ShownProductsSpec(products: seq<Product>, selected: string)
    ensures selected == AllCategories ==> ShownProducts(products, selected) == products
    ensures selected != AllCategories ==>
      (forall i :: 0 <= i < |ShownProducts(products, selected)| ==> ShownProducts(products, selected)[i].categoryId == selected) &&
      (forall i :: 0 <= i < |products| && products[i].categoryId == selected ==> products[i] in ShownProducts(products, selected)) &&
      IsSubsequence(ShownProducts(products, selected), products) &&
      (forall x :: multiset(ShownProducts(products, selected))[x] == if x.categoryId == selected then multiset(products)[x] else 0)
  {
    if selected != AllCategories {
      FilterIsSubsequence(products, InCategory(selected));
      FilterCounts(products, InCategory(selected));
    }
  }

  /** The cart of one storefront preview session. */
  class Cart {
    var lines: seq<CartLine>

    ghost predicate Valid()
      reads this
    {
      WellFormed(lines)
    }

    /** A preview starts with an empty cart. */
    constructor()
      ensures Valid() && lines == []
    {
      lines := [];
    }

    method AddToCart(product: Product)
      requires Valid()
      modifies this
      ensures Valid()
      ensures lines == Added(old(lines), product)
      ensures !HasProduct(old(lines), product.productId) ==> lines == old(lines) + [CartLine(product, 1)]
      ensures HasProduct(old(lines), product.productId) ==> |lines| == |old(lines)|
      ensures ItemCount(lines) == ItemCount(old(lines)) + 1
    {
      AddKeepsWellFormed(lines, product);
      AddCountAndTotal(lines, product);
      if HasProduct(lines, product.productId) {
        var k :| 0 <= k < |lines| && lines[k].product.productId == product.productId;
        AddExistingBumps(lines, product, k);
      }
      lines := Added(lines, product);
    }

    method UpdateQuantity(id: string, delta: int)
      requires Valid()
      modifies this
      ensures Valid()
      ensures lines == Updated(old(lines), id, delta)
      ensures !HasProduct(old(lines), id) ==> lines == old(lines)
      ensures forall k :: 0 <= k < |old(lines)| && old(lines)[k].product.productId == id ==>
        lines == if old(lines)[k].quantity + delta > 0
                 then old(lines)[k := old(lines)[k].(quantity := old(lines)[k].quantity + delta)]
                 else old(lines)[..k] + old(lines)[k + 1..]
    {
      UpdateKeepsWellFormed(lines, id, delta);
      if !HasProduct(lines, id) {
        UpdateAbsentUnchanged(lines, id, delta);
      }
      forall k | 0 <= k < |lines| && lines[k].product.productId == id
        ensures Updated(lines, id, delta) ==
          if lines[k].quantity + delta > 0 then lines[k := lines[k].(quantity := lines[k].quantity + delta)]
          else lines[..k] + lines[k + 1..]
      {
        UpdatePresent(lines, id, delta, k);
      }
      lines := Updated(lines, id, delta);
    }

    method RemoveFromCart(id: string)
      requires Valid()
      modifies this
      ensures Valid()
      ensures lines == Removed(old(lines), id)
      ensures !HasProduct(old(lines), id) ==> lines == old(lines)
      ensures forall k :: 0 <= k < |old(lines)| && old(lines)[k].product.productId == id ==>
        lines == old(lines)[..k] + old(lines)[k + 1..]
    {
      RemoveKeepsWellFormed(lines, id);
      if !HasProduct(lines, id) {
        RemoveAbsentUnchanged(lines, id);
      }
      forall k | 0 <= k < |lines| && lines[k].product.productId == id
        ensures Removed(lines, id) == lines[..k] + lines[k + 1..]
      {
        RemovePresent(lines, id, k);
      }
      lines := Removed(lines, id);
    }
  }
}
