/**
  * The page's cart state: the global `cart`, what `saveCart` last wrote to
  * `localStorage`, and the count shown in the cart badge, with the two
  * operations the cart view calls (script.js:6, 100-108, 203-236).
  */
module CartStore {
  import opened Wrappers
  import opened CartLines

  /**
    * The cart read at start-up: the stored lines, or the empty cart when the
    * key is absent or holds a falsy value (`JSON.parse(...) || []`).
    */
  function Restore(stored: Option<seq<CartLine>>): (r: seq<CartLine>)
    ensures stored.Some? ==> r == stored.value
    ensures stored.None? ==> r == []
  {
    stored.GetOr([])
  }

  class Cart {
    /** The global `cart`. */
    var lines: seq<CartLine>
    /** The `cart` key of `localStorage`, as the lines it decodes to. */
    var stored: Option<seq<CartLine>>
    /** The text of the cart badge, written by `updateCartCount`. */
    var shownCount: int
    /** How many times `saveCart` has run. */
    ghost var saves: nat

    /** The cart invariant: every line between one unit and its stock. */
    predicate Valid()
      reads this
    {
      WithinStock(lines)
    }

    /** Storage and badge agree with the cart: a reload would see these lines, and the badge shows their count. */
    predicate Synced()
      reads this
    {
      Restore(stored) == lines && shownCount == Count(lines)
    }

    /** Page load: read the cart from storage, then `updateCartCount` (script.js:6, 12). */
    constructor (persisted: Option<seq<CartLine>>)
      ensures lines == Restore(persisted) && stored == persisted
      ensures saves == 0
      ensures Synced()
    {
      lines := Restore(persisted);
      stored := persisted;
      saves := 0;
      new;
      UpdateCartCount();
    }

    /** `saveCart`: write the whole cart to storage. */
    method SaveCart()
      modifies this`stored, this`saves
      ensures stored == Some(lines) && Restore(stored) == lines
      ensures saves == old(saves) + 1
    {
      stored := Some(lines);
      saves := saves + 1;
    }

    /** `updateCartCount`: show the sum of the quantities in the badge. */
    method UpdateCartCount()
      modifies this`shownCount
      ensures shownCount == Count(lines)
    {
      shownCount := Count(lines);
    }

    /**
      * `removeFromCart`: drop every line for `productId`, save, refresh the
      * badge, and report whether the cart is now empty (the `closeCart` signal).
      */
    method RemoveFromCart(productId: string) returns (emptied: bool)
      modifies this
      ensures lines == Without(old(lines), productId)
      ensures emptied <==> lines == []
      ensures stored == Some(lines) && saves == old(saves) + 1
      ensures Synced()
      ensures old(Valid()) ==> Valid()
    {
      lines := Without(lines, productId);
      SaveCart();
      UpdateCartCount();
      emptied := |lines| == 0;
    }

    /**
      * `changeQuantity`: find the first line for `productId`; remove it when
      * the new quantity is not positive, refuse when it exceeds the line's
      * stock, otherwise set it, save and refresh the badge.
      */
    method ChangeQuantity(productId: string, change: int) returns (outcome: Outcome)
      modifies this
      ensures outcome == QuantityChange(old(lines), productId, change).outcome
      ensures lines == QuantityChange(old(lines), productId, change).lines
      ensures outcome == NoSuchLine || outcome == StockLimit ==>
        stored == old(stored) && saves == old(saves) && shownCount == old(shownCount)
      ensures outcome.Removed? || outcome == Updated ==>
        stored == Some(lines) && saves == old(saves) + 1 && shownCount == Count(lines)
      ensures old(Synced()) ==> Synced()
      ensures old(Valid()) ==> Valid()
    {
      ghost var before := lines;
      ghost var r := QuantityChange(before, productId, change);
      if WithinStock(before) {
        ChangeKeepsWithinStock(before, productId, change);
      }
      var found := FindLine(lines, productId);
      if found.None? {
        assert r == ChangeResult(NoSuchLine, before);
        return NoSuchLine;
      }
      var i := found.value;
      var newQuantity := lines[i].quantity + change;
      if newQuantity <= 0 {
        assert r == ChangeResult(Removed(Without(before, productId) == []), Without(before, productId));
        var emptied := RemoveFromCart(productId);
        return Removed(emptied);
      }
      if newQuantity > lines[i].maxStock {
        assert r == ChangeResult(StockLimit, before);
        return StockLimit;
      }
      assert r == ChangeResult(Updated, before[i := before[i].(quantity := newQuantity)]);
      lines := lines[i := lines[i].(quantity := newQuantity)];
      SaveCart();
      UpdateCartCount();
      outcome := Updated;
    }
  }
}
