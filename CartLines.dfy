/**
  * The cart as a value: its lines, the folds the page derives from them, and
  * what one `changeQuantity` or `removeFromCart` does to them
  * (script.js:106, 191, 203-236).
  */
module CartLines {
  import opened Wrappers
  import Seqs

  /** One line of the cart: a snapshot of the product plus the chosen quantity. */
  datatype CartLine = CartLine(id: string, name: string, price: int, quantity: int, maxStock: int)

  /** The cart invariant: every line asks for at least one unit and no more than its stock. */
  predicate WithinStock(lines: seq<CartLine>)
  {
    forall k :: 0 <= k < |lines| ==> 1 <= lines[k].quantity <= lines[k].maxStock
  }

  /** The number in the cart badge: the sum of the line quantities, 0 for an empty cart. */
  function Count(lines: seq<CartLine>): (r: int)
    ensures lines == [] ==> r == 0
    ensures |lines| == 1 ==> r == lines[0].quantity
  {
    if lines == [] then 0 else lines[0].quantity + Count(lines[1..])
  }

  /** The cart total: the sum of price times quantity over the lines, 0 for an empty cart. */
  function Total(lines: seq<CartLine>): (r: int)
    ensures lines == [] ==> r == 0
    ensures |lines| == 1 ==> r == lines[0].price * lines[0].quantity
  {
    if lines == [] then 0 else lines[0].price * lines[0].quantity + Total(lines[1..])
  }

  /**
    * Both folds agree with `reduce`, which adds the lines one by one from the
    * left to an accumulator starting at 0: the sum over a cart is the sum over
    * all but its last line plus the last line's term.
    */
  lemma {:induction false} FoldsLeftToRight(lines: seq<CartLine>)
    requires lines != []
    ensures Count(lines) == Count(lines[..|lines| - 1]) + lines[|lines| - 1].quantity
    ensures Total(lines) == Total(lines[..|lines| - 1]) + lines[|lines| - 1].price * lines[|lines| - 1].quantity
  {
    if |lines| > 1 {
      FoldsLeftToRight(lines[1..]);
      assert lines[1..][..|lines| - 2] == lines[..|lines| - 1][1..];
    }
  }

  /** `i` is the position of the first line for `id`, the one `cart.find` returns. */
  ghost predicate IsFirst(lines: seq<CartLine>, id: string, i: int)
  {
    0 <= i < |lines| && lines[i].id == id && forall k :: 0 <= k < i ==> lines[k].id != id
  }

  /** The position of the first line for `id`, if any line has it. */
  function FindLine(lines: seq<CartLine>, id: string): (r: Option<nat>)
    ensures r.Some? ==> IsFirst(lines, id, r.value)
    ensures r.None? <==> forall k :: 0 <= k < |lines| ==> lines[k].id != id
  {
    if lines == [] then None
    else if lines[0].id == id then Some(0)
    else match FindLine(lines[1..], id)
      case None => None
      case Some(i) => Some(i + 1)
  }

  /** The test `removeFromCart` filters the cart by. */
  function IsOtherThan(id: string): (r: CartLine -> bool)
    ensures forall l :: r(l) <==> l.id != id
  {
    (l: CartLine) => l.id != id
  }

  /**
    * The cart after `removeFromCart(id)`: every line for `id` is gone and the
    * other lines stay, in their order.
    */
  function Without(lines: seq<CartLine>, id: string): (r: seq<CartLine>)
    ensures forall k :: 0 <= k < |r| ==> r[k].id != id && r[k] in lines
    ensures forall k :: 0 <= k < |lines| && lines[k].id != id ==> lines[k] in r
    ensures forall l :: multiset(r)[l] == if l.id != id then multiset(lines)[l] else 0
  {
    Seqs.Filter(lines, IsOtherThan(id))
  }

  /** Which branch of `changeQuantity` was taken. */
  datatype Outcome =
    | NoSuchLine                // no line has the id: return without a trace
    | Removed(emptied: bool)    // new quantity not positive: removeFromCart, closeCart when emptied
    | StockLimit                // new quantity above the line's stock: the "not enough stock" alert
    | Updated                   // the first line for the id takes the new quantity

  datatype ChangeResult = ChangeResult(outcome: Outcome, lines: seq<CartLine>)

  /** What `changeQuantity(id, change)` does to the cart lines. */
  function QuantityChange(lines: seq<CartLine>, id: string, change: int): (r: ChangeResult)
    ensures r.outcome == NoSuchLine <==> forall k :: 0 <= k < |lines| ==> lines[k].id != id
    ensures r.outcome == NoSuchLine || r.outcome == StockLimit ==> r.lines == lines
    ensures r.outcome.Removed? ==> r.lines == Without(lines, id) && (r.outcome.emptied <==> r.lines == [])
    ensures FindLine(lines, id).Some? ==>
      var i := FindLine(lines, id).value;
      var q := lines[i].quantity + change;
      (q <= 0 <==> r.outcome.Removed?) &&
      (q > lines[i].maxStock && q > 0 <==> r.outcome == StockLimit) &&
      (r.outcome == Updated ==>
        |r.lines| == |lines| &&
        r.lines[i] == lines[i].(quantity := q) &&
        forall k :: 0 <= k < |lines| && k != i ==> r.lines[k] == lines[k])
  {
    match FindLine(lines, id)
    case None => ChangeResult(NoSuchLine, lines)
    case Some(i) =>
      var q := lines[i].quantity + change;
      if q <= 0 then
        var rest := Without(lines, id);
        ChangeResult(Removed(rest == []), rest)
      else if q > lines[i].maxStock then
        ChangeResult(StockLimit, lines)
      else
        ChangeResult(Updated, lines[i := lines[i].(quantity := q)])
  }

  /** A cart within stock has a badge count of at least one per line, so the count is 0 exactly when the cart is empty. */
  lemma {:induction false} CountAtLeastLines(lines: seq<CartLine>)
    requires WithinStock(lines)
    ensures Count(lines) >= |lines|
    ensures Count(lines) == 0 <==> lines == []
  {
    if lines != [] {
      CountAtLeastLines(lines[1..]);
    }
  }

  /** With non-negative prices, the total of a cart within stock is never negative. */
  lemma {:induction false} TotalNonNegative(lines: seq<CartLine>)
    requires WithinStock(lines)
    requires forall k :: 0 <= k < |lines| ==> lines[k].price >= 0
    ensures Total(lines) >= 0
  {
    if lines != [] {
      TotalNonNegative(lines[1..]);
    }
  }

  /** Setting one line's quantity moves the badge count by exactly the difference. */
  lemma {:induction false} CountAfterUpdate(lines: seq<CartLine>, i: nat, q: int)
    requires i < |lines|
    ensures Count(lines[i := lines[i].(quantity := q)]) == Count(lines) - lines[i].quantity + q
  {
    var updated := lines[i := lines[i].(quantity := q)];
    if i == 0 {
      assert updated[1..] == lines[1..];
    } else {
      assert updated[1..] == lines[1..][i - 1 := lines[i].(quantity := q)];
      CountAfterUpdate(lines[1..], i - 1, q);
    }
  }

  /** Removing lines never raises the badge count of a cart within stock, and lowers it when a line goes. */
  lemma {:induction false} CountAfterRemove(lines: seq<CartLine>, id: string)
    requires WithinStock(lines)
    ensures Count(Without(lines, id)) <= Count(lines)
    ensures Without(lines, id) != lines ==> Count(Without(lines, id)) < Count(lines)
  {
    if lines != [] {
      var rest := Without(lines[1..], id);
      assert WithinStock(lines[1..]);
      CountAfterRemove(lines[1..], id);
      assert Count(lines) == lines[0].quantity + Count(lines[1..]);
      if lines[0].id != id {
        assert IsOtherThan(id)(lines[0]);
        assert Without(lines, id) == [lines[0]] + rest;
        assert ([lines[0]] + rest)[1..] == rest;
        assert Count(Without(lines, id)) == lines[0].quantity + Count(rest);
      } else {
        assert !IsOtherThan(id)(lines[0]);
        assert Without(lines, id) == rest;
      }
    }
  }

  /** Removing an id no line has leaves the cart as it was. */
  lemma RemoveAbsent(lines: seq<CartLine>, id: string)
    requires forall k :: 0 <= k < |lines| ==> lines[k].id != id
    ensures Without(lines, id) == lines
  {
    Seqs.FilterKeepsAll(lines, IsOtherThan(id));
  }

  /** Removing the same id twice is removing it once. */
  lemma RemoveIdempotent(lines: seq<CartLine>, id: string)
    ensures Without(Without(lines, id), id) == Without(lines, id)
  {
    Seqs.FilterIdempotent(lines, IsOtherThan(id));
  }

  /** The lines a removal keeps stay in their original order. */
  lemma RemoveKeepsOrder(lines: seq<CartLine>, id: string)
    ensures Seqs.IsSubsequence(Without(lines, id), lines)
  {
    Seqs.FilterIsSubsequence(lines, IsOtherThan(id));
  }

  /** `changeQuantity` keeps every line between one unit and its stock. */
  lemma ChangeKeepsWithinStock(lines: seq<CartLine>, id: string, change: int)
    requires WithinStock(lines)
    ensures WithinStock(QuantityChange(lines, id, change).lines)
  {
    var r := QuantityChange(lines, id, change);
    if r.outcome.Removed? {
      forall k | 0 <= k < |r.lines|
        ensures 1 <= r.lines[k].quantity <= r.lines[k].maxStock
      {
        assert r.lines[k] in lines;
      }
    } else if r.outcome == Updated {
      var i := FindLine(lines, id).value;
      assert IsFirst(lines, id, i);
    }
  }

  /**
    * How `changeQuantity` moves the badge count of a cart within stock: by
    * `change` on an update, strictly down on a removal, not at all otherwise.
    */
  lemma ChangeMovesCount(lines: seq<CartLine>, id: string, change: int)
    requires WithinStock(lines)
    ensures var r := QuantityChange(lines, id, change);
      (r.outcome == Updated ==> Count(r.lines) == Count(lines) + change) &&
      (r.outcome.Removed? ==> Count(r.lines) < Count(lines)) &&
      (r.outcome == NoSuchLine || r.outcome == StockLimit ==> Count(r.lines) == Count(lines))
  {
    var r := QuantityChange(lines, id, change);
    match FindLine(lines, id)
    case None =>
      assert r == ChangeResult(NoSuchLine, lines);
    case Some(i) =>
      var q := lines[i].quantity + change;
      if q <= 0 {
        var rest := Without(lines, id);
        assert r == ChangeResult(Removed(rest == []), rest);
        CountAfterRemove(lines, id);
        assert lines[i] !in rest;
      } else if q > lines[i].maxStock {
        assert r == ChangeResult(StockLimit, lines);
      } else {
        assert r == ChangeResult(Updated, lines[i := lines[i].(quantity := q)]);
        CountAfterUpdate(lines, i, q);
      }
  }
}
