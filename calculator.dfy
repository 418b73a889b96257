/**
 The pricing engine of the set-menu calculator: a fixed menu of seven items,
 a per-line "double" discount for some of them, and a member-card discount on
 the whole bill.

 Prices and quantities are exact reals, so the rounding of the engine's
 floating-point arithmetic is not modelled. An order maps item names to quantities; the
 engine's for-in walk over it becomes a loop that picks any remaining key, so
 every iteration order is covered.
 */
module Calculator {

  /** The menu: item name to unit price. */
  const Menu: map<string, real> := map[
    "Red" := 50.0,
    "Green" := 40.0,
    "Blue" := 30.0,
    "Yellow" := 50.0,
    "Pink" := 80.0,
    "Purple" := 90.0,
    "Orange" := 120.0
  ]

  /** Items whose line is discounted when at least two are ordered. */
  const DoubleDiscountItems: set<string> := {"Orange", "Pink", "Green"}

  const DoubleDiscountMultiplier: real := 0.95
  const MemberCardMultiplier: real := 0.9

  /** An order: item name to requested quantity, as supplied by the caller. */
  type Order = map<string, real>

  /** The warning the engine emits for a line it skips. */
  datatype Diagnostic =
    | InvalidAmount(name: string, count: real)
    | InvalidItem(name: string)

  /** What the engine does with one line of an order. */
  datatype LineOutcome =
    | Skipped(diagnostic: Diagnostic)
    | Charged(amount: real)

  /** A line gets the 5% discount when its item is eligible and at least two are ordered. */
  predicate IsDoubleDiscountEligible(itemName: string, itemCount: real)
  {
    itemName in DoubleDiscountItems && itemCount >= 2.0
  }

  /** The branch the engine takes for one line, and the amount it adds when it charges. */
  function ClassifyLine(itemName: string, itemCount: real): (r: LineOutcome)
    ensures r.Charged? <==> itemCount > 0.0 && itemName in Menu
    ensures r.Skipped? ==> r.diagnostic.name == itemName
    ensures r.Charged? ==> 0.0 <= r.amount <= Menu[itemName] * itemCount
  {
    if itemCount <= 0.0 then
      Skipped(InvalidAmount(itemName, itemCount))
    else if itemName in Menu then
      var price := Menu[itemName];
      assert price >= 0.0 && price * itemCount >= 0.0;
      if IsDoubleDiscountEligible(itemName, itemCount) then
        Charged(price * itemCount * DoubleDiscountMultiplier)
      else
        Charged(price * itemCount)
    else
      Skipped(InvalidItem(itemName))
  }

  /** What one line adds to the running total (zero for a skipped line). */
  function LineContribution(itemName: string, itemCount: real): (r: real)
  {
    match ClassifyLine(itemName, itemCount)
    case Charged(amount) => amount
    case Skipped(_) => 0.0
  }

  // ---------------------------------------------------------------------------
  // Per-line rules

  /** A non-positive quantity skips the line, even for an item on the menu. */
  lemma NonPositiveQuantityIgnored(itemName: string, itemCount: real)
    requires itemCount <= 0.0
    ensures ClassifyLine(itemName, itemCount) == Skipped(InvalidAmount(itemName, itemCount))
    ensures LineContribution(itemName, itemCount) == 0.0
  {
  }

  /** A name that is not exactly a menu key skips the line. */
  lemma UnknownItemIgnored(itemName: string, itemCount: real)
    requires itemCount > 0.0 && itemName !in Menu
    ensures ClassifyLine(itemName, itemCount) == Skipped(InvalidItem(itemName))
    ensures LineContribution(itemName, itemCount) == 0.0
  {
  }

  /** Menu keys are matched exactly: a lower-case or upper-case spelling is not on the menu. */
  lemma MenuIsCaseSensitive()
    ensures "red" !in Menu && "BLUE" !in Menu && "YeLLoW" !in Menu
    ensures "NonExistentItem" !in Menu
  {
  }

  /** A valid line costs price times quantity, 5% less when the line is eligible. */
  lemma ValidLinePrice(itemName: string, itemCount: real)
    requires itemCount > 0.0 && itemName in Menu
    ensures IsDoubleDiscountEligible(itemName, itemCount) ==>
              LineContribution(itemName, itemCount) == Menu[itemName] * itemCount * 0.95
    ensures !IsDoubleDiscountEligible(itemName, itemCount) ==>
              LineContribution(itemName, itemCount) == Menu[itemName] * itemCount
  {
  }

  /** Eligibility holds exactly for Orange, Pink and Green with at least two ordered; all three are on the menu. */
  lemma EligibilityCharacterized(itemName: string, itemCount: real)
    ensures IsDoubleDiscountEligible(itemName, itemCount) <==>
              (itemName == "Orange" || itemName == "Pink" || itemName == "Green") && itemCount >= 2.0
    ensures IsDoubleDiscountEligible(itemName, itemCount) ==> itemName in Menu && itemCount > 0.0
  {
  }

  /** A single Green is not discounted: eligibility looks at one line's own quantity. */
  lemma SingleEligibleItemNotDiscounted()
    ensures !IsDoubleDiscountEligible("Green", 1.0)
    ensures LineContribution("Green", 1.0) == 40.0
  {
  }

  /** No line ever lowers the total. */
  lemma LineContributionNonNegative(itemName: string, itemCount: real)
    ensures LineContribution(itemName, itemCount) >= 0.0
  {
  }

  // ---------------------------------------------------------------------------
  // The total as a sum of independent per-line contributions

  /** The sum of the contributions of the named lines, taken in an unspecified order. */
  ghost function SumLines(order: Order, names: set<string>): (r: real)
    requires names <= order.Keys
    decreases names
  {
    if names == {} then 0.0
    else
      var n :| n in names;
      LineContribution(n, order[n]) + SumLines(order, names - {n})
  }

  /** The sum of all lines of an order. */
  ghost function OrderSum(order: Order): (r: real)
  {
    SumLines(order, order.Keys)
  }

  /** The price the engine promises: the sum of all lines, then 10% off once for a member. */
  ghost function Total(order: Order, hasMemberCard: bool): (r: real)
  {
    if hasMemberCard then OrderSum(order) * MemberCardMultiplier else OrderSum(order)
  }

  /** Any line may be taken first: the sum does not depend on the order of the walk. */
  lemma {:induction false} SumLinesPick(order: Order, names: set<string>, x: string)
    requires names <= order.Keys && x in names
    ensures SumLines(order, names) == LineContribution(x, order[x]) + SumLines(order, names - {x})
    decreases names
  {
    var y :| y in names && SumLines(order, names) == LineContribution(y, order[y]) + SumLines(order, names - {y});
    if y != x {
      SumLinesPick(order, names - {y}, x);
      SumLinesPick(order, names - {x}, y);
      assert names - {y} - {x} == names - {x} - {y};
    }
  }

  /** The sum over two disjoint groups of lines is the sum of the two sums. */
  lemma {:induction false} SumLinesUnion(order: Order, a: set<string>, b: set<string>)
    requires a <= order.Keys && b <= order.Keys && a !! b
    ensures SumLines(order, a + b) == SumLines(order, a) + SumLines(order, b)
    decreases a
  {
    if a != {} {
      var x :| x in a;
      SumLinesPick(order, a + b, x);
      SumLinesPick(order, a, x);
      assert (a + b) - {x} == (a - {x}) + b;
      SumLinesUnion(order, a - {x}, b);
    } else {
      assert a + b == b;
    }
  }

  /** A sum of lines is never negative. */
  lemma {:induction false} SumLinesNonNegative(order: Order, names: set<string>)
    requires names <= order.Keys
    ensures SumLines(order, names) >= 0.0
    decreases names
  {
    if names != {} {
      var n :| n in names && SumLines(order, names) == LineContribution(n, order[n]) + SumLines(order, names - {n});
      LineContributionNonNegative(n, order[n]);
      SumLinesNonNegative(order, names - {n});
    }
  }

  /** The price is never negative, with or without a member card. */
  lemma TotalNonNegative(order: Order, hasMemberCard: bool)
    ensures Total(order, hasMemberCard) >= 0.0
  {
    SumLinesNonNegative(order, order.Keys);
  }

  /** An empty order costs nothing, with or without a member card. */
  lemma EmptyOrderIsFree(hasMemberCard: bool)
    ensures Total(map[], hasMemberCard) == 0.0
  {
  }

  /** The member price is exactly 90% of the non-member price of the same order. */
  lemma MemberPriceIsNinetyPercent(order: Order)
    ensures Total(order, true) == 0.9 * Total(order, false)
  {
  }

  /** Adding a new line to an order adds exactly that line's contribution. */
  lemma AddLine(order: Order, itemName: string, itemCount: real)
    requires itemName !in order
    ensures OrderSum(order[itemName := itemCount]) == OrderSum(order) + LineContribution(itemName, itemCount)
  {
    var bigger := order[itemName := itemCount];
    SumLinesPick(bigger, bigger.Keys, itemName);
    assert bigger.Keys - {itemName} == order.Keys;
    SumLinesSameLines(order, bigger, order.Keys);
  }

  /** A skipped line (bad quantity or unknown item) leaves the price unchanged. */
  lemma SkippedLineChangesNothing(order: Order, itemName: string, itemCount: real, hasMemberCard: bool)
    requires itemName !in order
    requires itemCount <= 0.0 || itemName !in Menu
    ensures Total(order[itemName := itemCount], hasMemberCard) == Total(order, hasMemberCard)
  {
    AddLine(order, itemName, itemCount);
  }

  /** The sum over a group of lines depends only on the quantities of those lines. */
  lemma {:induction false} SumLinesSameLines(o1: Order, o2: Order, names: set<string>)
    requires names <= o1.Keys && names <= o2.Keys
    requires forall n :: n in names ==> o1[n] == o2[n]
    ensures SumLines(o1, names) == SumLines(o2, names)
    decreases names
  {
    if names != {} {
      var n :| n in names && SumLines(o1, names) == LineContribution(n, o1[n]) + SumLines(o1, names - {n});
      SumLinesPick(o2, names, n);
      SumLinesSameLines(o1, o2, names - {n});
    }
  }

  // ---------------------------------------------------------------------------
  // Iteration order

  /** The running total after walking the given keys in the given order. */
  function SumInOrder(order: Order, keys: seq<string>): (r: real)
    requires forall i :: 0 <= i < |keys| ==> keys[i] in order
  {
    if keys == [] then 0.0
    else LineContribution(keys[0], order[keys[0]]) + SumInOrder(order, keys[1..])
  }

  /** The keys listed in a walk. */
  function KeySet(keys: seq<string>): (r: set<string>)
  {
    set k | k in keys
  }

  predicate Distinct(keys: seq<string>)
  {
    forall i, j :: 0 <= i < j < |keys| ==> keys[i] != keys[j]
  }

  /** Walking distinct keys in any order adds up to the sum over the set of those keys. */
  lemma {:induction false} SumInOrderIsSumLines(order: Order, keys: seq<string>)
    requires forall i :: 0 <= i < |keys| ==> keys[i] in order
    requires Distinct(keys)
    ensures KeySet(keys) <= order.Keys
    ensures SumInOrder(order, keys) == SumLines(order, KeySet(keys))
    decreases keys
  {
    if keys != [] {
      var rest := KeySet(keys[1..]);
      assert KeySet(keys) - {keys[0]} == rest;
      SumLinesPick(order, KeySet(keys), keys[0]);
      SumInOrderIsSumLines(order, keys[1..]);
    }
  }

  /** Any enumeration of an order's keys gives the same price. */
  lemma IterationOrderIrrelevant(order: Order, keys: seq<string>, hasMemberCard: bool)
    requires Distinct(keys) && KeySet(keys) == order.Keys
    ensures forall i :: 0 <= i < |keys| ==> keys[i] in order
    ensures Total(order, hasMemberCard) ==
              (if hasMemberCard then SumInOrder(order, keys) * 0.9 else SumInOrder(order, keys))
  {
    assert forall i :: 0 <= i < |keys| ==> keys[i] in KeySet(keys);
    SumInOrderIsSumLines(order, keys);
  }

  // ---------------------------------------------------------------------------
  // The engine

  /**
   The price of an order. Walks the order's lines in an unspecified order,
   skipping (with a warning) a line whose quantity is not positive or whose
   name is not on the menu, adding every other line's price, 5% less when the
   line is eligible; then takes 10% off once for a member. The caller's order
   is a value and is not changed.
   */
  method CalculatePrice(order: Order, hasMemberCard: bool) returns (totalPrice: real, warnings: seq<Diagnostic>)
    ensures totalPrice == Total(order, hasMemberCard)
    ensures totalPrice >= 0.0
    ensures forall d :: d in warnings ==>
              d.name in order && ClassifyLine(d.name, order[d.name]) == Skipped(d)
    ensures forall n :: n in order && ClassifyLine(n, order[n]).Skipped? ==>
              ClassifyLine(n, order[n]).diagnostic in warnings
    ensures forall i, j :: 0 <= i < j < |warnings| ==> warnings[i].name != warnings[j].name
  {
    totalPrice := 0.0;
    warnings := [];
    var remaining := order.Keys;
    while remaining != {}
      invariant remaining <= order.Keys
      invariant totalPrice == SumLines(order, order.Keys - remaining)
      invariant forall d :: d in warnings ==>
                  d.name in order && d.name !in remaining && ClassifyLine(d.name, order[d.name]) == Skipped(d)
      invariant forall n :: n in order && n !in remaining && ClassifyLine(n, order[n]).Skipped? ==>
                  ClassifyLine(n, order[n]).diagnostic in warnings
      invariant forall i, j :: 0 <= i < j < |warnings| ==> warnings[i].name != warnings[j].name
      decreases remaining
    {
      var itemName :| itemName in remaining;
      var itemCount := order[itemName];
      ghost var done := order.Keys - remaining;
      ghost var priceBefore := totalPrice;
      if itemCount <= 0.0 {
        warnings := warnings + [InvalidAmount(itemName, itemCount)];
        assert ClassifyLine(itemName, itemCount) == Skipped(InvalidAmount(itemName, itemCount));
      } else if itemName in Menu {
        var menuPrice := Menu[itemName];
        if IsDoubleDiscountEligible(itemName, itemCount) {
          totalPrice := totalPrice + menuPrice * itemCount * DoubleDiscountMultiplier;
        } else {
          totalPrice := totalPrice + menuPrice * itemCount;
        }
        assert ClassifyLine(itemName, itemCount) == Charged(totalPrice - priceBefore);
      } else {
        warnings := warnings + [InvalidItem(itemName)];
        assert ClassifyLine(itemName, itemCount) == Skipped(InvalidItem(itemName));
      }
      assert totalPrice == priceBefore + LineContribution(itemName, itemCount);
      SumLinesPick(order, done + {itemName}, itemName);
      assert (done + {itemName}) - {itemName} == done;
      remaining := remaining - {itemName};
      assert order.Keys - remaining == done + {itemName};
    }
    assert order.Keys - remaining == order.Keys;
    TotalNonNegative(order, hasMemberCard);
    if hasMemberCard {
      totalPrice := totalPrice * MemberCardMultiplier;
    }
  }
}
