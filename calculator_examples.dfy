/**
 Concrete orders and the prices the engine gives for them, each derived from
 the general model by walking the order's lines in one particular order.
 */
module CalculatorExamples {
  import opened Calculator

  lemma OneRedOneGreen()
    ensures Total(map["Red" := 1.0, "Green" := 1.0], false) == 90.0
  {
    IterationOrderIrrelevant(map["Red" := 1.0, "Green" := 1.0], ["Red", "Green"], false);
  }

  lemma MemberCardOnWholeOrder()
    ensures Total(map["Red" := 2.0, "Green" := 1.0], true) == 126.0
  {
    IterationOrderIrrelevant(map["Red" := 2.0, "Green" := 1.0], ["Red", "Green"], true);
  }

  lemma ThreeOranges()
    ensures Total(map["Orange" := 3.0], false) == 342.0
  {
    IterationOrderIrrelevant(map["Orange" := 3.0], ["Orange"], false);
  }

  lemma AllEligibleLinesDiscounted()
    ensures Total(map["Orange" := 2.0, "Pink" := 3.0, "Green" := 4.0], false) == 608.0
  {
    IterationOrderIrrelevant(map["Orange" := 2.0, "Pink" := 3.0, "Green" := 4.0], ["Orange", "Pink", "Green"], false);
  }

  lemma LineAndMemberDiscountsCompound()
    ensures Total(map["Orange" := 2.0, "Pink" := 3.0, "Green" := 4.0], true) == 547.2
  {
    IterationOrderIrrelevant(map["Orange" := 2.0, "Pink" := 3.0, "Green" := 4.0], ["Orange", "Pink", "Green"], true);
  }

  lemma MixedOrderWithMemberCard()
    ensures Total(map["Red" := 1.0, "Green" := 2.0, "Yellow" := 3.0, "Pink" := 2.0], true) == 385.2
  {
    IterationOrderIrrelevant(map["Red" := 1.0, "Green" := 2.0, "Yellow" := 3.0, "Pink" := 2.0],
                             ["Red", "Green", "Yellow", "Pink"], true);
  }

  lemma MixedOrderWithoutMemberCard()
    ensures Total(map["Red" := 2.0, "Green" := 1.0, "Blue" := 3.0, "Pink" := 3.0], false) == 458.0
  {
    IterationOrderIrrelevant(map["Red" := 2.0, "Green" := 1.0, "Blue" := 3.0, "Pink" := 3.0],
                             ["Red", "Green", "Blue", "Pink"], false);
  }

  lemma ZeroQuantitiesIgnored()
    ensures Total(map["Red" := 2.0, "Green" := 0.0, "Yellow" := 0.0], false) == 100.0
  {
    IterationOrderIrrelevant(map["Red" := 2.0, "Green" := 0.0, "Yellow" := 0.0], ["Red", "Green", "Yellow"], false);
  }

  lemma NegativeQuantityIgnored()
    ensures Total(map["Red" := 1.0, "Green" := -2.0, "Yellow" := 3.0], false) == 200.0
  {
    IterationOrderIrrelevant(map["Red" := 1.0, "Green" := -2.0, "Yellow" := 3.0], ["Red", "Green", "Yellow"], false);
  }

  lemma LargeQuantities()
    ensures Total(map["Red" := 100.0, "Purple" := 50.0, "Yellow" := 75.0], false) == 13250.0
  {
    IterationOrderIrrelevant(map["Red" := 100.0, "Purple" := 50.0, "Yellow" := 75.0], ["Red", "Purple", "Yellow"], false);
  }

  lemma WrongCaseNamesIgnored()
    ensures Total(map["red" := 2.0, "BLUE" := 3.0, "YeLLoW" := 1.0], false) == 0.0
  {
    MenuIsCaseSensitive();
    IterationOrderIrrelevant(map["red" := 2.0, "BLUE" := 3.0, "YeLLoW" := 1.0], ["red", "BLUE", "YeLLoW"], false);
  }

  lemma ItemNotOnMenuIgnored()
    ensures Total(map["Red" := 1.0, "NonExistentItem" := 2.0], false) == 50.0
  {
    MenuIsCaseSensitive();
    IterationOrderIrrelevant(map["Red" := 1.0, "NonExistentItem" := 2.0], ["Red", "NonExistentItem"], false);
  }
}
