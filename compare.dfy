/**
 * The two circuits are not interchangeable: the canister's fixture satisfies
 * the sum circuit and not the product circuit, and the two circuits fix
 * different constraint systems, so keys generated for one do not fit the other.
 */
module CircuitComparison {
  import opened R1cs
  import opened Field
  import ProductCircuit
  import SumCircuit

  lemma FixtureSeparatesCircuits()
    ensures var empty := Fresh(BN254_R, Prove);
      var sum := SumCircuit.Synthesize(SumCircuit.FixtureAssignment(), empty).state;
      var product := ProductCircuit.Synthesize(ProductCircuit.Circuit(Some(4), Some(2), Some(6)), empty).state;
      FullyAssigned(sum) && FullyAssigned(product) &&
      Satisfied(sum) && !Satisfied(product) &&
      TopologyOf(sum) != TopologyOf(product)
  {
    var empty := Fresh(BN254_R, Prove);
    assert Satisfied(empty);
    var f := SumCircuit.FixtureAssignment();
    SumCircuit.SatisfiedIffSum(f, empty);
    SumCircuit.FixtureHoldsForSumOnly();
    ProductCircuit.SatisfiedIffProduct(ProductCircuit.Circuit(Some(4), Some(2), Some(6)), empty);
    assert SumCircuit.SumConstraint(0, 1) != ProductCircuit.ProductConstraint(0, 1);
  }
}
