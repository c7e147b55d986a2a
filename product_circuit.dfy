/**
 * The browser prover's circuit over BN254's `Fr`: private `a`, `b` and public
 * `c` with the single constraint `a * b = c`, and the assignment and public
 * input that `create_proof(a, b)` derives from two `u32` arguments.
 */
module ProductCircuit {
  import opened R1cs
  import opened Field

  /** `Circuit { a, b, c }`: each slot holds an element of `Fr` or nothing. */
  datatype Circuit = Circuit(a: Option<nat>, b: Option<nat>, c: Option<nat>)
  {
    predicate Complete() { a.Some? && b.Some? && c.Some? }
  }

  /** `a * b = c`, with `a`, `b` the witnesses at `w`, `w + 1` and `c` the input at `i`. */
  function ProductConstraint(w: nat, i: nat): Constraint
  {
    Constraint([Term(1, Witness(w))], [Term(1, Witness(w + 1))], [Term(1, Instance(i))])
  }

  /**
   * `generate_constraints` as a function of the constraint system's state:
   * allocate witness `a`, witness `b`, input `c`, stopping at the first
   * missing value that is demanded, then enforce `a * b = c`.
   */
  function Synthesize(circuit: Circuit, s: CsState): (r: Step<()>)
    requires Valid(s) && s.modulus == BN254_R
    ensures Valid(r.state) && r.state.modulus == s.modulus && r.state.mode == s.mode
    ensures r.result.Ok? <==> s.mode == Setup || circuit.Complete()
    ensures r.result.Err? ==> r.result.error == AssignmentMissing && r.state.constraints == s.constraints
    ensures r.result.Err? ==>
      r.state.numWitness == s.numWitness + (if circuit.a.Some? then 2 else 1) &&
      r.state.numInstance == s.numInstance + (if circuit.a.Some? && circuit.b.Some? then 1 else 0)
    ensures r.result.Ok? ==>
      r.state.numWitness == s.numWitness + 2 && r.state.numInstance == s.numInstance + 1 &&
      r.state.constraints == s.constraints + [ProductConstraint(s.numWitness, s.numInstance)]
    ensures r.result.Ok? && s.mode == Prove ==>
      r.state.witnessAssignment == s.witnessAssignment + [circuit.a.value, circuit.b.value] &&
      r.state.instanceAssignment == s.instanceAssignment + [circuit.c.value]
    ensures s.mode == Setup ==> r.state.witnessAssignment == s.witnessAssignment && r.state.instanceAssignment == s.instanceAssignment
  {
    var Step(a, s1) := AllocWitness(s, OkOr(circuit.a));
    if a.Err? then Step(Err(a.error), s1) else
    var Step(b, s2) := AllocWitness(s1, OkOr(circuit.b));
    if b.Err? then Step(Err(b.error), s2) else
    var Step(c, s3) := AllocInput(s2, OkOr(circuit.c));
    if c.Err? then Step(Err(c.error), s3) else
    Enforce(s3, [Term(1, a.value)], [Term(1, b.value)], [Term(1, c.value)])
  }

  /** `generate_constraints`, run against the shared constraint-system handle. */
  method GenerateConstraints(circuit: Circuit, cs: ConstraintSystem) returns (r: Result<()>)
    requires Valid(cs.State()) && cs.modulus == BN254_R
    modifies cs
    ensures Step(r, cs.State()) == Synthesize(circuit, old(cs.State()))
  {
    var a :- cs.NewWitnessVariable(OkOr(circuit.a));
    var b :- cs.NewWitnessVariable(OkOr(circuit.b));
    var c :- cs.NewInputVariable(OkOr(circuit.c));
    r := cs.EnforceConstraint([Term(1, a)], [Term(1, b)], [Term(1, c)]);
  }

  /**
   * On a fully assigned system, a complete circuit keeps the system fully
   * assigned, and the system is satisfied afterwards exactly when it was
   * before and `a * b = c` holds in `Fr`.
   */
  lemma SatisfiedIffProduct(circuit: Circuit, s: CsState)
    requires FullyAssigned(s) && s.modulus == BN254_R && circuit.Complete()
    ensures FullyAssigned(Synthesize(circuit, s).state)
    ensures Satisfied(Synthesize(circuit, s).state) <==>
      Satisfied(s) && (circuit.a.value * circuit.b.value) % BN254_R == circuit.c.value % BN254_R
  {
    var s' := Synthesize(circuit, s).state;
    var k := ProductConstraint(s.numWitness, s.numInstance);
    ProductConstraintInScope(s.numWitness, s.numInstance, s');
    SatisfiedAfterAppend(s, s', k);
    ProductConstraintValues(k, s', s.numWitness, s.numInstance, circuit.a.value, circuit.b.value, circuit.c.value);
  }

  lemma ProductConstraintInScope(w: nat, i: nat, s: CsState)
    requires w + 1 < s.numWitness && i < s.numInstance
    ensures ConstraintInScope(ProductConstraint(w, i), s)
  {
  }

  /** The two sides of `a * b = c` evaluate to `a`, `b` and `c`. */
  lemma ProductConstraintValues(k: Constraint, s: CsState, w: nat, i: nat, a: nat, b: nat, c: nat)
    requires FullyAssigned(s) && k == ProductConstraint(w, i) && ConstraintInScope(k, s)
    requires s.witnessAssignment[w] == a && s.witnessAssignment[w + 1] == b && s.instanceAssignment[i] == c
    ensures Holds(k, s) <==> (a * b) % s.modulus == c % s.modulus
  {
    assert Eval(k.a, s) == a;
    assert Eval(k.b, s) == b;
    assert Eval(k.c, s) == c;
  }

  /**
   * Key generation and proving see the same variables in the same order:
   * two successful syntheses from systems of equal topology, whatever their
   * modes and slot values, end in systems of equal topology.
   */
  lemma SameTopology(c1: Circuit, s1: CsState, c2: Circuit, s2: CsState)
    requires Valid(s1) && Valid(s2) && s1.modulus == BN254_R && s2.modulus == BN254_R
    requires TopologyOf(s1) == TopologyOf(s2)
    requires Synthesize(c1, s1).result.Ok? && Synthesize(c2, s2).result.Ok?
    ensures TopologyOf(Synthesize(c1, s1).state) == TopologyOf(Synthesize(c2, s2).state)
  {
  }

  /** The circuit `create_proof` hands to key generation: every slot empty. */
  function SetupCircuit(): (circuit: Circuit)
    ensures Synthesize(circuit, Fresh(BN254_R, Setup)).result.Ok?
    ensures var r := Synthesize(circuit, Fresh(BN254_R, Prove));
      r.result == Err(AssignmentMissing) && r.state.numWitness == 1 && r.state.constraints == []
  {
    Circuit(None, None, None)
  }

  /**
   * The proving assignment `create_proof(a, b)` builds, as written: `c` is
   * `Fr::from(a * b)` with the product taken in `u32`, which wraps.
   */
  function ProvingAssignment(a: U32, b: U32): (circuit: Circuit)
    ensures circuit.Complete()
    ensures circuit.a.value == a && circuit.b.value == b
    ensures circuit.c.value == a * b <==> a * b < U32_MODULUS
  {
    Circuit(Some(FrFrom(a)), Some(FrFrom(b)), Some(FrFrom(WrappingMul(a, b))))
  }

  /**
   * The assignment with the product taken in `Fr` instead:
   * `Fr::from(a) * Fr::from(b)`.
   */
  function FieldAssignment(a: U32, b: U32): (circuit: Circuit)
    ensures circuit.Complete()
    ensures circuit.a.value == a && circuit.b.value == b
    ensures circuit.c.value == a * b
  {
    U32ProductBelowR(a, b);
    Circuit(Some(FrFrom(a)), Some(FrFrom(b)), Some((FrFrom(a) * FrFrom(b)) % BN254_R))
  }

  /** The proving assignment satisfies `a * b = c` in `Fr` exactly when `a * b` fits in a `u32`. */
  lemma ProvingAssignmentHoldsIffNoOverflow(a: U32, b: U32)
    ensures var circuit := ProvingAssignment(a, b);
      (circuit.a.value * circuit.b.value) % BN254_R == circuit.c.value % BN254_R <==> a * b < U32_MODULUS
  {
    U32ProductBelowR(a, b);
    var c := WrappingMul(a, b);
    assert (a * b) % BN254_R == a * b;
    assert c % BN254_R == c;
  }

  /** 65536 * 65536 wraps to 0 in `u32`, so the assignment claims 65536 * 65536 = 0. */
  lemma OverflowCounterexample()
    ensures ProvingAssignment(65536, 65536).c == Some(0)
    ensures (65536 * 65536) % BN254_R != 0
  {
  }

  /** With the product taken in `Fr`, every pair of `u32` gives a witness that satisfies the circuit. */
  lemma FieldAssignmentSatisfiesCircuit(a: U32, b: U32)
    ensures var s := Synthesize(FieldAssignment(a, b), Fresh(BN254_R, Prove)).state;
      FullyAssigned(s) && Satisfied(s)
  {
    var empty := Fresh(BN254_R, Prove);
    assert Satisfied(empty);
    U32ProductBelowR(a, b);
    SatisfiedIffProduct(FieldAssignment(a, b), empty);
  }

  /**
   * `create_proof(a, b)` up to the calls into Groth16: synthesize the empty
   * circuit in setup mode, build the assignment and its public input, and
   * synthesize the assignment in proving mode. The circuit synthesis that
   * key generation and proving run never fails, and `c` is `Some`, so the
   * `ok_or_else` never takes its error branch.
   */
  method CreateProof(a: U32, b: U32) returns (r: ProverInput)
    ensures r.keyTopology == r.proofTopology
    ensures r.keyTopology.numInstance == 2 && r.keyTopology.numWitness == 2
    ensures r.keyTopology.constraints == [ProductConstraint(0, 1)]
    ensures |r.publicInputs| == r.proofTopology.numInstance - 1
    ensures r.publicInputs == [ProvingAssignment(a, b).c.value]
    ensures r.satisfied <==> a * b < U32_MODULUS
  {
    var setupCs := new ConstraintSystem(BN254_R, Setup);
    var setup := GenerateConstraints(SetupCircuit(), setupCs);
    assert setup.Ok?;

    var assignment := ProvingAssignment(a, b);
    var publicInput := OkOr(assignment.c);
    assert publicInput.Ok?;
    var publicInputs := [publicInput.value];

    var proveCs := new ConstraintSystem(BN254_R, Prove);
    var proved := GenerateConstraints(assignment, proveCs);
    assert proved.Ok?;

    ghost var empty := Fresh(BN254_R, Prove);
    assert Satisfied(empty);
    SatisfiedIffProduct(assignment, empty);
    ProvingAssignmentHoldsIffNoOverflow(a, b);
    assert publicInputs == proveCs.instanceAssignment[1..];
    r := ProverInput(TopologyOf(setupCs.State()), TopologyOf(proveCs.State()), publicInputs, Satisfied(proveCs.State()));
  }
}
