/**
 * The canister's circuit, generic over the scalar field: private `a`, `b` and
 * public `c` with the single constraint `(a + b) * 1 = c`, and the fixture
 * assignment and public input of the `groth16` query.
 */
module SumCircuit {
  import opened R1cs
  import opened Field

  /** `Circuit<F> { a, b, c }`: each slot holds an element of `F` or nothing. */
  datatype Circuit = Circuit(a: Option<nat>, b: Option<nat>, c: Option<nat>)
  {
    predicate Complete() { a.Some? && b.Some? && c.Some? }
  }

  /** `(a + b) * One = c`, with `a`, `b` the witnesses at `w`, `w + 1` and `c` the input at `i`. */
  function SumConstraint(w: nat, i: nat): Constraint
  {
    Constraint([Term(1, Witness(w)), Term(1, Witness(w + 1))], [Term(1, One)], [Term(1, Instance(i))])
  }

  /**
   * `generate_constraints` as a function of the constraint system's state,
   * over any field: allocate witness `a`, witness `b`, input `c`, stopping at
   * the first missing value that is demanded, then enforce `(a + b) * 1 = c`.
   */
  function Synthesize(circuit: Circuit, s: CsState): (r: Step<()>)
    requires Valid(s)
    ensures Valid(r.state) && r.state.modulus == s.modulus && r.state.mode == s.mode
    ensures r.result.Ok? <==> s.mode == Setup || circuit.Complete()
    ensures r.result.Err? ==> r.result.error == AssignmentMissing && r.state.constraints == s.constraints
    ensures r.result.Err? ==>
      r.state.numWitness == s.numWitness + (if circuit.a.Some? then 2 else 1) &&
      r.state.numInstance == s.numInstance + (if circuit.a.Some? && circuit.b.Some? then 1 else 0)
    ensures r.result.Ok? ==>
      r.state.numWitness == s.numWitness + 2 && r.state.numInstance == s.numInstance + 1 &&
      r.state.constraints == s.constraints + [SumConstraint(s.numWitness, s.numInstance)]
    ensures r.result.Ok? && s.mode == Prove ==>
      r.state.witnessAssignment == s.witnessAssignment + [circuit.a.value, circuit.b.value] &&
      r.state.instanceAssignment == s.instanceAssignment + [circuit.c.value]
    ensures s.mode == Setup ==> r.state.witnessAssignment == s.witnessAssignment && r.state.instanceAssignment == s.instanceAssignment
  {
    var Step(a, s1) := AllocWitness(s, OkOr(circuit.a));
    if a.Err? then Step(Err(a.error), s1) else
    var Step(b, s2) := AllocWitness(s1, OkOr(circuit.b));
    if b.Err? then Step(Err(b.error), s2) else
    var Step(c, s3) := AllocInput(s2, OkOr(circuit.c));
    if c.Err? then Step(Err(c.error), s3) else
    Enforce(s3, [Term(1, a.value), Term(1, b.value)], [Term(1, One)], [Term(1, c.value)])
  }

  /** `generate_constraints`, run against the shared constraint-system handle. */
  method GenerateConstraints(circuit: Circuit, cs: ConstraintSystem) returns (r: Result<()>)
    requires Valid(cs.State())
    modifies cs
    ensures Step(r, cs.State()) == Synthesize(circuit, old(cs.State()))
  {
    var a :- cs.NewWitnessVariable(OkOr(circuit.a));
    var b :- cs.NewWitnessVariable(OkOr(circuit.b));
    var c :- cs.NewInputVariable(OkOr(circuit.c));
    r := cs.EnforceConstraint([Term(1, a), Term(1, b)], [Term(1, One)], [Term(1, c)]);
  }

  /**
   * On a fully assigned system, a complete circuit keeps the system fully
   * assigned, and the system is satisfied afterwards exactly when it was
   * before and `a + b = c` holds in the field.
   */
  lemma SatisfiedIffSum(circuit: Circuit, s: CsState)
    requires FullyAssigned(s) && circuit.Complete()
    ensures FullyAssigned(Synthesize(circuit, s).state)
    ensures Satisfied(Synthesize(circuit, s).state) <==>
      Satisfied(s) && (circuit.a.value + circuit.b.value) % s.modulus == circuit.c.value % s.modulus
  {
    var s' := Synthesize(circuit, s).state;
    var k := SumConstraint(s.numWitness, s.numInstance);
    var a, b, c := circuit.a.value, circuit.b.value, circuit.c.value;
    SumConstraintInScope(s.numWitness, s.numInstance, s');
    SatisfiedAfterAppend(s, s', k);
    SumConstraintValues(k, s', s.numWitness, s.numInstance, a, b, c);
    assert (a + b) * 1 == a + b;
  }

  lemma SumConstraintInScope(w: nat, i: nat, s: CsState)
    requires w + 1 < s.numWitness && i < s.numInstance
    ensures ConstraintInScope(SumConstraint(w, i), s)
  {
  }

  /** The two sides of `(a + b) * One = c` evaluate to `a + b`, 1 and `c`. */
  lemma SumConstraintValues(k: Constraint, s: CsState, w: nat, i: nat, a: nat, b: nat, c: nat)
    requires FullyAssigned(s) && k == SumConstraint(w, i) && ConstraintInScope(k, s)
    requires s.witnessAssignment[w] == a && s.witnessAssignment[w + 1] == b && s.instanceAssignment[i] == c
    ensures Holds(k, s) <==> (a + b) % s.modulus == c % s.modulus
  {
    assert Eval(k.a[1..], s) == b;
    assert Eval(k.a, s) == a + b;
    assert Eval(k.b, s) == 1;
    assert Eval(k.c, s) == c;
  }

  /**
   * Key generation and proving see the same variables in the same order:
   * two successful syntheses from systems of equal topology, whatever their
   * modes and slot values, end in systems of equal topology.
   */
  lemma SameTopology(c1: Circuit, s1: CsState, c2: Circuit, s2: CsState)
    requires Valid(s1) && Valid(s2)
    requires TopologyOf(s1) == TopologyOf(s2)
    requires Synthesize(c1, s1).result.Ok? && Synthesize(c2, s2).result.Ok?
    ensures TopologyOf(Synthesize(c1, s1).state) == TopologyOf(Synthesize(c2, s2).state)
  {
  }

  /** The circuit `groth16` hands to key generation: every slot empty. */
  function SetupCircuit(): (circuit: Circuit)
    ensures Synthesize(circuit, Fresh(BN254_R, Setup)).result.Ok?
    ensures var r := Synthesize(circuit, Fresh(BN254_R, Prove));
      r.result == Err(AssignmentMissing) && r.state.numWitness == 1 && r.state.constraints == []
  {
    Circuit(None, None, None)
  }

  /** The fixture `groth16` proves: `a = 4`, `b = 2`, `c = 6` in `Fr`. */
  function FixtureAssignment(): (circuit: Circuit)
    ensures circuit.Complete()
  {
    Circuit(Some(FrFrom(4)), Some(FrFrom(2)), Some(FrFrom(6)))
  }

  /** The fixture satisfies `a + b = c` in `Fr` and fails `a * b = c` there (8 is not 6). */
  lemma FixtureHoldsForSumOnly()
    ensures var f := FixtureAssignment();
      (f.a.value + f.b.value) % BN254_R == f.c.value % BN254_R &&
      (f.a.value * f.b.value) % BN254_R != f.c.value % BN254_R
  {
  }

  /**
   * `groth16()` up to the calls into Groth16: synthesize the empty circuit in
   * setup mode over `Fr`, build the fixture and its public input, and
   * synthesize the fixture in proving mode. The circuit synthesis that key
   * generation and proving run never fails, `c` is `Some`, and the prover's
   * witness satisfies the constraint system.
   */
  method Groth16() returns (r: ProverInput)
    ensures r.keyTopology == r.proofTopology
    ensures r.keyTopology.numInstance == 2 && r.keyTopology.numWitness == 2
    ensures r.keyTopology.constraints == [SumConstraint(0, 1)]
    ensures |r.publicInputs| == r.proofTopology.numInstance - 1
    ensures r.publicInputs == [6]
    ensures r.satisfied
  {
    var setupCs := new ConstraintSystem(BN254_R, Setup);
    var setup := GenerateConstraints(SetupCircuit(), setupCs);
    assert setup.Ok?;

    var assignment := FixtureAssignment();
    var publicInputs := [assignment.c.value];

    var proveCs := new ConstraintSystem(BN254_R, Prove);
    var proved := GenerateConstraints(assignment, proveCs);
    assert proved.Ok?;

    ghost var empty := Fresh(BN254_R, Prove);
    assert Satisfied(empty);
    SatisfiedIffSum(assignment, empty);
    FixtureHoldsForSumOnly();
    r := ProverInput(TopologyOf(setupCs.State()), TopologyOf(proveCs.State()), publicInputs, Satisfied(proveCs.State()));
  }
}
