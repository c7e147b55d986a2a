/**
 * A minimal stand-in for the rank-1 constraint system of the ark-relations
 * library, reduced to the three calls the two circuits make:
 * `new_witness_variable`, `new_input_variable` and `enforce_constraint`.
 *
 * This module is an interface assumption about the library, not code of the
 * repository. It follows the library's documented behaviour:
 *  - instance variable 0 is the constant `One`, whose assigned value is 1;
 *  - an allocation first takes the next index and bumps the counter, and only
 *    outside setup mode evaluates the value closure and pushes its result
 *    (so in setup mode a missing value is never demanded);
 *  - a constraint `A * B = C` is recorded in both modes.
 *
 * Field elements are naturals; the constraint system's `modulus` is the
 * characteristic of the scalar field, and satisfaction is checked modulo it.
 */
module R1cs {

  datatype Option<T> = None | Some(value: T)

  /**
   * The library's synthesis errors that the modelled calls can meet or pass on.
   * `MissingCS` belongs to an absent constraint-system handle, which neither
   * driver ever passes, so no modelled call produces it.
   */
  datatype SynthesisError =
    | AssignmentMissing   // a value was demanded and the circuit had none
    | MissingCS           // the constraint-system handle is absent

  /** `Result<T, SynthesisError>`, usable with `:-` like Rust's `?`. */
  datatype Result<T> = Ok(value: T) | Err(error: SynthesisError) {
    predicate IsFailure() { Err? }

    function PropagateFailure<U>(): Result<U>
      requires Err?
    {
      Err(error)
    }

    function Extract(): T
      requires Ok?
    {
      value
    }
  }

  /** `opt.ok_or(SynthesisError::AssignmentMissing)`: the closure each circuit hands to an allocation. */
  function OkOr(o: Option<nat>): (r: Result<nat>)
    ensures r.Ok? <==> o.Some?
    ensures r.Ok? ==> r.value == o.value
    ensures r.Err? ==> r.error == AssignmentMissing
  {
    match o
    case Some(v) => Ok(v)
    case None => Err(AssignmentMissing)
  }

  datatype Variable = One | Instance(index: nat) | Witness(index: nat)

  /** One `(coefficient, variable)` pair of a linear combination. */
  datatype Term = Term(coeff: nat, v: Variable)

  type LinearCombination = seq<Term>

  /** The rank-1 constraint `a * b = c`. */
  datatype Constraint = Constraint(a: LinearCombination, b: LinearCombination, c: LinearCombination)

  /** Setup only counts variables and records constraints; Prove also assigns values. */
  datatype Mode = Setup | Prove

  /** The observable state of a constraint system, as a value. */
  datatype CsState = CsState(
    modulus: nat,
    mode: Mode,
    numInstance: nat,
    numWitness: nat,
    instanceAssignment: seq<nat>,
    witnessAssignment: seq<nat>,
    constraints: seq<Constraint>)

  /** What the key generator depends on: the variable counts and the constraints. */
  datatype Topology = Topology(numInstance: nat, numWitness: nat, constraints: seq<Constraint>)

  function TopologyOf(s: CsState): Topology
  {
    Topology(s.numInstance, s.numWitness, s.constraints)
  }

  /**
   * Invariant of every reachable state. The assignments may lag behind the
   * counters, because a failed allocation has already bumped its counter.
   */
  predicate Valid(s: CsState)
  {
    s.modulus >= 2 &&
    1 <= |s.instanceAssignment| <= s.numInstance &&
    |s.witnessAssignment| <= s.numWitness &&
    s.instanceAssignment[0] == 1 &&
    (s.mode == Setup ==> s.instanceAssignment == [1] && s.witnessAssignment == [])
  }

  /** `ConstraintSystem::new()` followed by `set_mode(mode)`. */
  function Fresh(modulus: nat, mode: Mode): (s: CsState)
    requires modulus >= 2
    ensures Valid(s)
    ensures s.modulus == modulus && s.mode == mode
    ensures s.numInstance == 1 && s.numWitness == 0 && s.constraints == []
    ensures s.instanceAssignment == [1] && s.witnessAssignment == []
  {
    CsState(modulus, mode, 1, 0, [1], [], [])
  }

  /** A state paired with the outcome of the call that produced it. */
  datatype Step<T> = Step(result: Result<T>, state: CsState)

  /** `new_witness_variable(f)`, where `f` is given by the value it returns. */
  function AllocWitness(s: CsState, f: Result<nat>): (r: Step<Variable>)
    requires Valid(s)
    ensures Valid(r.state)
    ensures r.state == s.(numWitness := s.numWitness + 1, witnessAssignment := r.state.witnessAssignment)
    ensures r.result.Ok? ==> r.result.value == Witness(s.numWitness)
    ensures r.result.Err? <==> s.mode == Prove && f.Err?
    ensures r.result.Err? ==> r.result.error == f.error
    ensures r.state.witnessAssignment == if s.mode == Prove && f.Ok? then s.witnessAssignment + [f.value] else s.witnessAssignment
  {
    var s' := s.(numWitness := s.numWitness + 1);
    if s.mode == Setup then Step(Ok(Witness(s.numWitness)), s')
    else match f
      case Err(e) => Step(Err(e), s')
      case Ok(v) => Step(Ok(Witness(s.numWitness)), s'.(witnessAssignment := s.witnessAssignment + [v]))
  }

  /** `new_input_variable(f)`: the same, for public inputs. */
  function AllocInput(s: CsState, f: Result<nat>): (r: Step<Variable>)
    requires Valid(s)
    ensures Valid(r.state)
    ensures r.state == s.(numInstance := s.numInstance + 1, instanceAssignment := r.state.instanceAssignment)
    ensures r.result.Ok? ==> r.result.value == Instance(s.numInstance)
    ensures r.result.Err? <==> s.mode == Prove && f.Err?
    ensures r.result.Err? ==> r.result.error == f.error
    ensures r.state.instanceAssignment == if s.mode == Prove && f.Ok? then s.instanceAssignment + [f.value] else s.instanceAssignment
  {
    var s' := s.(numInstance := s.numInstance + 1);
    if s.mode == Setup then Step(Ok(Instance(s.numInstance)), s')
    else match f
      case Err(e) => Step(Err(e), s')
      case Ok(v) => Step(Ok(Instance(s.numInstance)), s'.(instanceAssignment := s.instanceAssignment + [v]))
  }

  /** `enforce_constraint(a, b, c)`: appends the constraint, leaves the variables alone. */
  function Enforce(s: CsState, a: LinearCombination, b: LinearCombination, c: LinearCombination): (r: Step<()>)
    requires Valid(s)
    ensures Valid(r.state) && r.result.Ok?
    ensures r.state == s.(constraints := s.constraints + [Constraint(a, b, c)])
  {
    Step(Ok(()), s.(constraints := s.constraints + [Constraint(a, b, c)]))
  }

  // ---------------------------------------------------------------------
  // Satisfaction

  predicate VarInScope(v: Variable, s: CsState)
  {
    match v
    case One => true
    case Instance(i) => i < s.numInstance
    case Witness(i) => i < s.numWitness
  }

  predicate LcInScope(lc: LinearCombination, s: CsState)
  {
    forall t :: t in lc ==> VarInScope(t.v, s)
  }

  predicate ConstraintInScope(k: Constraint, s: CsState)
  {
    LcInScope(k.a, s) && LcInScope(k.b, s) && LcInScope(k.c, s)
  }

  /**
   * A proving-mode system in which every allocated variable has a value and
   * every constraint mentions only allocated variables.
   */
  predicate FullyAssigned(s: CsState)
  {
    Valid(s) && s.mode == Prove &&
    |s.instanceAssignment| == s.numInstance && |s.witnessAssignment| == s.numWitness &&
    forall k :: k in s.constraints ==> ConstraintInScope(k, s)
  }

  function Value(v: Variable, s: CsState): nat
    requires FullyAssigned(s) && VarInScope(v, s)
  {
    match v
    case One => 1
    case Instance(i) => s.instanceAssignment[i]
    case Witness(i) => s.witnessAssignment[i]
  }

  /** The value of a linear combination, before reduction modulo the field's characteristic. */
  function Eval(lc: LinearCombination, s: CsState): nat
    requires FullyAssigned(s) && LcInScope(lc, s)
  {
    if lc == [] then 0 else lc[0].coeff * Value(lc[0].v, s) + Eval(lc[1..], s)
  }

  predicate Holds(k: Constraint, s: CsState)
    requires FullyAssigned(s) && ConstraintInScope(k, s)
  {
    (Eval(k.a, s) * Eval(k.b, s)) % s.modulus == Eval(k.c, s) % s.modulus
  }

  /** Every recorded constraint holds in the field. */
  predicate Satisfied(s: CsState)
    requires FullyAssigned(s)
  {
    forall k :: k in s.constraints ==> Holds(k, s)
  }

  /** `s2` is `s` with more variables, values and constraints appended. */
  predicate Extends(s: CsState, s2: CsState)
  {
    s2.modulus == s.modulus && s2.mode == s.mode &&
    s.numInstance <= s2.numInstance && s.numWitness <= s2.numWitness &&
    s.instanceAssignment <= s2.instanceAssignment && s.witnessAssignment <= s2.witnessAssignment &&
    s.constraints <= s2.constraints
  }

  /** Appending variables never changes the value of a linear combination over the old ones. */
  lemma {:induction false} EvalExtends(lc: LinearCombination, s: CsState, s2: CsState)
    requires FullyAssigned(s) && FullyAssigned(s2) && Extends(s, s2) && LcInScope(lc, s)
    ensures LcInScope(lc, s2)
    ensures Eval(lc, s2) == Eval(lc, s)
  {
    if lc != [] {
      assert lc[0] in lc;
      assert LcInScope(lc[1..], s) by {
        forall t | t in lc[1..] ensures VarInScope(t.v, s) { assert t in lc; }
      }
      EvalExtends(lc[1..], s, s2);
      match lc[0].v
      case One =>
      case Instance(i) => assert s2.instanceAssignment[i] == s.instanceAssignment[i];
      case Witness(i) => assert s2.witnessAssignment[i] == s.witnessAssignment[i];
    }
  }

  /**
   * Appending one in-scope constraint to an extension of a satisfied-or-not
   * system: the result is satisfied exactly when the old system was and the
   * new constraint holds.
   */
  lemma SatisfiedAfterAppend(s: CsState, s2: CsState, k: Constraint)
    requires FullyAssigned(s) && Valid(s2) && s2.mode == Prove
    requires Extends(s, s2.(constraints := s.constraints))
    requires |s2.instanceAssignment| == s2.numInstance && |s2.witnessAssignment| == s2.numWitness
    requires s2.constraints == s.constraints + [k]
    requires ConstraintInScope(k, s2)
    ensures FullyAssigned(s2)
    ensures Satisfied(s2) <==> Satisfied(s) && Holds(k, s2)
  {
    forall k' | k' in s2.constraints ensures ConstraintInScope(k', s2) {
      if k' != k {
        assert k' in s.constraints;
        LcStillInScope(k'.a, s, s2);
        LcStillInScope(k'.b, s, s2);
        LcStillInScope(k'.c, s, s2);
      }
    }
    forall k' | k' in s.constraints ensures Holds(k', s2) == Holds(k', s) {
      EvalExtends(k'.a, s, s2);
      EvalExtends(k'.b, s, s2);
      EvalExtends(k'.c, s, s2);
    }
    assert k in s2.constraints;
  }

  lemma LcStillInScope(lc: LinearCombination, s: CsState, s2: CsState)
    requires LcInScope(lc, s)
    requires s.numInstance <= s2.numInstance && s.numWitness <= s2.numWitness
    ensures LcInScope(lc, s2)
  {
    forall t | t in lc ensures VarInScope(t.v, s2) {
      assert VarInScope(t.v, s);
    }
  }

  /** What a driver hands to the Groth16 library: the two synthesized systems, seen through what they fix. */
  datatype ProverInput = ProverInput(
    keyTopology: Topology,        // the constraint system key generation saw
    proofTopology: Topology,      // the constraint system the prover saw
    publicInputs: seq<nat>,       // the verifier's public-input vector
    satisfied: bool)              // whether the prover's witness satisfies every constraint

  // ---------------------------------------------------------------------
  // The constraint system as an object the circuits mutate through its handle

  class ConstraintSystem {
    const modulus: nat
    const mode: Mode
    var numInstance: nat
    var numWitness: nat
    var instanceAssignment: seq<nat>
    var witnessAssignment: seq<nat>
    var constraints: seq<Constraint>

    function State(): CsState
      reads this
    {
      CsState(modulus, mode, numInstance, numWitness, instanceAssignment, witnessAssignment, constraints)
    }

    constructor (modulus: nat, mode: Mode)
      requires modulus >= 2
      ensures State() == Fresh(modulus, mode)
    {
      this.modulus := modulus;
      this.mode := mode;
      numInstance := 1;
      numWitness := 0;
      instanceAssignment := [1];
      witnessAssignment := [];
      constraints := [];
    }

    method NewWitnessVariable(f: Result<nat>) returns (r: Result<Variable>)
      requires Valid(State())
      modifies this
      ensures Step(r, State()) == AllocWitness(old(State()), f)
    {
      var index := numWitness;
      numWitness := numWitness + 1;
      if mode == Prove {
        var v :- f;
        witnessAssignment := witnessAssignment + [v];
      }
      r := Ok(Witness(index));
    }

    method NewInputVariable(f: Result<nat>) returns (r: Result<Variable>)
      requires Valid(State())
      modifies this
      ensures Step(r, State()) == AllocInput(old(State()), f)
    {
      var index := numInstance;
      numInstance := numInstance + 1;
      if mode == Prove {
        var v :- f;
        instanceAssignment := instanceAssignment + [v];
      }
      r := Ok(Instance(index));
    }

    method EnforceConstraint(a: LinearCombination, b: LinearCombination, c: LinearCombination)
      returns (r: Result<()>)
      requires Valid(State())
      modifies this
      ensures Step(r, State()) == Enforce(old(State()), a, b, c)
    {
      constraints := constraints + [Constraint(a, b, c)];
      r := Ok(());
    }
  }
}
