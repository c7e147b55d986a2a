# R1CS circuits of arkworks_dapp_icp, in Dafny

The repository proves, with Groth16 over BN254, that a prover knows two
private field elements `a`, `b` related to a public element `c`. Its own logic
is two one-constraint rank-1 constraint systems (R1CS) and the drivers that
synthesize them:

- the browser prover (`rust_zkp`, compiled to wasm) encodes `a * b = c` over
  BN254's scalar field `Fr`, and `create_proof(a, b)` takes two `u32`,
  derives `c`, runs key generation on an empty circuit and proves the
  assigned one;
- the canister (`arkworks_icp24_backend`) encodes `(a + b) * One = c` over a
  generic field, and its `groth16` query runs the same pipeline on the fixture
  `a = 4`, `b = 2`, `c = 6`.

The model has five modules:

- `R1cs` (r1cs.dfy) stands in for the library's constraint system, reduced to
  the three calls the circuits make: `new_witness_variable`,
  `new_input_variable`, `enforce_constraint`. It is an interface assumption
  about ark-relations, not repository code: instance variable 0 is the
  constant `One`; an allocation takes the next index and bumps its counter
  before anything else, and only in proving mode evaluates the value closure
  and pushes the value (so setup never demands a value); constraints are
  recorded in both modes. The state is a value `CsState` with pure functions
  `AllocWitness`, `AllocInput`, `Enforce` over it, and the class
  `ConstraintSystem` holds the same fields and implements the three calls as
  methods proved against those functions. Field elements are naturals;
  `Eval` sums a linear combination, `Holds` checks `A * B = C` modulo the
  system's modulus, and `Satisfied` requires every recorded constraint to
  hold. `ProverInput` is what a driver hands to Groth16: the topology (variable
  counts and constraints) key generation saw, the one the prover saw, the
  public-input vector, and whether the witness satisfies the system (what
  the prover's own satisfaction check would report; a proof from an
  unsatisfying witness does not verify).
- `Field` (field.dfy): BN254's scalar modulus `r`, `Fr::from`, and `u32`
  multiplication as a release build runs it (wrapping).
- `ProductCircuit` (product_circuit.dfy): the browser prover's circuit and
  `create_proof`.
- `SumCircuit` (sum_circuit.dfy): the canister's circuit, over any modulus,
  and `groth16` instantiated at `Fr`.
- `CircuitComparison` (compare.dfy): the two circuits are not interchangeable.

Each `generate_constraints` is a method on the shared `ConstraintSystem`
handle whose postcondition equates the outcome and the new state with a pure
`Synthesize` function of the old state; the properties are stated on
`Synthesize` and in lemmas about it.

## Model

| member | source | states |
|---|---|---|
| `R1cs.OkOr` | src/arkworks_icp24_backend/src/lib.rs:23-25 | the value closure `slot.ok_or(AssignmentMissing)` yields the slot's value when present and `AssignmentMissing` exactly when the slot is `None` |
| `R1cs.Fresh` | src/arkworks_icp24_frontend/src/rust_zkp/src/lib.rs:60 | a new constraint system has the requested modulus and mode (`set_mode`), only the constant `One` (one instance variable, value 1), no witnesses and no constraints |
| `R1cs.AllocWitness` | src/arkworks_icp24_frontend/src/rust_zkp/src/lib.rs:29-36 | `new_witness_variable` returns `Witness(n)` for the current count `n`, bumps the count, appends the value only in proving mode, fails only in proving mode and only with the closure's error, and changes nothing else |
| `R1cs.AllocInput` | src/arkworks_icp24_frontend/src/rust_zkp/src/lib.rs:37-40 | `new_input_variable` likewise returns `Instance(n)` (index 0 being `One`), appends the value only in proving mode and fails only with the closure's error there |
| `R1cs.Enforce` | src/arkworks_icp24_frontend/src/rust_zkp/src/lib.rs:43 | `enforce_constraint` succeeds, appends exactly one constraint and leaves every variable and value unchanged |
| `R1cs.EvalExtends` | src/arkworks_icp24_frontend/src/rust_zkp/src/lib.rs:29-43 | appending variables and values never changes the value of a linear combination over variables allocated before (proved by induction on the combination) |
| `R1cs.SatisfiedAfterAppend` | src/arkworks_icp24_backend/src/lib.rs:23-27 | after allocating and appending one constraint, the system is satisfied exactly when it was before and the new constraint holds |
| `R1cs.ConstraintSystem.constructor` | src/arkworks_icp24_backend/src/lib.rs:45 | the object starts in the state `Fresh` describes |
| `R1cs.ConstraintSystem.NewWitnessVariable` | src/arkworks_icp24_backend/src/lib.rs:23-24 | the in-place allocation leaves the object in exactly the state and returns exactly the outcome `AllocWitness` gives |
| `R1cs.ConstraintSystem.NewInputVariable` | src/arkworks_icp24_backend/src/lib.rs:25 | the same against `AllocInput` |
| `R1cs.ConstraintSystem.EnforceConstraint` | src/arkworks_icp24_backend/src/lib.rs:27 | the same against `Enforce` |
| `Field.FrFrom` | src/arkworks_icp24_frontend/src/rust_zkp/src/lib.rs:64-66 | `Fr::from(x)` is the canonical representative of `x` modulo `r`, and is `x` itself whenever `x < r` |
| `Field.WrappingMul` | src/arkworks_icp24_frontend/src/rust_zkp/src/lib.rs:66 | the `u32` product is congruent to `a * b` modulo 2^32 and equals `a * b` exactly when `a * b < 2^32` |
| `Field.U32ProductBelowR` | src/arkworks_icp24_frontend/src/rust_zkp/src/lib.rs:51 | every product of two `u32` is below 2^64, which is below `r`, so it is its own canonical element of `Fr` |
| `ProductCircuit.Synthesize` | src/arkworks_icp24_frontend/src/rust_zkp/src/lib.rs:28-46 | synthesis succeeds exactly in setup mode or when all three slots are `Some`; on success it allocates witnesses `a`, `b` then one input `c` and appends the one constraint `{a} * {b} = {c}` over exactly those variables; on failure the error is `AssignmentMissing`, no constraint is added, and allocation stopped at the first missing slot; setup mode assigns no values |
| `ProductCircuit.GenerateConstraints` | src/arkworks_icp24_frontend/src/rust_zkp/src/lib.rs:28-46 | the imperative synthesis through the shared handle ends in exactly the outcome and state `Synthesize` gives |
| `ProductCircuit.SatisfiedIffProduct` | src/arkworks_icp24_frontend/src/rust_zkp/src/lib.rs:43 | a complete assignment keeps a fully assigned system fully assigned, and the system is then satisfied iff it was before and `a * b = c` in `Fr` |
| `ProductCircuit.SameTopology` | src/arkworks_icp24_frontend/src/rust_zkp/src/lib.rs:55-59 | any two successful syntheses (setup with empty slots, proving with full ones) from equal topologies give equal variable counts, order and constraints |
| `ProductCircuit.SetupCircuit` | src/arkworks_icp24_frontend/src/rust_zkp/src/lib.rs:55-59 | the all-`None` circuit synthesizes in setup mode, and in proving mode fails with `AssignmentMissing` at the first allocation without adding a constraint |
| `ProductCircuit.ProvingAssignment` | src/arkworks_icp24_frontend/src/rust_zkp/src/lib.rs:63-67 | the proving circuit has all three slots `Some`, `a` and `b` are the arguments, and `c` equals `a * b` exactly when the product fits in `u32` |
| `ProductCircuit.ProvingAssignmentHoldsIffNoOverflow` | src/arkworks_icp24_frontend/src/rust_zkp/src/lib.rs:66 | the proving assignment satisfies `a * b = c` in `Fr` iff `a * b < 2^32` |
| `ProductCircuit.OverflowCounterexample` | src/arkworks_icp24_frontend/src/rust_zkp/src/lib.rs:66 | for `a = b = 65536` the assignment's `c` is 0 while `a * b` is not 0 in `Fr` |
| `ProductCircuit.FieldAssignment` | src/arkworks_icp24_frontend/src/rust_zkp/src/lib.rs:63-67 | with the product taken in `Fr`, `c` is the exact integer product `a * b` |
| `ProductCircuit.FieldAssignmentSatisfiesCircuit` | src/arkworks_icp24_frontend/src/rust_zkp/src/lib.rs:63-67 | for every pair of `u32`, the field-product assignment synthesizes into a satisfied, fully assigned system |
| `ProductCircuit.CreateProof` | src/arkworks_icp24_frontend/src/rust_zkp/src/lib.rs:51-75 | key generation and proving see the same topology (two witnesses, `One` plus one input, the one product constraint); the public-input vector has one element per allocated input, equal to the assignment's `c`; the circuit synthesis that key generation and proving run never fails and `c` is `Some`, so `ok_or_else` never takes its error branch; the witness satisfies the system iff `a * b < 2^32` |
| `SumCircuit.Synthesize` | src/arkworks_icp24_backend/src/lib.rs:21-31 | as for the product circuit, over any modulus, with the one constraint `{a, b} * {One} = {c}` |
| `SumCircuit.GenerateConstraints` | src/arkworks_icp24_backend/src/lib.rs:21-31 | the imperative synthesis ends in exactly the outcome and state `Synthesize` gives |
| `SumCircuit.SatisfiedIffSum` | src/arkworks_icp24_backend/src/lib.rs:27 | a complete assignment keeps a fully assigned system fully assigned, and it is then satisfied iff it was before and `a + b = c` modulo the system's modulus (the field modelled as a prime field) |
| `SumCircuit.SameTopology` | src/arkworks_icp24_backend/src/lib.rs:39-52 | any two successful syntheses from equal topologies give equal variable counts, order and constraints |
| `SumCircuit.SetupCircuit` | src/arkworks_icp24_backend/src/lib.rs:40-44 | the all-`None` circuit synthesizes in setup mode, and in proving mode fails with `AssignmentMissing` at the first allocation without adding a constraint |
| `SumCircuit.FixtureAssignment` | src/arkworks_icp24_backend/src/lib.rs:48-52 | the fixture has all three slots `Some`, so `assignment.c.unwrap()` cannot panic |
| `SumCircuit.FixtureHoldsForSumOnly` | src/arkworks_icp24_backend/src/lib.rs:48-52 | 4 + 2 = 6 holds in `Fr` and 4 * 2 = 6 does not |
| `SumCircuit.Groth16` | src/arkworks_icp24_backend/src/lib.rs:36-56 | key generation and proving see the same topology (two witnesses, `One` plus one input, the one sum constraint); the circuit synthesis that key generation and proving run never fails and `c` is `Some(6)`; the public input is `[6]`, one element per allocated input; the fixture's witness satisfies the system |
| `CircuitComparison.FixtureSeparatesCircuits` | src/arkworks_icp24_backend/src/lib.rs:27 | the values 4, 2, 6 satisfy the sum circuit and not the product circuit (src/arkworks_icp24_frontend/src/rust_zkp/src/lib.rs:43), and the two circuits fix different constraint systems, so neither's keys fit the other |

## Left out

- Groth16 key generation, proving, verifying-key preparation and verification (`generate_random_parameters`, `create_random_proof`, `prepare_verifying_key`, `verify_proof`): pairing-based cryptography inside the ark-groth16 library. The model stops at what these calls receive (`ProverInput`), so the canister's `"Verify proof: …!"` string is not modelled either.
- BN254 curve and pairing arithmetic: only the scalar field's modulus is needed for the constraint predicate. That `r` is prime is stated, not proved; no property here depends on it.
- `CanonicalSerialize::serialize` of the proof into bytes: the library's encoding is not visible.
- `StdRng::seed_from_u64(0)`: randomness used only by the cryptography left out above.
- The wasm start hook and panic hook, the `web_sys` console logging of the public inputs, and the `ic_cdk_macros::query` entry point: runtime plumbing, I/O and transport.
- src/arkworks_icp24_frontend/src/index.js: DOM handling, asynchronous canister calls and display. `create_json_proof` and `verify_groth16`, which it calls, are not part of this model (not defined in any file it covers).
- The library's linear-combination arithmetic: `lc!() + a + b` is modelled directly as the list of terms it produces for two distinct variables, each with coefficient 1.
- Field.WrappingMul: models a release build, where the `u32` product in `create_proof` wraps; a debug build panics on the same inputs instead, which the model does not represent.
- `ConstraintSystemRef::None` (the `MissingCS` error) and the `?` after `enforce_constraint`: the handle is always present in both drivers, and the modelled `enforce_constraint` cannot fail.
- The Groth16 library's own failure paths inside `generate_random_parameters(…).unwrap()` and `create_random_proof(…)` (beyond the circuit synthesis they run): the drivers' contracts say only that this synthesis never fails and that `c` is `Some`, not that these calls as a whole cannot fail.
- The backend's `F: Field` is modelled as the integers modulo `modulus`, that is, a prime field; extension fields, which the trait also admits, are not modelled. The only instance the repository uses is `Fr`.

## Findings

| source | as written | input that shows it | evidently intended | confidence | as-written member | corrected member |
|---|---|---|---|---|---|---|
| src/arkworks_icp24_frontend/src/rust_zkp/src/lib.rs:66 | `c` is `Fr::from(a*b)` with `a*b` computed in `u32`, which wraps in a release build (and panics in a debug build) | `a = 65536`, `b = 65536`: `c` becomes 0, the witness does not satisfy `a * b = c`, and the proof cannot verify | `c = Fr::from(a) * Fr::from(b)`, the product in the field, which satisfies the circuit for every pair of `u32` | high (not executed) | `ProductCircuit.OverflowCounterexample` | `ProductCircuit.FieldAssignmentSatisfiesCircuit` |

`ProductCircuit.CreateProof` models the code as written, so its contract
records the defect (the witness is satisfying iff `a * b < 2^32`);
`ProductCircuit.FieldAssignment` is the corrected assignment, proved
satisfying for all inputs.
