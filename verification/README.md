# mpc-snarks core in Dafny

This project models two pieces of the multiprover-snark repository and
proves properties about them.

- **The proof publicizer** (`mpc-snarks/src/marlin.rs`). A Marlin proof
  produced by the distributed prover has secret-shared leaves. These are
  field elements in the evaluations, the prover messages, the KZG
  randomizers and the claimed evaluations. They are also group elements in
  the commitments and the KZG opening points. `pf_publicize` and its
  helpers replace every leaf by its revealed plaintext and build a new
  transcript. `reveal` is not interpreted. Every publicizer takes it as two
  function parameters: `rf` for field leaves and `rg` for group leaves.
  The proofs cover four things:
  - Shape is preserved: lengths, `Option` presence and prover-message round
    tags are unchanged.
  - Leaves are correct: output leaf i is the reveal of input leaf i, in
    order.
  - The output is characterised without its body: it is the only transcript
    with the input's shape and the revealed leaves.
  - There is no cross-leaf mixing.
  The transform is total.
- **The `SimpleDragonnCircuit` synthesizer** (`mpc-snarks/src/simple_dragonn.rs`).
  `generate_constraints` works on a constraint system, modelled as the class
  `ConstraintSystem` with these fields:
  - a witness counter;
  - the list of assigned witness values;
  - the list of rank-1 constraints `A * B = C`.

  The method allocates `l1`, then `l2`. It stops with `AssignmentMissing` at
  the first absent value. It then appends three constraints: the booleanity
  constraint `l1 * (l1 - 1) = 0` twice, then `l2 * (2*l2 - 4) = 0`. The
  source comment says "Verify is bit". Even so, the third constraint accepts
  exactly `l2 ∈ {0, 2}`, so the bit value 1 violates it. The model states
  this as the code has it. The whole system is satisfied exactly when
  `l1 ∈ {0, 1}` and `l2 ∈ {0, 2}`.

The constraint system follows ark-relations' `ConstraintSystem`, an
external crate whose behaviour is summarised here:
- Outside setup mode, `new_witness_variable` computes the value; the next
  witness index is used up whether or not the value is present, and an
  absent value is returned as the error.
- In setup mode (indexing) the value is never computed. So a circuit with
  absent values still synthesizes in setup mode.
- `enforce_constraint` records the constraint `A * B = C`. The model keeps
  every constraint in a list, which is what the crate does when it builds
  its constraint matrices (always in setup mode).

Arithmetic is done over the integers.

Files: `wrappers.dfy` (Rust's `Option`, `Result`, `ok_or`); `mapping.dfy`
(`into_iter().map().collect()`, `Option::map`, flat-map, and their lemmas);
`marlin.dfy`; `simple_dragonn.dfy`.

The commented-out `r1`/`r2` lines (simple_dragonn.rs:11-12, 22-23, 29-30)
point to a larger comparator circuit, but they are not live code. The live
code has only `l1` and `l2`, a repeated `l1` constraint and the zero-or-two
constraint on `l2`, and the model follows it.

## Model

| member | source | states |
|---|---|---|
| `Wrappers.OkOr` | mpc-snarks/src/simple_dragonn.rs:20-21 | `ok_or` succeeds exactly on a present value, carrying it, and otherwise fails with the given error |
| `Mapping.MapSeq` | mpc-snarks/src/marlin.rs:16 | `into_iter().map(f).collect()` keeps the length, and element i of the result is `f` of element i |
| `Mapping.MapOption` | mpc-snarks/src/marlin.rs:26 | `Option::map` keeps presence, and a present value is passed through `f` |
| `Marlin.ProverMessagePublicize` | mpc-snarks/src/marlin.rs:10-19 | the output is `EmptyMessage` exactly when the input is; a `FieldElements` round keeps its length, and element i is the reveal of input element i |
| `Marlin.CommitFromMpc` | mpc-snarks/src/marlin.rs:30-34 | the revealed KZG commitment holds the reveal of the shared commitment's group element |
| `Marlin.CommPublicize` | mpc-snarks/src/marlin.rs:21-28 | `comm` is revealed; `shifted_comm` is present in the output exactly when present in the input, and then it is revealed |
| `Marlin.CommPublicizeLeaves` | mpc-snarks/src/marlin.rs:21-34 | the group leaves of a publicized commitment (base, then shifted) are the reveals of the input's leaves, in order |
| `Marlin.PfFromMpc` | mpc-snarks/src/marlin.rs:35-42 | `w` is revealed; `random_v` keeps its presence or absence and is revealed when present |
| `Marlin.BatchPfPublicize` | mpc-snarks/src/marlin.rs:44-53 | `proof` keeps its length and order, with entry i equal to `pf_from_mpc` of input entry i; `evals` stays absent when absent, and when present keeps its length with each element revealed |
| `Marlin.PfPublicize` | mpc-snarks/src/marlin.rs:55-75 | same number of commitment groups and same length of every group, with entry (i, j) equal to `comm_publicize` of input entry (i, j); same number of evaluations, each revealed; same number of prover-message rounds, each publicized at its index; `pc_proof` is `batch_pf_publicize` of the input's; no precondition, so no failure path |
| `Marlin.PfPublicizeCompose` | mpc-snarks/src/marlin.rs:55-75 | `pf_publicize` is a structural map: publicizing with one pair of reveals and then another is publicizing once with the composed reveals |
| `Marlin.PfPublicizePreservesShape` | mpc-snarks/src/marlin.rs:55-75 | the output has the input's shape: with every leaf erased, input and output are equal, so every list length, every optional part's presence and every round tag is kept |
| `Marlin.SameShape` | mpc-snarks/src/marlin.rs:55-75 | two transcripts with equal shapes have equal lengths of every list (commitment groups and their entries, evaluations, prover-message rounds and their elements, opening proofs, claimed evaluations), equal presence of every optional part and equal round tags |
| `Marlin.PfPublicizeIdentity` | mpc-snarks/src/marlin.rs:55-75 | with reveals that fix every leaf, the output is the input: publicizing changes only the leaves |
| `Marlin.PfPublicizeFieldLeaves` | mpc-snarks/src/marlin.rs:55-75 | the output has as many field leaves as the input, and field leaf i of the output is the reveal of field leaf i of the input |
| `Marlin.PfPublicizeGroupLeaves` | mpc-snarks/src/marlin.rs:55-75 | the output has as many group leaves as the input, and group leaf i of the output is the reveal of group leaf i of the input |
| `Marlin.ShapeAndLeavesDetermine` | mpc-snarks/src/marlin.rs:55-75 | two transcripts with the same shape, the same field leaves and the same group leaves are equal |
| `Marlin.PfPublicizeCharacterized` | mpc-snarks/src/marlin.rs:55-75 | a transcript is the publicized input exactly when it has the input's shape and its leaves are the input's leaves revealed one by one, in order |
| `Marlin.PfPublicizeLocal` | mpc-snarks/src/marlin.rs:55-75 | no cross-leaf mixing: reveals that agree on the input's own leaves give the same output |
| `SimpleDragonn.ConstraintSystem.constructor` | mpc-snarks/src/simple_dragonn.rs:18 | a new constraint system has no witnesses, no assigned values and no constraints, in the given mode |
| `SimpleDragonn.ConstraintSystem.NewWitnessVariable` | mpc-snarks/src/simple_dragonn.rs:20-21 | the witness counter grows by one and the constraints are unchanged; in setup mode, or when the value is present, the next witness variable is returned; outside setup mode a missing value fails with its error and records nothing, and a present one is appended to the assignment |
| `SimpleDragonn.ConstraintSystem.EnforceConstraint` | mpc-snarks/src/simple_dragonn.rs:26-28 | exactly the constraint `A * B = C` is appended; witnesses and assignment are unchanged |
| `SimpleDragonn.DragonnConstraints` | mpc-snarks/src/simple_dragonn.rs:26-28 | the circuit enforces three constraints, and the first two (booleanity of `l1`) are the same; every `C` side is empty (zero) |
| `SimpleDragonn.GenerateConstraints` | mpc-snarks/src/simple_dragonn.rs:16-33 | succeeds exactly in setup mode or when both values are present; otherwise fails with `AssignmentMissing` and enforces no constraint; an absent `l1` records no value, and an absent `l2` records only `l1`'s value; on success, two witnesses are allocated (`l1`, then `l2`), their values are recorded in that order outside setup mode, and the three circuit constraints are appended over them; on a fresh system in proving mode the result is satisfied exactly when `l1 ∈ {0,1}` and `l2 ∈ {0,2}` |
| `SimpleDragonn.BitConstraintHolds` | mpc-snarks/src/simple_dragonn.rs:26-27 | `l1 * (l1 - 1) = 0` holds exactly when `l1` is 0 or 1 |
| `SimpleDragonn.ZeroOrTwoConstraintHolds` | mpc-snarks/src/simple_dragonn.rs:28 | `l2 * (2*l2 - 4) = 0` holds exactly when `l2` is 0 or 2 |
| `SimpleDragonn.ZeroOrTwoConstraintIsNotBooleanity` | mpc-snarks/src/simple_dragonn.rs:25-28 | despite the "is bit" comment, the value 1 violates the `l2` constraint and the value 2 satisfies it |
| `SimpleDragonn.DragonnSatisfiedIff` | mpc-snarks/src/simple_dragonn.rs:26-32 | the circuit's constraint system is satisfied exactly when `l1 ∈ {0,1}` and `l2 ∈ {0,2}` |
| `SimpleDragonn.ZeroProduct` | mpc-snarks/src/simple_dragonn.rs:26-28 | a product is zero exactly when a factor is; the constraints rely on this, because their `C` side is zero |

## Left out

- `mpc_test_prove_and_verify` and `mpc_demo_dragons` (marlin.rs:86-180) are left out. They consist of universal setup, indexing, the Marlin prover and verifier, the test RNG, printing and MPC multiplication. All of these are calls into external libraries.
- `reveal` is a parameter and is not defined. Combining shares and synchronising parties are network protocol. A reveal that fails (a party drops out) is not modelled: `rf` and `rg` are total.
- Group elements, pairings and KZG mathematics are opaque leaf types (`SG`, `G`). Field elements are opaque leaf types too (`SF`, `F`).
- The `start_timer!` and `end_timer!` calls (marlin.rs:58, 73) are logging only.
- Ownership and moves (`into_iter` consuming the input) are not modelled. Dafny values are immutable.
- The commented-out `r1` and `r2` inputs and their constraints (simple_dragonn.rs:11-12, 22-23, 29-30) are left out, and so is the larger comparator they point to. They are not live code.
- Field arithmetic: constraints are evaluated over the integers, not in the field `ConstraintF`, which the circuit is generic over. In any field of odd characteristic, such as BLS12-377's scalar field, there are no zero divisors and 2 is invertible, so the same value sets hold; that argument is not proved here. In a field of characteristic 2 the `l2` constraint would accept every value; the model does not cover that case.
- The constraint system keeps only its witness counter, the assigned values, the constraint list and the mode. Left out are:
  - public-input variables;
  - the zero variable and symbolic linear combinations;
  - merging of repeated terms in a linear combination;
  - the constraint matrices and optimisation goals.
- The `MissingCS` error is not modelled. It comes from a constraint-system reference with no system behind it. Against a present system `enforce_constraint` cannot fail, so `EnforceConstraint` returns no error, and the `?` after each call in simple_dragonn.rs:26-28 never fires.
- When the crate proves without building matrices (`construct_matrices = false`), `enforce_constraint` only counts a constraint and does not store it. The model always stores it, so its constraint list is what the matrix-building modes record.
