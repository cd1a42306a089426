/**
 * The circuit of mpc-snarks/src/simple_dragonn.rs: `generate_constraints`
 * allocates two witness variables `l1`, `l2` in a rank-1 constraint system
 * and enforces three constraints `A * B = C` on them.
 *
 * The constraint system is modelled after ark-relations' `ConstraintSystem`
 * (its witness counter, witness assignment and constraint list); field
 * arithmetic is done over the integers.
 */
module SimpleDragonn {
  import opened Wrappers

  datatype SynthesisError = AssignmentMissing

  /** A variable of the constraint system: the constant one, or the i-th witness. */
  datatype Variable = One | Witness(index: nat)

  /** A term `coeff * v` of a linear combination. */
  datatype Term = Term(coeff: int, v: Variable)

  /** A linear combination: the sum of its terms (`lc!()` is the empty one). */
  type LinearCombination = seq<Term>

  /** A rank-1 constraint `a * b = c`. */
  datatype Constraint = Constraint(a: LinearCombination, b: LinearCombination, c: LinearCombination)

  // ---------------------------------------------------------------------
  // Satisfaction of a constraint list by a witness assignment
  // ---------------------------------------------------------------------

  /** Every witness the linear combination mentions has a value among `n` assigned ones. */
  predicate InScope(lc: LinearCombination, n: nat)
  {
    forall t :: t in lc && t.v.Witness? ==> t.v.index < n
  }

  predicate ConstraintInScope(c: Constraint, n: nat)
  {
    InScope(c.a, n) && InScope(c.b, n) && InScope(c.c, n)
  }

  function VarValue(v: Variable, w: seq<int>): int
    requires v.Witness? ==> v.index < |w|
  {
    match v
    case One => 1
    case Witness(i) => w[i]
  }

  /** The value of a linear combination under the witness assignment `w`. */
  function Eval(lc: LinearCombination, w: seq<int>): int
    requires InScope(lc, |w|)
  {
    if lc == [] then 0 else lc[0].coeff * VarValue(lc[0].v, w) + Eval(lc[1..], w)
  }

  predicate Holds(c: Constraint, w: seq<int>)
    requires ConstraintInScope(c, |w|)
  {
    Eval(c.a, w) * Eval(c.b, w) == Eval(c.c, w)
  }

  /** Every constraint can be evaluated under `w` and holds. */
  predicate Satisfies(cs: seq<Constraint>, w: seq<int>)
  {
    forall i :: 0 <= i < |cs| ==> ConstraintInScope(cs[i], |w|) && Holds(cs[i], w)
  }

  // ---------------------------------------------------------------------
  // The constraints of the circuit
  // ---------------------------------------------------------------------

  /** `(lc!() + x) * (lc!() + x - Variable::One) = lc!()`. */
  function BitConstraint(x: Variable): Constraint
  {
    Constraint([Term(1, x)], [Term(1, x), Term(-1, One)], [])
  }

  /** `(lc!() + x) * (lc!() + (2, x) - (4, Variable::One)) = lc!()`. */
  function ZeroOrTwoConstraint(x: Variable): Constraint
  {
    Constraint([Term(1, x)], [Term(2, x), Term(-4, One)], [])
  }

  /**
   * The three constraints `generate_constraints` enforces, in order: the
   * booleanity constraint on `l1` twice, then the zero-or-two constraint on
   * `l2`. Every `C` side is the empty combination.
   */
  function DragonnConstraints(l1: Variable, l2: Variable): (r: seq<Constraint>)
    ensures |r| == 3 && r[0] == r[1]
    ensures forall i :: 0 <= i < |r| ==> r[i].c == []
  {
    [BitConstraint(l1), BitConstraint(l1), ZeroOrTwoConstraint(l2)]
  }

  // ---------------------------------------------------------------------
  // Which values the constraints accept
  // ---------------------------------------------------------------------

  /** A product of integers is zero exactly when a factor is. */
  lemma ZeroProduct(a: int, b: int)
    ensures a * b == 0 <==> a == 0 || b == 0
  {
  }

  /** The value of `[Term(p, x), Term(q, One)]` is `p * x + q`. */
  lemma EvalTwoTerms(w: seq<int>, i: nat, p: int, q: int)
    requires i < |w|
    ensures InScope([Term(p, Witness(i)), Term(q, One)], |w|)
    ensures Eval([Term(p, Witness(i)), Term(q, One)], w) == p * w[i] + q
  {
    var lc := [Term(p, Witness(i)), Term(q, One)];
    var tail := [Term(q, One)];
    assert lc[1..] == tail;
    assert tail[1..] == [];
    assert Eval(tail, w) == q * 1 + Eval([], w);
    assert Eval(lc, w) == p * w[i] + Eval(tail, w);
  }

  /** `x * (x - 1) = 0` holds exactly when `x` is 0 or 1. */
  lemma BitConstraintHolds(w: seq<int>, i: nat)
    requires i < |w|
    ensures ConstraintInScope(BitConstraint(Witness(i)), |w|)
    ensures Holds(BitConstraint(Witness(i)), w) <==> w[i] == 0 || w[i] == 1
  {
    var c := BitConstraint(Witness(i));
    assert Eval(c.a, w) == w[i];
    EvalTwoTerms(w, i, 1, -1);
    assert Eval(c.c, w) == 0;
    ZeroProduct(w[i], w[i] - 1);
  }

  /**
   * `x * (2x - 4) = 0` holds exactly when `x` is 0 or 2: this constraint
   * does not check that `x` is a bit.
   */
  lemma ZeroOrTwoConstraintHolds(w: seq<int>, i: nat)
    requires i < |w|
    ensures ConstraintInScope(ZeroOrTwoConstraint(Witness(i)), |w|)
    ensures Holds(ZeroOrTwoConstraint(Witness(i)), w) <==> w[i] == 0 || w[i] == 2
  {
    var c := ZeroOrTwoConstraint(Witness(i));
    assert Eval(c.a, w) == w[i];
    EvalTwoTerms(w, i, 2, -4);
    assert Eval(c.c, w) == 0;
    ZeroProduct(w[i], 2 * w[i] - 4);
  }

  /** The bit value 1 violates the zero-or-two constraint, and the non-bit 2 satisfies it. */
  lemma ZeroOrTwoConstraintIsNotBooleanity()
    ensures !Holds(ZeroOrTwoConstraint(Witness(0)), [1])
    ensures Holds(ZeroOrTwoConstraint(Witness(0)), [2])
  {
    ZeroOrTwoConstraintHolds([1], 0);
    ZeroOrTwoConstraintHolds([2], 0);
  }

  /** The circuit's constraints are satisfied exactly when `l1` is 0 or 1 and `l2` is 0 or 2. */
  lemma DragonnSatisfiedIff(w: seq<int>, i1: nat, i2: nat)
    requires i1 < |w| && i2 < |w|
    ensures Satisfies(DragonnConstraints(Witness(i1), Witness(i2)), w) <==>
      (w[i1] == 0 || w[i1] == 1) && (w[i2] == 0 || w[i2] == 2)
  {
    BitConstraintHolds(w, i1);
    ZeroOrTwoConstraintHolds(w, i2);
    var cs := DragonnConstraints(Witness(i1), Witness(i2));
    assert cs[0] == BitConstraint(Witness(i1)) && cs[2] == ZeroOrTwoConstraint(Witness(i2));
  }

  // ---------------------------------------------------------------------
  // The constraint system
  // ---------------------------------------------------------------------

  class ConstraintSystem {
    /** In setup mode (indexing) no witness value is ever computed. */
    const setupMode: bool
    var numWitness: nat
    var witnessAssignment: seq<int>
    var constraints: seq<Constraint>

    ghost predicate Valid()
      reads this
    {
      |witnessAssignment| <= numWitness &&
      (setupMode ==> witnessAssignment == [])
    }

    constructor (setupMode: bool)
      ensures Valid()
      ensures this.setupMode == setupMode
      ensures numWitness == 0 && witnessAssignment == [] && constraints == []
    {
      this.setupMode := setupMode;
      numWitness := 0;
      witnessAssignment := [];
      constraints := [];
    }

    /**
     * `new_witness_variable`: reserves the next witness index; outside setup
     * mode it then computes the value, failing with the value's error or
     * recording the value.
     */
    method NewWitnessVariable(value: Result<int, SynthesisError>) returns (r: Result<Variable, SynthesisError>)
      requires Valid()
      modifies this
      ensures Valid()
      ensures numWitness == old(numWitness) + 1
      ensures constraints == old(constraints)
      ensures setupMode || value.Success? ==> r == Success(Witness(old(numWitness)))
      ensures !setupMode && value.Failure? ==> r == Failure(value.error)
      ensures witnessAssignment ==
        if !setupMode && value.Success? then old(witnessAssignment) + [value.value] else old(witnessAssignment)
    {
      var index := numWitness;
      numWitness := numWitness + 1;
      if !setupMode {
        match value
        case Failure(e) =>
          return Failure(e);
        case Success(v) =>
          witnessAssignment := witnessAssignment + [v];
      }
      r := Success(Witness(index));
    }

    /** `enforce_constraint`: appends `a * b = c` to the constraint list. */
    method EnforceConstraint(a: LinearCombination, b: LinearCombination, c: LinearCombination)
      requires Valid()
      modifies this
      ensures Valid()
      ensures constraints == old(constraints) + [Constraint(a, b, c)]
      ensures numWitness == old(numWitness) && witnessAssignment == old(witnessAssignment)
    {
      constraints := constraints + [Constraint(a, b, c)];
    }
  }

  // ---------------------------------------------------------------------
  // The circuit
  // ---------------------------------------------------------------------

  datatype SimpleDragonnCircuit = SimpleDragonnCircuit(l1: Option<int>, l2: Option<int>)

  /**
   * `generate_constraints`: allocates `l1` then `l2`, leaving at the first
   * missing value, then enforces the two booleanity constraints on `l1` and
   * the zero-or-two constraint on `l2`.
   */
  method GenerateConstraints(self: SimpleDragonnCircuit, cs: ConstraintSystem) returns (r: Result<(), SynthesisError>)
    requires cs.Valid()
    modifies cs
    ensures cs.Valid()
    ensures r.Success? <==> cs.setupMode || (self.l1.Some? && self.l2.Some?)
    ensures r.Failure? ==> r.error == AssignmentMissing && cs.constraints == old(cs.constraints)
    ensures !cs.setupMode && self.l1.None? ==>
      cs.numWitness == old(cs.numWitness) + 1 && cs.witnessAssignment == old(cs.witnessAssignment)
    ensures !cs.setupMode && self.l1.Some? && self.l2.None? ==>
      cs.numWitness == old(cs.numWitness) + 2 && cs.witnessAssignment == old(cs.witnessAssignment) + [self.l1.value]
    ensures r.Success? ==>
      cs.numWitness == old(cs.numWitness) + 2 &&
      cs.constraints == old(cs.constraints) + DragonnConstraints(Witness(old(cs.numWitness)), Witness(old(cs.numWitness) + 1))
    ensures r.Success? && !cs.setupMode ==>
      cs.witnessAssignment == old(cs.witnessAssignment) + [self.l1.value, self.l2.value]
    ensures cs.setupMode ==> cs.witnessAssignment == old(cs.witnessAssignment)
    ensures r.Success? && !cs.setupMode && old(cs.numWitness) == 0 && old(cs.constraints) == [] ==>
      (Satisfies(cs.constraints, cs.witnessAssignment) <==>
        (self.l1.value == 0 || self.l1.value == 1) && (self.l2.value == 0 || self.l2.value == 2))
  {
    ghost var n0, c0, w0 := cs.numWitness, cs.constraints, cs.witnessAssignment;
    var l1 := cs.NewWitnessVariable(OkOr(self.l1, AssignmentMissing));
    if l1.Failure? {
      return Failure(l1.error);
    }
    var l2 := cs.NewWitnessVariable(OkOr(self.l2, AssignmentMissing));
    if l2.Failure? {
      return Failure(l2.error);
    }

    cs.EnforceConstraint([Term(1, l1.value)], [Term(1, l1.value), Term(-1, One)], []);
    cs.EnforceConstraint([Term(1, l1.value)], [Term(1, l1.value), Term(-1, One)], []);
    cs.EnforceConstraint([Term(1, l2.value)], [Term(2, l2.value), Term(-4, One)], []);
    r := Success(());
    assert cs.constraints == c0 + DragonnConstraints(l1.value, l2.value);
    if !cs.setupMode && n0 == 0 && c0 == [] {
      assert w0 == [];
      assert cs.witnessAssignment == [self.l1.value, self.l2.value];
      assert cs.constraints == DragonnConstraints(Witness(0), Witness(1));
      DragonnSatisfiedIff(cs.witnessAssignment, 0, 1);
    }
  }
}
