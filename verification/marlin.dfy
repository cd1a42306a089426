/**
 * The proof publicizer of mpc-snarks/src/marlin.rs: a structural map over a
 * Marlin proof transcript whose leaves are secret-shared field elements and
 * secret-shared group elements, replacing every leaf by its revealed
 * plaintext and keeping the shape of the transcript.
 *
 * `reveal` is not interpreted: every publicizer takes it as two functions,
 * `rf` for field leaves (type `SF` shared, `F` plain) and `rg` for group
 * leaves (type `SG` shared, `G` plain).
 */
module Marlin {
  import opened Wrappers
  import opened Mapping

  /** A prover message of one Marlin round. */
  datatype ProverMsg<F> = EmptyMessage | FieldElements(elems: seq<F>)

  /** A KZG10 commitment: a single group element. */
  datatype KzgCommitment<G> = KzgCommitment(point: G)

  /** A Marlin-KZG10 commitment: a commitment and an optional shifted (degree-bound) one. */
  datatype Commitment<G> = Commitment(comm: KzgCommitment<G>, shiftedComm: Option<KzgCommitment<G>>)

  /** A KZG10 opening proof: a group element and an optional field randomizer. */
  datatype KzgProof<F, G> = KzgProof(w: G, randomV: Option<F>)

  /** A batched opening proof for linear combinations, with optional claimed evaluations. */
  datatype BatchLCProof<F, G> = BatchLCProof(proof: seq<KzgProof<F, G>>, evals: Option<seq<F>>)

  /** A Marlin proof transcript. */
  datatype Proof<F, G> = Proof(
    commitments: seq<seq<Commitment<G>>>,
    evaluations: seq<F>,
    proverMessages: seq<ProverMsg<F>>,
    pcProof: BatchLCProof<F, G>)

  // ---------------------------------------------------------------------
  // The publicizers
  // ---------------------------------------------------------------------

  /** `prover_message_publicize`: keeps the round tag and reveals every element in order. */
  function ProverMessagePublicize<SF, F>(rf: SF -> F, p: ProverMsg<SF>): (r: ProverMsg<F>)
    ensures r.EmptyMessage? <==> p.EmptyMessage?
    ensures p.FieldElements? ==>
      |r.elems| == |p.elems| && forall i :: 0 <= i < |p.elems| ==> r.elems[i] == rf(p.elems[i])
  {
    match p
    case EmptyMessage => EmptyMessage
    case FieldElements(d) => FieldElements(MapSeq(rf, d))
  }

  /** `commit_from_mpc`: the revealed commitment holds the revealed point. */
  function CommitFromMpc<SG, G>(rg: SG -> G, p: KzgCommitment<SG>): (r: KzgCommitment<G>)
    ensures r.point == rg(p.point)
  {
    KzgCommitment(rg(p.point))
  }

  /** `comm_publicize`: reveals the commitment, and the shifted one exactly when present. */
  function CommPublicize<SG, G>(rg: SG -> G, pf: Commitment<SG>): (r: Commitment<G>)
    ensures r.comm.point == rg(pf.comm.point)
    ensures r.shiftedComm.Some? <==> pf.shiftedComm.Some?
    ensures pf.shiftedComm.Some? ==> r.shiftedComm.value.point == rg(pf.shiftedComm.value.point)
  {
    Commitment(CommitFromMpc(rg, pf.comm), MapOption(c => CommitFromMpc(rg, c), pf.shiftedComm))
  }

  /** `pf_from_mpc`: reveals `w`, and `random_v` exactly when present. */
  function PfFromMpc<SF, SG, F, G>(rf: SF -> F, rg: SG -> G, pf: KzgProof<SF, SG>): (r: KzgProof<F, G>)
    ensures r.w == rg(pf.w)
    ensures r.randomV.Some? <==> pf.randomV.Some?
    ensures pf.randomV.Some? ==> r.randomV.value == rf(pf.randomV.value)
  {
    KzgProof(rg(pf.w), MapOption(rf, pf.randomV))
  }

  /** `batch_pf_publicize`: per-query proofs in order; claimed evaluations revealed when present. */
  function BatchPfPublicize<SF, SG, F, G>(rf: SF -> F, rg: SG -> G, pf: BatchLCProof<SF, SG>): (r: BatchLCProof<F, G>)
    ensures |r.proof| == |pf.proof|
    ensures forall i :: 0 <= i < |pf.proof| ==> r.proof[i] == PfFromMpc(rf, rg, pf.proof[i])
    ensures r.evals.Some? <==> pf.evals.Some?
    ensures pf.evals.Some? ==>
      |r.evals.value| == |pf.evals.value| &&
      forall i :: 0 <= i < |pf.evals.value| ==> r.evals.value[i] == rf(pf.evals.value[i])
  {
    BatchLCProof(
      MapSeq(q => PfFromMpc(rf, rg, q), pf.proof),
      MapOption(e => MapSeq(rf, e), pf.evals))
  }

  /**
   * `pf_publicize`: every part of the output is built from the same part of
   * the input alone. It has no failure path.
   */
  function PfPublicize<SF, SG, F, G>(rf: SF -> F, rg: SG -> G, k: Proof<SF, SG>): (r: Proof<F, G>)
    ensures |r.commitments| == |k.commitments|
    ensures forall i :: 0 <= i < |k.commitments| ==> |r.commitments[i]| == |k.commitments[i]|
    ensures forall i, j :: 0 <= i < |k.commitments| && 0 <= j < |k.commitments[i]| ==>
      r.commitments[i][j] == CommPublicize(rg, k.commitments[i][j])
    ensures |r.evaluations| == |k.evaluations|
    ensures forall i :: 0 <= i < |k.evaluations| ==> r.evaluations[i] == rf(k.evaluations[i])
    ensures |r.proverMessages| == |k.proverMessages|
    ensures forall i :: 0 <= i < |k.proverMessages| ==>
      r.proverMessages[i] == ProverMessagePublicize(rf, k.proverMessages[i])
    ensures r.pcProof == BatchPfPublicize(rf, rg, k.pcProof)
  {
    Proof(
      MapSeq(cs => MapSeq(c => CommPublicize(rg, c), cs), k.commitments),
      MapSeq(rf, k.evaluations),
      MapSeq(m => ProverMessagePublicize(rf, m), k.proverMessages),
      BatchPfPublicize(rf, rg, k.pcProof))
  }

  // ---------------------------------------------------------------------
  // Shape: the transcript with every leaf erased
  // ---------------------------------------------------------------------

  /** Forgets a leaf. */
  function EraseLeaf<T>(x: T): () { () }

  /**
   * The shape of a transcript: every leaf replaced by `()`. `SameShape`
   * spells out what two transcripts with equal shapes have in common.
   */
  function ShapeOf<F, G>(p: Proof<F, G>): Proof<(), ()>
  {
    PfPublicize(EraseLeaf, EraseLeaf, p)
  }

  /**
   * What equal shapes mean: equal lengths of every list, equal presence of
   * every optional part and equal tags of every prover-message round.
   */
  lemma SameShape<F, G>(p: Proof<F, G>, q: Proof<F, G>)
    requires ShapeOf(p) == ShapeOf(q)
    ensures |p.commitments| == |q.commitments|
    ensures forall i :: 0 <= i < |p.commitments| ==> |p.commitments[i]| == |q.commitments[i]|
    ensures forall i, j :: 0 <= i < |p.commitments| && 0 <= j < |p.commitments[i]| ==>
      (p.commitments[i][j].shiftedComm.Some? <==> q.commitments[i][j].shiftedComm.Some?)
    ensures |p.evaluations| == |q.evaluations|
    ensures |p.proverMessages| == |q.proverMessages|
    ensures forall i :: 0 <= i < |p.proverMessages| ==>
      (p.proverMessages[i].EmptyMessage? <==> q.proverMessages[i].EmptyMessage?) &&
      (p.proverMessages[i].FieldElements? ==> |p.proverMessages[i].elems| == |q.proverMessages[i].elems|)
    ensures |p.pcProof.proof| == |q.pcProof.proof|
    ensures forall i :: 0 <= i < |p.pcProof.proof| ==>
      (p.pcProof.proof[i].randomV.Some? <==> q.pcProof.proof[i].randomV.Some?)
    ensures p.pcProof.evals.Some? <==> q.pcProof.evals.Some?
    ensures p.pcProof.evals.Some? ==> |p.pcProof.evals.value| == |q.pcProof.evals.value|
  {
    var sp, sq := ShapeOf(p), ShapeOf(q);
    forall i, j | 0 <= i < |p.commitments| && 0 <= j < |p.commitments[i]|
      ensures p.commitments[i][j].shiftedComm.Some? <==> q.commitments[i][j].shiftedComm.Some?
    {
      assert sp.commitments[i] == sq.commitments[i];
      assert sp.commitments[i][j] == sq.commitments[i][j];
    }
    forall i | 0 <= i < |p.proverMessages|
      ensures p.proverMessages[i].EmptyMessage? <==> q.proverMessages[i].EmptyMessage?
      ensures p.proverMessages[i].FieldElements? ==> |p.proverMessages[i].elems| == |q.proverMessages[i].elems|
    {
      assert sp.proverMessages[i] == sq.proverMessages[i];
    }
    forall i | 0 <= i < |p.pcProof.proof|
      ensures p.pcProof.proof[i].randomV.Some? <==> q.pcProof.proof[i].randomV.Some?
    {
      assert sp.pcProof.proof[i] == sq.pcProof.proof[i];
    }
  }

  // ---------------------------------------------------------------------
  // Leaves, listed in order
  // ---------------------------------------------------------------------

  function ProverMsgFieldLeaves<F>(m: ProverMsg<F>): seq<F>
  {
    match m
    case EmptyMessage => []
    case FieldElements(d) => d
  }

  function OptionLeaves<T>(o: Option<T>): seq<T>
  {
    match o
    case None => []
    case Some(x) => [x]
  }

  function CommitmentGroupLeaves<G>(c: Commitment<G>): seq<G>
  {
    [c.comm.point] + OptionLeaves(MapOption((s: KzgCommitment<G>) => s.point, c.shiftedComm))
  }

  function CommitmentListGroupLeaves<G>(cs: seq<Commitment<G>>): seq<G>
  {
    FlatMap(CommitmentGroupLeaves, cs)
  }

  function KzgProofFieldLeaves<F, G>(q: KzgProof<F, G>): seq<F>
  {
    OptionLeaves(q.randomV)
  }

  function KzgProofGroupLeaves<F, G>(q: KzgProof<F, G>): seq<G>
  {
    [q.w]
  }

  function EvalsLeaves<F>(e: Option<seq<F>>): seq<F>
  {
    match e
    case None => []
    case Some(s) => s
  }

  /** The field leaves of a transcript: evaluations, prover messages, randomizers, claimed evaluations. */
  function FieldLeaves<F, G>(p: Proof<F, G>): seq<F>
  {
    p.evaluations
    + FlatMap(ProverMsgFieldLeaves, p.proverMessages)
    + FlatMap(KzgProofFieldLeaves, p.pcProof.proof)
    + EvalsLeaves(p.pcProof.evals)
  }

  /** The group leaves of a transcript: commitments (base, then shifted), then opening points. */
  function GroupLeaves<F, G>(p: Proof<F, G>): seq<G>
  {
    FlatMap(CommitmentListGroupLeaves, p.commitments)
    + FlatMap(KzgProofGroupLeaves, p.pcProof.proof)
  }

  // ---------------------------------------------------------------------
  // Publicizing twice is publicizing once with the composed reveal
  // ---------------------------------------------------------------------

  lemma ProverMessageCompose<A, B, C>(f1: A -> B, f2: B -> C, f3: A -> C, m: ProverMsg<A>)
    requires forall x :: f3(x) == f2(f1(x))
    ensures ProverMessagePublicize(f2, ProverMessagePublicize(f1, m)) == ProverMessagePublicize(f3, m)
  {
    if m.FieldElements? {
      MapSeqCompose(f1, f2, f3, m.elems);
    }
  }

  lemma BatchPfCompose<A, B, C, P, Q, R>(
    f1: A -> B, f2: B -> C, f3: A -> C, g1: P -> Q, g2: Q -> R, g3: P -> R, b: BatchLCProof<A, P>)
    requires forall x :: f3(x) == f2(f1(x))
    requires forall y :: g3(y) == g2(g1(y))
    ensures BatchPfPublicize(f2, g2, BatchPfPublicize(f1, g1, b)) == BatchPfPublicize(f3, g3, b)
  {
    if b.evals.Some? {
      MapSeqCompose(f1, f2, f3, b.evals.value);
    }
  }

  lemma CommCompose<P, Q, R>(g1: P -> Q, g2: Q -> R, g3: P -> R, c: Commitment<P>)
    requires forall y :: g3(y) == g2(g1(y))
    ensures CommPublicize(g2, CommPublicize(g1, c)) == CommPublicize(g3, c)
  {
  }

  /** `pf_publicize` is a structural map: publicizing twice is publicizing once with the composed reveals. */
  lemma PfPublicizeCompose<A, B, C, P, Q, R>(
    f1: A -> B, f2: B -> C, f3: A -> C, g1: P -> Q, g2: Q -> R, g3: P -> R, k: Proof<A, P>)
    requires forall x :: f3(x) == f2(f1(x))
    requires forall y :: g3(y) == g2(g1(y))
    ensures PfPublicize(f2, g2, PfPublicize(f1, g1, k)) == PfPublicize(f3, g3, k)
  {
    var mid := PfPublicize(f1, g1, k);
    var l, r := PfPublicize(f2, g2, mid), PfPublicize(f3, g3, k);
    forall i | 0 <= i < |k.commitments| ensures l.commitments[i] == r.commitments[i] {
      forall j | 0 <= j < |k.commitments[i]| ensures l.commitments[i][j] == r.commitments[i][j] {
        CommCompose(g1, g2, g3, k.commitments[i][j]);
      }
    }
    assert l.commitments == r.commitments;
    assert l.evaluations == r.evaluations;
    forall i | 0 <= i < |k.proverMessages| ensures l.proverMessages[i] == r.proverMessages[i] {
      ProverMessageCompose(f1, f2, f3, k.proverMessages[i]);
    }
    assert l.proverMessages == r.proverMessages;
    BatchPfCompose(f1, f2, f3, g1, g2, g3, k.pcProof);
  }

  /** Shape preservation: every length, every optional part's presence and every round tag is kept. */
  lemma PfPublicizePreservesShape<SF, SG, F, G>(rf: SF -> F, rg: SG -> G, k: Proof<SF, SG>)
    ensures ShapeOf(PfPublicize(rf, rg, k)) == ShapeOf(k)
  {
    PfPublicizeCompose(rf, EraseLeaf, EraseLeaf, rg, EraseLeaf, EraseLeaf, k);
  }

  /** Revealing with reveals that fix every leaf returns the transcript unchanged. */
  lemma PfPublicizeIdentity<F, G>(rf: F -> F, rg: G -> G, k: Proof<F, G>)
    requires forall x :: rf(x) == x
    requires forall y :: rg(y) == y
    ensures PfPublicize(rf, rg, k) == k
  {
    var r := PfPublicize(rf, rg, k);
    forall i | 0 <= i < |k.commitments| ensures r.commitments[i] == k.commitments[i] {
      forall j | 0 <= j < |k.commitments[i]| ensures r.commitments[i][j] == k.commitments[i][j] {
        var c := k.commitments[i][j];
        assert c.shiftedComm.Some? ==> MapOption(s => CommitFromMpc(rg, s), c.shiftedComm) == c.shiftedComm;
      }
    }
    assert r.commitments == k.commitments;
    assert r.evaluations == k.evaluations;
    forall i | 0 <= i < |k.proverMessages| ensures r.proverMessages[i] == k.proverMessages[i] {
      var m := k.proverMessages[i];
      if m.FieldElements? {
        MapSeqIdentity(rf, m.elems);
      }
    }
    assert r.proverMessages == k.proverMessages;
    var b := k.pcProof;
    assert r.pcProof.proof == b.proof;
    if b.evals.Some? {
      MapSeqIdentity(rf, b.evals.value);
    }
  }

  // ---------------------------------------------------------------------
  // Leaf correctness: output leaf i is the reveal of input leaf i
  // ---------------------------------------------------------------------

  lemma OptionLeavesMap<A, B>(f: A -> B, o: Option<A>)
    ensures OptionLeaves(MapOption(f, o)) == MapSeq(f, OptionLeaves(o))
  {
  }

  lemma CommPublicizeLeaves<SG, G>(rg: SG -> G, c: Commitment<SG>)
    ensures CommitmentGroupLeaves(CommPublicize(rg, c)) == MapSeq(rg, CommitmentGroupLeaves(c))
  {
    var r := CommPublicize(rg, c);
    if c.shiftedComm.Some? {
      assert CommitmentGroupLeaves(r) == [rg(c.comm.point), rg(c.shiftedComm.value.point)];
      assert CommitmentGroupLeaves(c) == [c.comm.point, c.shiftedComm.value.point];
    } else {
      assert CommitmentGroupLeaves(r) == [rg(c.comm.point)];
      assert CommitmentGroupLeaves(c) == [c.comm.point];
    }
  }

  lemma CommitmentListLeaves<SG, G>(rg: SG -> G, cs: seq<Commitment<SG>>, rs: seq<Commitment<G>>)
    requires |rs| == |cs|
    requires forall j :: 0 <= j < |cs| ==> rs[j] == CommPublicize(rg, cs[j])
    ensures CommitmentListGroupLeaves(rs) == MapSeq(rg, CommitmentListGroupLeaves(cs))
  {
    forall j | 0 <= j < |cs|
      ensures CommitmentGroupLeaves(rs[j]) == MapSeq(rg, CommitmentGroupLeaves(cs[j]))
    {
      CommPublicizeLeaves(rg, cs[j]);
    }
    FlatMapPointwise(CommitmentGroupLeaves, CommitmentGroupLeaves, rg, cs, rs);
  }

  /** Field leaf correctness: the field leaves of the output are the reveals of the input's, in order. */
  lemma {:induction false} PfPublicizeFieldLeaves<SF, SG, F, G>(rf: SF -> F, rg: SG -> G, k: Proof<SF, SG>)
    ensures |FieldLeaves(PfPublicize(rf, rg, k))| == |FieldLeaves(k)|
    ensures forall i :: 0 <= i < |FieldLeaves(k)| ==> FieldLeaves(PfPublicize(rf, rg, k))[i] == rf(FieldLeaves(k)[i])
  {
    var r := PfPublicize(rf, rg, k);
    forall i | 0 <= i < |k.proverMessages|
      ensures ProverMsgFieldLeaves(r.proverMessages[i]) == MapSeq(rf, ProverMsgFieldLeaves(k.proverMessages[i]))
    {
    }
    FlatMapPointwise(ProverMsgFieldLeaves, ProverMsgFieldLeaves, rf, k.proverMessages, r.proverMessages);
    forall i | 0 <= i < |k.pcProof.proof|
      ensures KzgProofFieldLeaves(r.pcProof.proof[i]) == MapSeq(rf, KzgProofFieldLeaves(k.pcProof.proof[i]))
    {
      OptionLeavesMap(rf, k.pcProof.proof[i].randomV);
    }
    FlatMapPointwise(KzgProofFieldLeaves, KzgProofFieldLeaves, rf, k.pcProof.proof, r.pcProof.proof);
    assert EvalsLeaves(r.pcProof.evals) == MapSeq(rf, EvalsLeaves(k.pcProof.evals));
    var e := k.evaluations;
    var m := FlatMap(ProverMsgFieldLeaves, k.proverMessages);
    var q := FlatMap(KzgProofFieldLeaves, k.pcProof.proof);
    var v := EvalsLeaves(k.pcProof.evals);
    MapSeqAppend(rf, e, m);
    MapSeqAppend(rf, e + m, q);
    MapSeqAppend(rf, e + m + q, v);
    assert FieldLeaves(r) == MapSeq(rf, FieldLeaves(k));
  }

  /** Group leaf correctness: the group leaves of the output are the reveals of the input's, in order. */
  lemma {:induction false} PfPublicizeGroupLeaves<SF, SG, F, G>(rf: SF -> F, rg: SG -> G, k: Proof<SF, SG>)
    ensures |GroupLeaves(PfPublicize(rf, rg, k))| == |GroupLeaves(k)|
    ensures forall i :: 0 <= i < |GroupLeaves(k)| ==> GroupLeaves(PfPublicize(rf, rg, k))[i] == rg(GroupLeaves(k)[i])
  {
    var r := PfPublicize(rf, rg, k);
    forall i | 0 <= i < |k.commitments|
      ensures CommitmentListGroupLeaves(r.commitments[i]) == MapSeq(rg, CommitmentListGroupLeaves(k.commitments[i]))
    {
      CommitmentListLeaves(rg, k.commitments[i], r.commitments[i]);
    }
    FlatMapPointwise(CommitmentListGroupLeaves, CommitmentListGroupLeaves, rg, k.commitments, r.commitments);
    forall i | 0 <= i < |k.pcProof.proof|
      ensures KzgProofGroupLeaves(r.pcProof.proof[i]) == MapSeq(rg, KzgProofGroupLeaves(k.pcProof.proof[i]))
    {
    }
    FlatMapPointwise(KzgProofGroupLeaves, KzgProofGroupLeaves, rg, k.pcProof.proof, r.pcProof.proof);
    MapSeqAppend(rg, FlatMap(CommitmentListGroupLeaves, k.commitments), FlatMap(KzgProofGroupLeaves, k.pcProof.proof));
    assert GroupLeaves(r) == MapSeq(rg, GroupLeaves(k));
  }

  // ---------------------------------------------------------------------
  // Shape and leaves determine a transcript
  // ---------------------------------------------------------------------

  lemma CommitmentDetermined<G>(c: Commitment<G>, d: Commitment<G>)
    requires CommPublicize(EraseLeaf, c) == CommPublicize(EraseLeaf, d)
    ensures |CommitmentGroupLeaves(c)| == |CommitmentGroupLeaves(d)|
    ensures CommitmentGroupLeaves(c) == CommitmentGroupLeaves(d) ==> c == d
  {
    assert c.shiftedComm.Some? <==> d.shiftedComm.Some?;
    if CommitmentGroupLeaves(c) == CommitmentGroupLeaves(d) {
      assert CommitmentGroupLeaves(c)[0] == c.comm.point;
      assert CommitmentGroupLeaves(d)[0] == d.comm.point;
      if c.shiftedComm.Some? {
        assert CommitmentGroupLeaves(c)[1] == c.shiftedComm.value.point;
        assert CommitmentGroupLeaves(d)[1] == d.shiftedComm.value.point;
      }
    }
  }

  lemma CommitmentListDetermined<G>(cs: seq<Commitment<G>>, ds: seq<Commitment<G>>)
    requires |cs| == |ds|
    requires forall j :: 0 <= j < |cs| ==> CommPublicize(EraseLeaf, cs[j]) == CommPublicize(EraseLeaf, ds[j])
    ensures |CommitmentListGroupLeaves(cs)| == |CommitmentListGroupLeaves(ds)|
    ensures CommitmentListGroupLeaves(cs) == CommitmentListGroupLeaves(ds) ==> cs == ds
  {
    forall j | 0 <= j < |cs|
      ensures |CommitmentGroupLeaves(cs[j])| == |CommitmentGroupLeaves(ds[j])|
      ensures CommitmentGroupLeaves(cs[j]) == CommitmentGroupLeaves(ds[j]) ==> cs[j] == ds[j]
    {
      CommitmentDetermined(cs[j], ds[j]);
    }
    FlatMapSameSizes(CommitmentGroupLeaves, cs, ds);
  }

  /**
   * A transcript is determined by its shape and its leaves: two transcripts
   * with the same shape, the same field leaves and the same group leaves are
   * equal.
   */
  lemma {:induction false} ShapeAndLeavesDetermine<F, G>(p: Proof<F, G>, q: Proof<F, G>)
    requires ShapeOf(p) == ShapeOf(q)
    requires FieldLeaves(p) == FieldLeaves(q)
    requires GroupLeaves(p) == GroupLeaves(q)
    ensures p == q
  {
    var sp, sq := ShapeOf(p), ShapeOf(q);
    // Commitments.
    forall i | 0 <= i < |p.commitments|
      ensures |CommitmentListGroupLeaves(p.commitments[i])| == |CommitmentListGroupLeaves(q.commitments[i])|
      ensures CommitmentListGroupLeaves(p.commitments[i]) == CommitmentListGroupLeaves(q.commitments[i]) ==>
        p.commitments[i] == q.commitments[i]
    {
      assert sp.commitments[i] == sq.commitments[i];
      CommitmentListDetermined(p.commitments[i], q.commitments[i]);
    }
    FlatMapSameSizes(CommitmentListGroupLeaves, p.commitments, q.commitments);
    // Opening proofs.
    var pp, qp := p.pcProof.proof, q.pcProof.proof;
    forall i | 0 <= i < |pp|
      ensures |KzgProofFieldLeaves(pp[i])| == |KzgProofFieldLeaves(qp[i])|
    {
      assert sp.pcProof.proof[i] == sq.pcProof.proof[i];
    }
    FlatMapSameSizes(KzgProofGroupLeaves, pp, qp);
    FlatMapSameSizes(KzgProofFieldLeaves, pp, qp);
    AppendCancel(FlatMap(CommitmentListGroupLeaves, p.commitments), FlatMap(KzgProofGroupLeaves, pp),
                 FlatMap(CommitmentListGroupLeaves, q.commitments), FlatMap(KzgProofGroupLeaves, qp));
    assert p.commitments == q.commitments;
    // Prover messages.
    forall i | 0 <= i < |p.proverMessages|
      ensures |ProverMsgFieldLeaves(p.proverMessages[i])| == |ProverMsgFieldLeaves(q.proverMessages[i])|
    {
      assert sp.proverMessages[i] == sq.proverMessages[i];
    }
    FlatMapSameSizes(ProverMsgFieldLeaves, p.proverMessages, q.proverMessages);
    // Field leaves, split into their four parts.
    var e, m, r, v := p.evaluations, FlatMap(ProverMsgFieldLeaves, p.proverMessages),
                      FlatMap(KzgProofFieldLeaves, pp), EvalsLeaves(p.pcProof.evals);
    var e', m', r', v' := q.evaluations, FlatMap(ProverMsgFieldLeaves, q.proverMessages),
                          FlatMap(KzgProofFieldLeaves, qp), EvalsLeaves(q.pcProof.evals);
    AppendCancel(e + m + r, v, e' + m' + r', v');
    AppendCancel(e + m, r, e' + m', r');
    AppendCancel(e, m, e', m');
    forall i | 0 <= i < |p.proverMessages| ensures p.proverMessages[i] == q.proverMessages[i] {
      assert sp.proverMessages[i] == sq.proverMessages[i];
    }
    assert p.proverMessages == q.proverMessages;
    forall i | 0 <= i < |pp| ensures pp[i] == qp[i] {
      assert sp.pcProof.proof[i] == sq.pcProof.proof[i];
      assert [pp[i].w] == [qp[i].w];
    }
    assert pp == qp;
    assert p.pcProof.evals.Some? <==> q.pcProof.evals.Some?;
  }

  /**
   * `pf_publicize` characterised without its body: its output is the one
   * transcript that has the input's shape and whose leaves are the input's
   * leaves revealed one by one, in order.
   */
  lemma PfPublicizeCharacterized<SF, SG, F, G>(rf: SF -> F, rg: SG -> G, k: Proof<SF, SG>, q: Proof<F, G>)
    ensures q == PfPublicize(rf, rg, k) <==>
      ShapeOf(q) == ShapeOf(k) &&
      FieldLeaves(q) == MapSeq(rf, FieldLeaves(k)) &&
      GroupLeaves(q) == MapSeq(rg, GroupLeaves(k))
  {
    var r := PfPublicize(rf, rg, k);
    PfPublicizePreservesShape(rf, rg, k);
    PfPublicizeFieldLeaves(rf, rg, k);
    PfPublicizeGroupLeaves(rf, rg, k);
    assert FieldLeaves(r) == MapSeq(rf, FieldLeaves(k));
    assert GroupLeaves(r) == MapSeq(rg, GroupLeaves(k));
    if ShapeOf(q) == ShapeOf(k) && FieldLeaves(q) == MapSeq(rf, FieldLeaves(k)) && GroupLeaves(q) == MapSeq(rg, GroupLeaves(k)) {
      ShapeAndLeavesDetermine(q, r);
    }
  }

  /**
   * No cross-leaf mixing: the output depends on the reveals only at the
   * input's own leaves, so reveals that agree there give the same output.
   */
  lemma PfPublicizeLocal<SF, SG, F, G>(rf: SF -> F, rg: SG -> G, rf': SF -> F, rg': SG -> G, k: Proof<SF, SG>)
    requires forall x :: x in FieldLeaves(k) ==> rf(x) == rf'(x)
    requires forall y :: y in GroupLeaves(k) ==> rg(y) == rg'(y)
    ensures PfPublicize(rf, rg, k) == PfPublicize(rf', rg', k)
  {
    var r := PfPublicize(rf, rg, k);
    assert MapSeq(rf, FieldLeaves(k)) == MapSeq(rf', FieldLeaves(k));
    assert MapSeq(rg, GroupLeaves(k)) == MapSeq(rg', GroupLeaves(k));
    PfPublicizeCharacterized(rf, rg, k, r);
    PfPublicizeCharacterized(rf', rg', k, r);
  }
}
