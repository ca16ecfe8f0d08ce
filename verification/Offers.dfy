/** What the sender makes of a proposal (send_bundle_inner and get_bundle_tx in
    bundle_sender.rs). */
module Offers {
  import opened Primitives
  import opened Lists
  import opened UserOps
  import opened Proposal
  import opened Assembly
  import opened AssemblyLaws
  import opened Retrying
  import opened BundleProposer
  import opened Percent
  import opened Tracking
  import Machines
  import Builders

  function OpSenders(ops: seq<Op>): set<Address> {
    set i | 0 <= i < |ops| :: ops[i].sender
  }

  /** A bundle without operations is not sent. */
  function OfferOf(r: ProposerResult, fees: GasFees, answer: SendAnswer): Machines.Offer
    requires !r.Unfinished?
  {
    match r
    case Made(b) =>
      if b.groups == [] then Machines.NothingAfterSimulation
      else Machines.Offered(fees, OpSenders(Flat(b.groups)), answer)
    case NoOperationsAfterFeeFilter => Machines.NothingAfterFees
    case ProposerError => Machines.ProposerFailed
  }

  /** A bundle with operations is offered with exactly their senders; everything else is told apart. */
  lemma OfferExactly(r: ProposerResult, fees: GasFees, answer: SendAnswer)
    requires !r.Unfinished?
    ensures var offer := OfferOf(r, fees, answer);
            && (offer.Offered? <==> r.Made? && r.bundle.groups != [])
            && (offer.Offered? ==> offer == Machines.Offered(fees, offer.senders, answer))
            && (offer.Offered? ==>
                  forall a :: a in offer.senders <==> exists op :: op in Flat(r.bundle.groups) && op.sender == a)
            && (offer.NothingAfterSimulation? <==> r.Made? && r.bundle.groups == [])
            && (offer.NothingAfterFees? <==> r.NoOperationsAfterFeeFilter?)
            && (offer.ProposerFailed? <==> r.ProposerError?)
  {
    if r.Made? && r.bundle.groups != [] {
      var ops := Flat(r.bundle.groups);
      forall a ensures a in OpSenders(ops) <==> exists op :: op in ops && op.sender == a {
        if op :| op in ops && op.sender == a {
          var i :| 0 <= i < |ops| && ops[i] == op;
        }
      }
    }
  }

  /** A bundle has only operations that were given to the proposer. */
  lemma BundledGiven(b: Bundle, skipped: seq<Op>, cs: seq<Candidate>, ops: seq<Op>)
    requires Conserved(b, skipped, cs) && Subseq(CandidateOps(cs), ops)
    ensures OpSenders(Flat(b.groups)) <= OpSenders(ops)
  {
    var bundled := Flat(b.groups);
    forall i | 0 <= i < |bundled| ensures bundled[i].sender in OpSenders(ops) {
      CountMember(bundled, bundled[i]);
      CountMember(CandidateOps(cs), bundled[i]);
      SubseqMember(CandidateOps(cs), ops, bundled[i]);
    }
  }

  /** A bundle of some of these operations. */
  method AskProposer(ops: seq<Op>, limits: Limits, deposits: map<Address, nat>, isV06: bool, notified: bool,
                     world: World, rounds: nat)
    returns (r: ProposerResult)
    requires forall i | 0 <= i < |ops| && ops[i].paymaster.Some? :: ops[i].infos.paymaster.Some?
    ensures r.NoOperationsAfterFeeFilter? <==> ops == []
    ensures r.Made? ==> OpSenders(Flat(r.bundle.groups)) <= OpSenders(ops)
  {
    ghost var cs, lim;
    r, cs, lim := MakeBundle(ops, limits, deposits, isV06, notified, world, rounds);
    if r.Made? { BundledGiven(r.bundle, DraftOf(cs, lim, deposits).skipped, cs, ops); }
  }

  /** A builder that holds operations asks the proposer for a bundle of them: it can always go
      on with what it gets, since that has only senders it holds. */
  method MakeOffer(ops: seq<Op>, limits: Limits, deposits: map<Address, nat>, isV06: bool, notified: bool,
                   world: World, rounds: nat, fees: GasFees, answer: SendAnswer, ghost b: Builders.Builder)
    returns (offer: Option<Machines.Offer>)
    requires forall i | 0 <= i < |ops| && ops[i].paymaster.Some? :: ops[i].infos.paymaster.Some?
    requires b.phase.Holding? && b.machine.inner.Building? && OpSenders(ops) <= b.phase.ops
    ensures offer.Some? && offer.value.Offered? ==> offer.value.senders <= OpSenders(ops)
    ensures offer.Some? && offer.value.NothingAfterFees? <==> ops == []
    ensures offer.Some? ==> forall block, account :: Builders.Enabled(b, Builders.Send(offer.value, block, account))
  {
    var r := AskProposer(ops, limits, deposits, isV06, notified, world, rounds);
    offer := if r.Unfinished? then None else Some(OfferOf(r, fees, answer));
  }
}
