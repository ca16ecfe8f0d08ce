/** What a proposal comes to, as a function of the answers from outside: the draft, less what
    is rejected, round after round, until the entry point accepts the rest (make_bundle in
    bundle_proposer.rs). */
module Retrying {
  import opened Primitives
  import opened Lists
  import opened Loops
  import opened Percent
  import opened UserOps
  import opened Proposal
  import opened Rejections
  import opened Rounds
  import opened Reactions
  import opened Positions
  import opened BundleGas
  import opened Assembly
  import opened AssemblyLaws
  import opened Signing

  const U64_MAX := 0xFFFF_FFFF_FFFF_FFFF

  /** What the proposer is told from outside: the simulation of each operation (or that it
      is to be skipped), the entry point's answer to each candidate bundle, the aggregators'
      answers, and the positions of operations whose expected storage no longer holds. Answers
      are functions: a bundle is asked about again only if a round left its groups unchanged,
      and then gets the same answer. */
  datatype World = World(
    simulate: Op -> Option<Verdict>, handleOps: seq<Group> -> Answer, sign: Signer, unmet: seq<Op> -> seq<nat>)

  // ---------------------------------------------------------------- assembly

  function RejectEach(c: Context, blamed: seq<EntityInfo>): (r: Context) {
    if blamed == [] then c
    else
      var n := |blamed| - 1;
      RejectEntity(RejectEach(c, blamed[..n]), blamed[n].entity, blamed[n].isStaked)
  }

  function KeysInOrder(gs: seq<Group>): (r: seq<Address>)
    ensures |r| == |gs| && forall k | 0 <= k < |gs| :: r[k] == gs[k].key
  {
    seq(|gs|, k requires 0 <= k < |gs| => gs[k].key)
  }

  function SignEach(c: Context, sign: Signer): Context {
    ResignAll(c, Asked(c.groups, KeysInOrder(c.groups)), sign)
  }

  /** Once all groups are signed, every group left is validly signed. */
  lemma SignEachFresh(c: Context, sign: Signer)
    requires Ok(c)
    ensures AllFresh(SignEach(c, sign).groups)
  {
    var keys := KeysInOrder(c.groups);
    var asked := Asked(c.groups, keys);
    forall k | 0 <= k < |c.groups| && c.groups[k].key != ZERO ensures c.groups[k].key in asked {
      FindUnique(c.groups, c.groups[k].key);
      AskedExactly(c.groups, keys, keys[k]);
    }
    AskedExactly(c.groups, keys, ZERO);
    ResignAllFresh(c, asked, sign, |asked|);
    assert asked[..|asked|] == asked;
  }

  lemma AssembledFresh(cs: seq<Candidate>, lim: Limits, deposits: map<Address, nat>, sign: Signer)
    requires CandidatesOk(cs, lim.spec)
    ensures AllFresh(Assembled(cs, lim, deposits, sign).groups)
  {
    if lim.maxFee > 0 {
      var d := Draw(deposits, cs, lim);
      DrawSound(deposits, cs, lim);
      RejectEachKeeps(d.ctx, d.blamed);
      SignEachFresh(RejectEach(d.ctx, d.blamed), sign);
    }
  }

  /** The draft, less the paymasters that cannot pay and the groups that cannot be signed;
      nothing at all if nothing may be spent. */
  function Assembled(cs: seq<Candidate>, lim: Limits, deposits: map<Address, nat>, sign: Signer): Context
    requires CandidatesOk(cs, lim.spec)
  {
    if lim.maxFee == 0 then EMPTY
    else var d := Draw(deposits, cs, lim); SignEach(RejectEach(d.ctx, d.blamed), sign)
  }

  /** Each entity in turn loses all its operations and is invalidated as its info says. */
  lemma RejectEachExactly(c: Context, blamed: seq<EntityInfo>, info: EntityInfo)
    ensures EntityGone(RejectEach(c, blamed), RejectEach(c, blamed + [info]), info.entity, info.isStaked)
  {
    assert (blamed + [info])[..|blamed|] == blamed;
    RejectEntityExactly(RejectEach(c, blamed), info.entity, info.isStaked);
  }

  lemma {:induction false} RejectEachKeeps(c: Context, blamed: seq<EntityInfo>)
    requires Ok(c)
    ensures Rejects(c, RejectEach(c, blamed))
    decreases |blamed|
  {
    if blamed == [] {
      RejectsRefl(c);
    } else {
      var n := |blamed| - 1;
      RejectEachKeeps(c, blamed[..n]);
      RejectEntityKeeps(RejectEach(c, blamed[..n]), blamed[n].entity, blamed[n].isStaked);
      RejectsTrans(c, RejectEach(c, blamed[..n]), RejectEach(c, blamed));
    }
  }

  /** With nothing to spend, nothing is bundled and nobody is rejected. */
  lemma NothingToSpend(cs: seq<Candidate>, lim: Limits, deposits: map<Address, nat>, sign: Signer)
    requires CandidatesOk(cs, lim.spec) && lim.maxFee == 0
    ensures Assembled(cs, lim, deposits, sign) == Context([], [], map[], [])
  {
  }

  /** None of the operations is left, and the address is invalidated. */
  predicate LostAll(c: Context, x: Op, a: Address) {
    Count(Flat(c.groups), x) == 0 && Invalidated(c.updates, a)
  }

  lemma LosesAll(c: Context, info: EntityInfo, x: Op)
    requires AnswersFor(info.entity, x)
    ensures LostAll(RejectEntity(c, info.entity, info.isStaked), x, info.entity.address)
  {
    RejectEntityExactly(c, info.entity, info.isStaked);
  }

  lemma StaysLost(c: Context, c': Context, x: Op, a: Address)
    requires Rejects(c, c') && LostAll(c, x, a)
    ensures LostAll(c', x, a)
  {
    StillGone(c, c', x);
  }

  /** A blamed entity is invalidated and none of its operations is left. */
  lemma {:induction false} RejectEachGone(c: Context, blamed: seq<EntityInfo>, k: nat, x: Op)
    requires Ok(c) && k < |blamed| && AnswersFor(blamed[k].entity, x)
    ensures LostAll(RejectEach(c, blamed), x, blamed[k].entity.address)
    decreases |blamed|
  {
    var before, last := blamed[..|blamed| - 1], blamed[|blamed| - 1];
    var c' := RejectEach(c, before);
    if k == |blamed| - 1 {
      LosesAll(c', last, x);
    } else {
      RejectEachKeeps(c, before);
      RejectEachGone(c, before, k, x);
      RejectEntityKeeps(c', last.entity, last.isStaked);
      StaysLost(c', RejectEntity(c', last.entity, last.isStaked), x, blamed[k].entity.address);
    }
  }

  /** A paymaster that could not pay for all its candidates has none of them bundled. */
  lemma ShortLosesAll(cs: seq<Candidate>, lim: Limits, deposits: map<Address, nat>, sign: Signer,
                      info: EntityInfo, x: Op)
    requires CandidatesOk(cs, lim.spec) && lim.maxFee > 0
    requires info in Draw(deposits, cs, lim).blamed && AnswersFor(info.entity, x)
    ensures LostAll(Assembled(cs, lim, deposits, sign), x, info.entity.address)
  {
    var d := Draw(deposits, cs, lim);
    var k :| 0 <= k < |d.blamed| && d.blamed[k] == info;
    DrawSound(deposits, cs, lim);
    RejectEachKeeps(d.ctx, d.blamed);
    RejectEachGone(d.ctx, d.blamed, k, x);
    var c := RejectEach(d.ctx, d.blamed);
    ResignAllKeeps(c, Asked(c.groups, KeysInOrder(c.groups)), sign);
    StaysLost(c, SignEach(c, sign), x, info.entity.address);
  }

  /** The draft an assembled proposal comes from: with nothing to spend, one that skips all. */
  function DraftOf(cs: seq<Candidate>, lim: Limits, deposits: map<Address, nat>): Draft
    requires CandidatesOk(cs, lim.spec)
  {
    if lim.maxFee == 0 then Start(deposits).(skipped := CandidateOps(cs)) else Draw(deposits, cs, lim)
  }

  lemma DraftOfSound(cs: seq<Candidate>, lim: Limits, deposits: map<Address, nat>)
    requires CandidatesOk(cs, lim.spec)
    ensures Sound(DraftOf(cs, lim, deposits), cs, deposits, lim)
            && Supported(DraftOf(cs, lim, deposits).ctx.groups, lim.spec)
  {
    if lim.maxFee == 0 {
      assert forall s :: Surplus(EMPTY, s) == 0;
    } else {
      DrawSound(deposits, cs, lim);
    }
  }

  lemma AssembledRejects(cs: seq<Candidate>, lim: Limits, deposits: map<Address, nat>, sign: Signer)
    requires CandidatesOk(cs, lim.spec)
    ensures Rejects(DraftOf(cs, lim, deposits).ctx, Assembled(cs, lim, deposits, sign))
  {
    DraftOfSound(cs, lim, deposits);
    var d := DraftOf(cs, lim, deposits);
    if lim.maxFee == 0 {
      RejectsRefl(EMPTY);
    } else {
      var c := RejectEach(d.ctx, d.blamed);
      RejectEachKeeps(d.ctx, d.blamed);
      ResignAllKeeps(c, Asked(c.groups, KeysInOrder(c.groups)), sign);
      RejectsTrans(d.ctx, c, SignEach(c, sign));
    }
  }

  // ---------------------------------------------------------------- the rounds

  /** What the rounds come to: an accepted bundle, nothing left, a failed call, or the same
      bundle again and again. */
  datatype Conclusion = Done(ctx: Context, gas: nat) | Emptied(ctx: Context) | GaveUp | Stalled

  predicate NeedsNoCall(c: Context, isV06: bool) {
    !isV06 && |Flat(c.groups)| == 1
  }

  /** The entry point is asked about the bundle and does not accept it. */
  predicate Refuses(c: Context, spec: ChainSpec, isV06: bool, world: World)
    requires Supported(c.groups, spec)
  {
    && c.groups != [] && GasEstimate(c.groups, spec) <= U64_MAX && !NeedsNoCall(c, isV06)
    && !world.handleOps(c.groups).Success?
  }

  function Round(c: Context, world: World): Outcome
    requires !world.handleOps(c.groups).Success?
  {
    React(c, world.handleOps(c.groups), world.sign)
  }

  /** The answer blames an aggregator that the bundle does not use. */
  predicate BlamesAbsent(c: Context, world: World) {
    var answer := world.handleOps(c.groups);
    answer.SignatureValidationFailed? && !Present(Flat(c.groups), answer.aggregator)
  }

  function Retries(c: Context, spec: ChainSpec, isV06: bool, world: World): (r: Conclusion)
    requires Ok(c) && Supported(c.groups, spec)
    decreases |Flat(c.groups)|
  {
    if c.groups == [] then Emptied(c)
    else if GasEstimate(c.groups, spec) > U64_MAX then GaveUp
    else if !Refuses(c, spec, isV06, world) then Done(c, GasEstimate(c.groups, spec))
    else if Round(c, world).Failed? then GaveUp
    else
      RoundKeeps(c, spec, world);
      if BlamesAbsent(c, world) then Stalled else Retries(Round(c, world).context, spec, isV06, world)
  }

  /** A round that is to be retried leaves a proposal in order, and a smaller one exactly if
      no absent aggregator was blamed. */
  lemma {:induction false} RoundKeeps(c: Context, spec: ChainSpec, world: World)
    requires Ok(c) && Supported(c.groups, spec) && c.groups != []
    requires !world.handleOps(c.groups).Success? && Round(c, world).Retry?
    ensures var c' := Round(c, world).context;
            && Rejects(c, c') && Supported(c'.groups, spec)
            && (|Flat(c'.groups)| < |Flat(c.groups)| <==> !BlamesAbsent(c, world))
  {
    RoundShrinks(c, world.handleOps(c.groups), world.sign);
    LimitsShrink(Round(c, world).context.groups, c.groups, spec, true);
  }

  // ---------------------------------------------------------------- whether the rounds end

  /** One turn of the loop: a bundle that is refused, and that the round leaves to be tried
      again. The loop is left as soon as there is none. */
  ghost function Turn(c: Context, spec: ChainSpec, isV06: bool, world: World): (r: Option<Context>) {
    if Ok(c) && Supported(c.groups, spec) && Refuses(c, spec, isV06, world) && Round(c, world).Retry?
    then Some(Round(c, world).context) else None
  }

  /** Turns, as a function of the proposal only: the entry point gives the same answer to the
      same bundle. */
  ghost function Turns(spec: ChainSpec, isV06: bool, world: World): Context -> Option<Context> {
    c => Turn(c, spec, isV06, world)
  }

  /** Bundles that are refused because of an aggregator they do not use. */
  ghost function Stuck(spec: ChainSpec, isV06: bool, world: World): Context -> bool {
    c => Ok(c) && Supported(c.groups, spec) && Refuses(c, spec, isV06, world) && BlamesAbsent(c, world)
  }

  ghost function Size(): Context -> nat {
    (c: Context) => |Flat(c.groups)|
  }

  /** A stuck bundle is left with the same groups, so it stays stuck. */
  lemma StuckStays(c: Context, spec: ChainSpec, isV06: bool, world: World)
    requires Stuck(spec, isV06, world)(c)
    ensures var next := Turn(c, spec, isV06, world);
            next.Some? && next.value.groups == c.groups && Stuck(spec, isV06, world)(next.value)
  {
    AbsentAggregatorStalls(c, world.handleOps(c.groups).aggregator, world.sign);
    RoundKeeps(c, spec, world);
  }

  lemma TurnsMeasured(spec: ChainSpec, isV06: bool, world: World)
    ensures Measured(Turns(spec, isV06, world), Stuck(spec, isV06, world), Size())
  {
    forall c: Context
      ensures Stuck(spec, isV06, world)(c) ==>
                Turn(c, spec, isV06, world).Some? && Stuck(spec, isV06, world)(Turn(c, spec, isV06, world).value)
      ensures Turn(c, spec, isV06, world).Some? && !Stuck(spec, isV06, world)(c) ==>
                |Flat(Turn(c, spec, isV06, world).value.groups)| < |Flat(c.groups)|
    {
      if Stuck(spec, isV06, world)(c) {
        StuckStays(c, spec, isV06, world);
      } else if Turn(c, spec, isV06, world).Some? {
        RoundKeeps(c, spec, world);
      }
    }
  }

  lemma {:induction false} StalledStuck(c: Context, spec: ChainSpec, isV06: bool, world: World)
    requires Ok(c) && Supported(c.groups, spec)
    ensures Retries(c, spec, isV06, world).Stalled? <==>
            Reaches(c, Turns(spec, isV06, world), Stuck(spec, isV06, world))
    decreases |Flat(c.groups)|
  {
    var turns, stuck := Turns(spec, isV06, world), Stuck(spec, isV06, world);
    if stuck(c) {
      ReachedNow(c, turns, stuck);
    } else if Turn(c, spec, isV06, world).Some? {
      RoundKeeps(c, spec, world);
      StalledStuck(Round(c, world).context, spec, isV06, world);
      ReachedLater(c, turns, stuck);
    } else {
      NotReached(c, turns, stuck);
    }
  }

  /** The loop goes on for ever exactly if a bundle it reaches is refused because of an
      aggregator the bundle does not use; `Retries` calls that stalled. Otherwise it ends
      after at most as many turns as there are operations. */
  lemma StallsExactly(c: Context, spec: ChainSpec, isV06: bool, world: World)
    requires Ok(c) && Supported(c.groups, spec)
    ensures Retries(c, spec, isV06, world).Stalled? <==> NeverEnds(c, Turns(spec, isV06, world))
    ensures NeverEnds(c, Turns(spec, isV06, world)) <==>
            Reaches(c, Turns(spec, isV06, world), Stuck(spec, isV06, world))
    ensures NeverEnds(c, Turns(spec, isV06, world)) <==>
            Iterate(c, |Flat(c.groups)| + 1, Turns(spec, isV06, world)).Some?
  {
    var turns, stuck := Turns(spec, isV06, world), Stuck(spec, isV06, world);
    StalledStuck(c, spec, isV06, world);
    TurnsMeasured(spec, isV06, world);
    EndsUnlessStuck(c, turns, stuck, Size());
    if !Reaches(c, turns, stuck) { EndsWithin(c, |Flat(c.groups)| + 1, turns, stuck, Size()); }
  }

  /** Where the rounds lead does not change on the way. */
  lemma RetriesAfter(c: Context, n: nat, spec: ChainSpec, isV06: bool, world: World)
    requires Ok(c) && Supported(c.groups, spec) && Iterate(c, n, Turns(spec, isV06, world)).Some?
    ensures var at := Iterate(c, n, Turns(spec, isV06, world)).value;
            && Ok(at) && Supported(at.groups, spec)
            && Retries(at, spec, isV06, world) == Retries(c, spec, isV06, world)
  {
    var end, turns := Retries(c, spec, isV06, world), Turns(spec, isV06, world);
    var leads := x => Ok(x) && Supported(x.groups, spec) && Retries(x, spec, isV06, world) == end;
    forall x: Context | leads(x) && turns(x).Some? ensures leads(turns(x).value) {
      RetriesNext(x, spec, isV06, world);
    }
    IterateKeeps(c, n, turns, leads);
  }

  lemma RetriesNext(c: Context, spec: ChainSpec, isV06: bool, world: World)
    requires Ok(c) && Supported(c.groups, spec) && Turn(c, spec, isV06, world).Some?
    ensures var next := Turn(c, spec, isV06, world).value;
            && Ok(next) && Supported(next.groups, spec)
            && Retries(next, spec, isV06, world) == Retries(c, spec, isV06, world)
  {
    RoundKeeps(c, spec, world);
    if BlamesAbsent(c, world) { StuckStays(c, spec, isV06, world); }
  }

  /** Bundles that are too large for a transaction, or make a round necessary that fails. */
  ghost function Hopeless(spec: ChainSpec, isV06: bool, world: World): Context -> bool {
    c => && Ok(c) && Supported(c.groups, spec) && c.groups != []
         && (|| GasEstimate(c.groups, spec) >= 0x1_0000_0000_0000_0000
             || (Refuses(c, spec, isV06, world) && Round(c, world).Failed?))
  }

  /** The rounds are given up exactly if such a bundle is reached. */
  lemma {:induction false} GivesUpExactly(c: Context, spec: ChainSpec, isV06: bool, world: World)
    requires Ok(c) && Supported(c.groups, spec)
    ensures Retries(c, spec, isV06, world).GaveUp? <==>
            Reaches(c, Turns(spec, isV06, world), Hopeless(spec, isV06, world))
    decreases |Flat(c.groups)|
  {
    var turns, hopeless := Turns(spec, isV06, world), Hopeless(spec, isV06, world);
    if hopeless(c) {
      ReachedNow(c, turns, hopeless);
    } else if Turn(c, spec, isV06, world).Some? {
      RoundKeeps(c, spec, world);
      if BlamesAbsent(c, world) {
        StalledNotHopeless(c, spec, isV06, world);
      } else {
        ReachedLater(c, turns, hopeless);
        GivesUpExactly(Round(c, world).context, spec, isV06, world);
      }
    } else {
      NotReached(c, turns, hopeless);
    }
  }

  lemma StalledNotHopeless(c: Context, spec: ChainSpec, isV06: bool, world: World)
    requires Stuck(spec, isV06, world)(c)
    ensures !Reaches(c, Turns(spec, isV06, world), Hopeless(spec, isV06, world))
  {
    var turns, stuck := Turns(spec, isV06, world), Stuck(spec, isV06, world);
    forall x: Context | stuck(x) && turns(x).Some? ensures stuck(turns(x).value) { StuckStays(x, spec, isV06, world); }
    forall n: nat ensures !ReachedAfter(c, n, turns, Hopeless(spec, isV06, world)) {
      IterateKeeps(c, n, turns, stuck);
    }
  }

  /** After so many turns nothing is left, unless the loop never ends. */
  lemma NothingLeft(c: Context, n: nat, spec: ChainSpec, isV06: bool, world: World)
    requires Ok(c) && Supported(c.groups, spec) && n >= |Flat(c.groups)|
    requires !NeverEnds(c, Turns(spec, isV06, world))
    ensures var at := Iterate(c, n, Turns(spec, isV06, world)); at.Some? ==> at.value.groups == []
  {
    var turns, stuck := Turns(spec, isV06, world), Stuck(spec, isV06, world);
    StallsExactly(c, spec, isV06, world);
    TurnsMeasured(spec, isV06, world);
    if Iterate(c, n, turns).Some? {
      Shrunk(c, n, turns, stuck, Size());
      TurnsKeep(c, n, spec, isV06, world);
    }
  }

  lemma TurnsKeep(c: Context, n: nat, spec: ChainSpec, isV06: bool, world: World)
    requires Ok(c) && Supported(c.groups, spec)
    ensures var at := Iterate(c, n, Turns(spec, isV06, world)); at.Some? ==> WellFormed(at.value.groups)
  {
    var turns := Turns(spec, isV06, world);
    forall x: Context | Ok(x) && turns(x).Some? ensures Ok(turns(x).value) { RoundKeeps(x, spec, world); }
    IterateKeeps(c, n, turns, x => Ok(x));
  }

  /** The entry point blames only aggregators that the bundle uses. */
  ghost predicate BlamesPresent(world: World) {
    forall gs | WellFormed(gs) && world.handleOps(gs).SignatureValidationFailed? ::
      Present(Flat(gs), world.handleOps(gs).aggregator)
  }

  lemma NeverStalls(c: Context, spec: ChainSpec, isV06: bool, world: World)
    requires Ok(c) && Supported(c.groups, spec) && BlamesPresent(world)
    ensures !Retries(c, spec, isV06, world).Stalled?
  {
    StallsExactly(c, spec, isV06, world);
  }

  /** Once accepted, and if told that conditions failed before, they are checked once more. */
  function Conclude(c: Context, spec: ChainSpec, isV06: bool, notified: bool, world: World): (r: Conclusion)
    requires Ok(c) && Supported(c.groups, spec)
  {
    var r := Retries(c, spec, isV06, world);
    if r.Done? && notified then CheckAgain(r.ctx, r.gas, world) else r
  }

  function CheckAgain(c: Context, gas: nat, world: World): (r: Conclusion) {
    var checked := Ascend(c, world.unmet(Flat(c.groups)), world.sign);
    if checked.Failed? then GaveUp
    else if checked.context.groups == [] then Emptied(checked.context)
    else Done(checked.context, gas)
  }

  /** If the conditions of all operations fail, two or more of them end in an error, and not in
      an empty bundle. */
  lemma AllUnmet(c: Context, gas: nat, world: World)
    requires Ok(c) && world.unmet(Flat(c.groups)) == Range(0, |Flat(c.groups)|) && c.groups != []
    requires ResignsAscending(c, Range(0, |Flat(c.groups)|), world.sign)
    ensures CheckAgain(c, gas, world).GaveUp? <==> |Flat(c.groups)| >= 2
    ensures CheckAgain(c, gas, world).Emptied? <==> |Flat(c.groups)| == 1
  {
    AscendAll(c, world.sign);
    AscendCounts(c, Range(0, |Flat(c.groups)|), world.sign);
    AscendKeeps(c, Range(0, |Flat(c.groups)|), world.sign);
    RangeAt(0, |Flat(c.groups)|);
  }

  /** Conditions are checked exactly if some failed before: then what is returned is what is left of
      the accepted bundle once the operations listed as unmet were rejected upwards, at the gas that
      was accepted. */
  lemma ChecksExactly(c: Context, spec: ChainSpec, isV06: bool, notified: bool, world: World)
    requires Ok(c) && Supported(c.groups, spec)
    ensures var r, end := Retries(c, spec, isV06, world), Conclude(c, spec, isV06, notified, world);
            if !r.Done? || !notified then end == r
            else
              var left := Ascend(r.ctx, world.unmet(Flat(r.ctx.groups)), world.sign);
              && (end.GaveUp? <==> left.Failed?)
              && (end.Done? ==> left == Retry(end.ctx) && end.gas == r.gas && end.ctx.groups != [])
              && (end.Emptied? ==> left == Retry(end.ctx) && end.ctx.groups == [])
              && !end.Stalled?
  {
  }

  /** A single operation whose conditions fail is dropped, and nothing else is, if its group can be
      signed again. */
  lemma OneUnmet(c: Context, gas: nat, world: World, p: nat)
    requires Ok(c) && p < |Flat(c.groups)| && |Flat(c.groups)| >= 2 && world.unmet(Flat(c.groups)) == [p]
    requires ResignsAscending(c, [p], world.sign)
    ensures var end := CheckAgain(c, gas, world);
            end.Done? && end.gas == gas && Flat(end.ctx.groups) == RemoveAt(Flat(c.groups), p)
  {
    assert [p][1..] == [];
    RejectAndSignEffect(c, p, false, world.sign);
    assert Ascend(c, [p], world.sign) == Retry(RejectAndSign(c, p, false, world.sign));
  }

  lemma {:induction false} AscendKeeps(c: Context, positions: seq<nat>, sign: Signer)
    requires Ok(c)
    ensures Ascend(c, positions, sign).Retry? ==> Rejects(c, Ascend(c, positions, sign).context)
    decreases |positions|
  {
    if positions == [] {
      RejectsRefl(c);
    } else if positions[0] < |Flat(c.groups)| {
      var c' := RejectAndSign(c, positions[0], false, sign);
      RejectAndSignEffect(c, positions[0], false, sign);
      AscendKeeps(c', positions[1..], sign);
      if Ascend(c, positions, sign).Retry? { RejectsTrans(c, c', Ascend(c, positions, sign).context); }
    }
  }

  /** What the rounds come to was accepted by the entry point as it is, or is a single
      operation that need not be asked about. */
  lemma {:induction false} RetriesAccepted(c: Context, spec: ChainSpec, isV06: bool, world: World)
    requires Ok(c) && Supported(c.groups, spec)
    ensures var r := Retries(c, spec, isV06, world);
            && (r.Done? ==> && Rejects(c, r.ctx) && r.ctx.groups != [] && Supported(r.ctx.groups, spec)
                            && r.gas == GasEstimate(r.ctx.groups, spec) < 0x1_0000_0000_0000_0000
                            && ((!isV06 && |Flat(r.ctx.groups)| == 1) || world.handleOps(r.ctx.groups).Success?))
            && (r.Emptied? ==> Rejects(c, r.ctx) && r.ctx.groups == [])
    decreases |Flat(c.groups)|
  {
    RejectsRefl(c);
    if Refuses(c, spec, isV06, world) && Round(c, world).Retry? && !BlamesAbsent(c, world) {
      var c' := Round(c, world).context;
      RoundKeeps(c, spec, world);
      RetriesAccepted(c', spec, isV06, world);
      var r := Retries(c, spec, isV06, world);
      if r.Done? || r.Emptied? { RejectsTrans(c, c', r.ctx); }
    }
  }

  /** The gas declared covers what the remaining operations need. */
  lemma EstimateShrinks(hs: seq<Group>, gs: seq<Group>, spec: ChainSpec)
    requires Shrinks(hs, gs) && Supported(gs, spec)
    ensures Supported(hs, spec) && GasEstimate(hs, spec) <= GasEstimate(gs, spec)
  {
    LimitsShrink(hs, gs, spec, true);
    LimitsShrink(hs, gs, spec, false);
    MulMonotone(100 + BUNDLE_TRANSACTION_GAS_OVERHEAD_PERCENT, BundleGasLimit(hs, spec),
                        BundleGasLimit(gs, spec));
  }

  /** The declared gas is the estimate of the bundle that was accepted, of which the final
      bundle is a part. */
  predicate GasOf(gas: nat, gs: seq<Group>, accepted: seq<Group>, start: seq<Group>, spec: ChainSpec) {
    && Shrinks(gs, accepted) && Shrinks(accepted, start) && Supported(accepted, spec)
    && gas == GasEstimate(accepted, spec) <= U64_MAX
  }

  lemma {:induction false} Concluded(c: Context, spec: ChainSpec, isV06: bool, notified: bool, world: World)
    returns (accepted: seq<Group>)
    requires Ok(c) && Supported(c.groups, spec)
    ensures var r := Conclude(c, spec, isV06, notified, world);
            && (r.Emptied? ==> Rejects(c, r.ctx) && r.ctx.groups == [])
            && (r.Done? ==>
                  Rejects(c, r.ctx) && r.ctx.groups != []
                  && GasOf(r.gas, r.ctx.groups, accepted, c.groups, spec))
  {
    RetriesAccepted(c, spec, isV06, world);
    var r := Retries(c, spec, isV06, world);
    accepted := if r.Done? then r.ctx.groups else [];
    if r.Done? {
      ShrinksRefl(r.ctx.groups);
      var positions := world.unmet(Flat(r.ctx.groups));
      AscendKeeps(r.ctx, positions, world.sign);
      var checked := Ascend(r.ctx, positions, world.sign);
      if checked.Retry? { RejectsTrans(c, r.ctx, checked.context); }
    }
  }
}
