/** Who answers for a failed simulation. */
module Blaming {
  import opened Primitives
  import opened UserOps
  import opened Proposal
  import opened Assembly

  /** The violation names an entity as the one at fault. Invalid nonces and senders that are
      already deployed are nobody's fault. */
  predicate Names(v: Violation, e: Entity)
    requires Readable(v)
  {
    match v
    case Blames(entity) => entity == e
    case RevertedWith(kind, message, address) =>
      kind == e.kind && address == Some(e.address) && message[..4] != "AA10" && message[..4] != "AA25"
    case Reverted(kind, address) => kind == e.kind && address == Some(e.address)
    case RevertedOperation(_) => false
    case Unattributed => false
  }

  lemma NamesExactly(v: Violation, e: Entity)
    requires Readable(v)
    ensures BlamedBy(v) == Some(e) <==> Names(v, e)
  {
  }

  /** Whether an entity is invalidated as staked: as its info says, and without an info. */
  predicate CountsAsStaked(kind: EntityKind, infos: EntityInfos) {
    match kind
    case Account => infos.sender.isStaked
    case Paymaster => infos.paymaster.None? || infos.paymaster.value.isStaked
    case Factory => infos.factory.None? || infos.factory.value.isStaked
    case Aggregator => infos.aggregator.None? || infos.aggregator.value.isStaked
  }

  function InvalidationOf(e: Entity, isStaked: bool): EntityUpdate {
    EntityUpdate(e, if isStaked then StakedInvalidation else UnstakedInvalidation, None)
  }

  predicate AllReadable(vs: seq<Violation>) {
    forall i | 0 <= i < |vs| :: Readable(vs[i])
  }

  predicate NamesAddress(v: Violation, a: Address)
    requires Readable(v)
  {
    exists kind :: Names(v, Entity(kind, a))
  }

  /** No violation from the j-th on names the address. */
  predicate UnnamedFrom(vs: seq<Violation>, j: nat, a: Address)
    requires AllReadable(vs)
  {
    forall i | j <= i < |vs| :: !NamesAddress(vs[i], a)
  }

  lemma BlameStep(updates: map<Address, EntityUpdate>, v: Violation, infos: EntityInfos, a: Address)
    requires Readable(v)
    ensures var next := BlameAll(updates, [v], infos);
            && (!NamesAddress(v, a) ==> (a in next <==> a in updates) && (a in updates ==> next[a] == updates[a]))
            && (forall e | Names(v, e) && e.address == a ::
                  a in next && next[a] == InvalidationOf(e, CountsAsStaked(e.kind, infos)))
  {
    assert [v][1..] == [];
    if BlamedBy(v).Some? {
      NamesExactly(v, BlamedBy(v).value);
      assert BlamedBy(v).value == Entity(BlamedBy(v).value.kind, BlamedBy(v).value.address);
    }
    forall e | Names(v, e) ensures BlamedBy(v) == Some(e) { NamesExactly(v, e); }
  }

  lemma {:induction false} BlameAllSplit(updates: map<Address, EntityUpdate>, vs: seq<Violation>, infos: EntityInfos)
    requires vs != []
    ensures BlameAll(updates, vs, infos) == BlameAll(BlameAll(updates, vs[..|vs| - 1], infos), [vs[|vs| - 1]], infos)
    decreases |vs|
  {
    var n := |vs| - 1;
    if n == 0 {
      assert vs == [vs[0]] && vs[..0] == [];
    } else {
      var blamed := BlamedBy(vs[0]);
      var next := if blamed.Some? then updates[blamed.value.address := BlameUpdate(blamed.value, infos)] else updates;
      BlameAllSplit(next, vs[1..], infos);
      assert vs[1..][..n - 1] == vs[..n][1..] && vs[1..][n - 1] == vs[n];
    }
  }

  /** An address that is named is invalidated for the last violation that names it, and any other
      keeps its update. */
  lemma {:induction false} BlameAllExactly(updates: map<Address, EntityUpdate>, vs: seq<Violation>, infos: EntityInfos,
                                           a: Address)
    returns (j: nat, e: Entity)
    requires AllReadable(vs)
    ensures j <= |vs| && UnnamedFrom(vs, if j < |vs| then j + 1 else 0, a)
    ensures var r := BlameAll(updates, vs, infos);
            if j == |vs| then (a in r <==> a in updates) && (a in updates ==> r[a] == updates[a])
            else && Names(vs[j], e) && e.address == a
                 && a in r && r[a] == InvalidationOf(e, CountsAsStaked(e.kind, infos))
    decreases |vs|
  {
    j, e := 0, Entity(Account, a);
    if vs != [] {
      var n := |vs| - 1;
      BlameAllSplit(updates, vs, infos);
      BlameStep(BlameAll(updates, vs[..n], infos), vs[n], infos, a);
      if NamesAddress(vs[n], a) {
        var kind :| Names(vs[n], Entity(kind, a));
        j, e := n, Entity(kind, a);
      } else {
        j, e := BlameAllExactly(updates, vs[..n], infos, a);
        UnnamedLonger(vs, n, if j < n then j + 1 else 0, a);
        if j == n { j := |vs|; }
      }
    }
  }

  lemma UnnamedLonger(vs: seq<Violation>, n: nat, j: nat, a: Address)
    requires AllReadable(vs) && n + 1 == |vs| && UnnamedFrom(vs[..n], j, a) && !NamesAddress(vs[n], a)
    ensures UnnamedFrom(vs, j, a)
  {
    forall i | j <= i < |vs| ensures !NamesAddress(vs[i], a) {
      if i < n { assert vs[..n][i] == vs[i]; }
    }
  }

  /** Reading a code panics exactly if nobody staked answers and some message is too short for it. */
  lemma PanicsExactly(vs: seq<Violation>, infos: EntityInfos)
    ensures Panics(Violates(vs, infos)) <==>
            && !(infos.factory.Some? && infos.factory.value.isStaked) && !infos.sender.isStaked
            && exists i | 0 <= i < |vs| ::
                 (vs[i].RevertedWith? && |vs[i].message| < 4) || (vs[i].RevertedOperation? && |vs[i].reason| < 3)
  {
    forall i | 0 <= i < |vs|
      ensures !Readable(vs[i]) <==>
              (vs[i].RevertedWith? && |vs[i].message| < 4) || (vs[i].RevertedOperation? && |vs[i].reason| < 3)
    {
    }
  }

  /** The paymaster is amended once if a factory or account error is among the violations. */
  predicate Absolved(vs: seq<Violation>)
    requires AllReadable(vs)
  {
    exists i | 0 <= i < |vs| :: vs[i].RevertedOperation? && (vs[i].reason[..3] == "AA1" || vs[i].reason[..3] == "AA2")
  }

  /** A staked factory answers for everything, else a staked sender does, and the paymaster is
      amended; else everybody who is named answers, and the paymaster is amended if absolved. */
  lemma ViolationsExactly(c: Context, op: Op, vs: seq<Violation>, infos: EntityInfos)
    requires AllReadable(vs)
    ensures var r, paymaster := ProcessViolations(c, op, vs, infos), infos.paymaster;
            var amended := if paymaster.Some? then Some(paymaster.value.entity.address) else None;
            var stakedFactory := infos.factory.Some? && infos.factory.value.isStaked;
            && (stakedFactory ==>
                  && r.rejected == c.rejected + [Rejection(op, amended)]
                  && var e := infos.factory.value.entity;
                     e.address in r.updates && r.updates[e.address] == InvalidationOf(e, true))
            && (!stakedFactory && infos.sender.isStaked ==>
                  && r.rejected == c.rejected + [Rejection(op, amended)]
                  && var e := infos.sender.entity;
                     e.address in r.updates && r.updates[e.address] == InvalidationOf(e, true))
            && (!stakedFactory && !infos.sender.isStaked ==>
                  && r.rejected == c.rejected + [Rejection(op, if Absolved(vs) then amended else None)]
                  && r.updates == if Absolved(vs) && amended.Some?
                                  then Amend(BlameAll(c.updates, vs, infos), amended.value)
                                  else BlameAll(c.updates, vs, infos))
  {
    AbsolvedExactly(vs);
  }

  lemma AbsolvedExactly(vs: seq<Violation>)
    requires AllReadable(vs)
    ensures AnyAbsolves(vs) <==> Absolved(vs)
  {
    forall i | 0 <= i < |vs|
      ensures AbsolvesPaymaster(vs[i]) <==>
              vs[i].RevertedOperation? && (vs[i].reason[..3] == "AA1" || vs[i].reason[..3] == "AA2")
    {
    }
  }
}
