/** The sender locks of the assigner, as a value: which builder holds each sender and
    whether the sender is part of one of its bundles (assigner.rs). */
module Locks {
  import opened Primitives
  import opened Lists

  datatype LockState = Assigned | Confirmed
  datatype Lock = Lock(builder: Address, state: LockState)
  type LockMap = map<Address, Lock>

  datatype Summary = Summary(hash: Hash, sender: Address)

  function HeldBy(locks: LockMap, builder: Address): set<Address> {
    set s | s in locks && locks[s].builder == builder
  }

  function HeldIn(locks: LockMap, lock: Lock): set<Address> {
    set s | s in locks && locks[s] == lock
  }

  // ---------------------------------------------------------------- the three operations

  function AssignOne(locks: LockMap, builder: Address, sender: Address): LockMap {
    if sender in locks then locks else locks[sender := Lock(builder, Assigned)]
  }

  datatype Assignment = Assignment(locks: LockMap, returned: seq<Summary>)

  /** Takes the operations one by one until enough are found. */
  function Assign(locks: LockMap, builder: Address, ops: seq<Summary>, found: seq<Summary>, max: nat): (r: Assignment)
    decreases |ops|
  {
    if ops == [] then Assignment(locks, found)
    else
      var next := AssignOne(locks, builder, ops[0].sender);
      if next[ops[0].sender].builder != builder then Assign(next, builder, ops[1..], found, max)
      else if |found| + 1 >= max then Assignment(next, found + [ops[0]])
      else Assign(next, builder, ops[1..], found + [ops[0]], max)
  }

  function Mark(locks: LockMap, confirmed: set<Address>): LockMap {
    map s | s in locks :: if s in confirmed then locks[s].(state := Confirmed) else locks[s]
  }

  /** Confirms the given senders and lets go of the builder's other unconfirmed ones. */
  function Confirm(locks: LockMap, builder: Address, confirmed: set<Address>): LockMap {
    var marked := Mark(locks, confirmed);
    map s | s in marked && marked[s] != Lock(builder, Assigned) :: marked[s]
  }

  function ReleaseAll(locks: LockMap, builder: Address): LockMap {
    map s | s in locks && locks[s].builder != builder :: locks[s]
  }

  // ---------------------------------------------------------------- what assignment does

  predicate Available(locks: LockMap, builder: Address, sender: Address) {
    sender in locks ==> locks[sender].builder == builder
  }

  function AvailableOps(locks: LockMap, builder: Address, ops: seq<Summary>): (r: seq<Summary>) {
    if ops == [] then []
    else (if Available(locks, builder, ops[0].sender) then [ops[0]] else []) + AvailableOps(locks, builder, ops[1..])
  }

  function Take<T>(s: seq<T>, n: nat): seq<T> {
    if n <= |s| then s[..n] else s
  }

  function SendersOf(ops: seq<Summary>): set<Address> {
    set i | 0 <= i < |ops| :: ops[i].sender
  }

  /** Locks were taken for `taken` and no lock was changed. */
  predicate Extends(before: LockMap, after: LockMap, builder: Address, taken: set<Address>) {
    && (forall s | s in before :: s in after && after[s] == before[s])
    && (forall s | s in after && s !in before :: after[s] == Lock(builder, Assigned) && s in taken)
    && taken <= HeldBy(after, builder)
  }

  lemma {:induction false} AvailableStays(locks: LockMap, builder: Address, sender: Address, ops: seq<Summary>)
    requires Available(locks, builder, sender)
    ensures AvailableOps(AssignOne(locks, builder, sender), builder, ops) == AvailableOps(locks, builder, ops)
    decreases |ops|
  {
    if ops != [] { AvailableStays(locks, builder, sender, ops[1..]); }
  }

  lemma TakeCons<T>(x: T, rest: seq<T>, n: nat)
    requires n > 0
    ensures Take([x] + rest, n) == [x] + Take(rest, n - 1)
  {
  }

  /** Assignment returns the first operations whose sender no other builder holds, at most
      `max` of them but always one if there is one. */
  lemma {:induction false} AssignReturns(locks: LockMap, builder: Address, ops: seq<Summary>, found: seq<Summary>,
                                         max: nat)
    requires |found| < max || found == []
    ensures Assign(locks, builder, ops, found, max).returned ==
            found + Take(AvailableOps(locks, builder, ops), if max == 0 then 1 else max - |found|)
    decreases |ops|
  {
    if ops != [] {
      var next := AssignOne(locks, builder, ops[0].sender);
      var rest := AvailableOps(locks, builder, ops[1..]);
      if !Available(locks, builder, ops[0].sender) {
        AssignReturns(next, builder, ops[1..], found, max);
        assert AvailableOps(locks, builder, ops) == rest;
      } else {
        AvailableStays(locks, builder, ops[0].sender, ops[1..]);
        TakeCons(ops[0], rest, if max == 0 then 1 else max - |found|);
        if |found| + 1 < max {
          AssignReturns(next, builder, ops[1..], found + [ops[0]], max);
          ConcatAssoc(found, [ops[0]], Take(rest, max - |found| - 1));
        }
      }
    }
  }

  /** It locks their senders and no others, and changes no lock that is held. */
  lemma {:induction false} AssignExtends(locks: LockMap, builder: Address, ops: seq<Summary>, found: seq<Summary>,
                                         max: nat)
    requires SendersOf(found) <= HeldBy(locks, builder)
    ensures var r := Assign(locks, builder, ops, found, max);
            Extends(locks, r.locks, builder, SendersOf(r.returned)) && found <= r.returned
    decreases |ops|
  {
    if ops != [] {
      var next := AssignOne(locks, builder, ops[0].sender);
      if !Available(locks, builder, ops[0].sender) {
        AssignExtends(next, builder, ops[1..], found, max);
      } else {
        SendersAppend(found, ops[0]);
        if |found| + 1 < max {
          AssignExtends(next, builder, ops[1..], found + [ops[0]], max);
          var r := Assign(next, builder, ops[1..], found + [ops[0]], max);
          assert r.returned[|found|] == ops[0];
        }
      }
    }
  }

  lemma SendersAppend(ops: seq<Summary>, op: Summary)
    ensures SendersOf(ops + [op]) == SendersOf(ops) + {op.sender}
  {
    assert (ops + [op])[|ops|] == op;
    forall s | s in SendersOf(ops) ensures s in SendersOf(ops + [op]) {
      var i :| 0 <= i < |ops| && ops[i].sender == s;
      assert (ops + [op])[i] == ops[i];
    }
  }

  /** Confirming leaves the builder exactly the senders it had confirmed and those it confirms now,
      all confirmed: the ones it does not use are free again. */
  lemma ConfirmExactly(locks: LockMap, builder: Address, confirmed: set<Address>)
    requires confirmed <= HeldBy(locks, builder)
    ensures var after := Confirm(locks, builder, confirmed);
            && HeldBy(after, builder) == HeldIn(locks, Lock(builder, Confirmed)) + confirmed
            && HeldIn(after, Lock(builder, Confirmed)) == HeldBy(after, builder)
            && (forall s | s !in HeldBy(locks, builder) :: s in locks <==> s in after)
            && (forall s | s !in HeldBy(locks, builder) && s in locks :: after[s] == locks[s])
  {
    var after := Confirm(locks, builder, confirmed);
    forall s ensures s in HeldBy(after, builder) <==> s in HeldIn(locks, Lock(builder, Confirmed)) + confirmed {
      if s in locks { assert locks[s].state.Assigned? || locks[s].state.Confirmed?; }
    }
    forall s | s in HeldBy(after, builder) ensures after[s] == Lock(builder, Confirmed) {
      assert after[s].state.Assigned? || after[s].state.Confirmed?;
    }
  }

  /** Releasing leaves the builder nothing and the others everything. */
  lemma ReleaseExactly(locks: LockMap, builder: Address)
    ensures var after := ReleaseAll(locks, builder);
            && HeldBy(after, builder) == {} && after.Keys == locks.Keys - HeldBy(locks, builder)
            && forall s | s in after :: after[s] == locks[s]
  {
  }

  // ---------------------------------------------------------------- runs

  datatype Action =
    | AssignTo(builder: Address, ops: seq<Summary>, max: nat)
    | ConfirmFor(builder: Address, confirmed: set<Address>)
    | ReleaseFor(builder: Address)

  /** Only senders held by the builder may be confirmed to it. */
  predicate Allowed(locks: LockMap, a: Action) {
    a.ConfirmFor? ==> a.confirmed <= HeldBy(locks, a.builder)
  }

  function Act(locks: LockMap, a: Action): LockMap {
    match a
    case AssignTo(builder, ops, max) => Assign(locks, builder, ops, [], max).locks
    case ConfirmFor(builder, confirmed) => Confirm(locks, builder, confirmed)
    case ReleaseFor(builder) => ReleaseAll(locks, builder)
  }

  function Run(locks: LockMap, actions: seq<Action>): LockMap
    decreases |actions|
  {
    if actions == [] then locks else Run(Act(locks, actions[0]), actions[1..])
  }

  predicate AllowedRun(locks: LockMap, actions: seq<Action>)
    decreases |actions|
  {
    actions != [] ==> Allowed(locks, actions[0]) && AllowedRun(Act(locks, actions[0]), actions[1..])
  }

  predicate Releases(actions: seq<Action>, builder: Address) {
    exists i | 0 <= i < |actions| :: actions[i] == ReleaseFor(builder)
  }

  /** A confirmed lock survives one action if and only if that action is not its own
      builder's release. */
  lemma ConfirmedStep(locks: LockMap, a: Action, s: Address)
    requires s in locks && locks[s].state == Confirmed && Allowed(locks, a)
    ensures (s in Act(locks, a) && Act(locks, a)[s] == locks[s]) <==> a != ReleaseFor(locks[s].builder)
  {
    if a.AssignTo? { AssignExtends(locks, a.builder, a.ops, [], a.max); }
  }

  /** Over any run, whoever acts. */
  lemma {:induction false} ConfirmedSurvives(locks: LockMap, actions: seq<Action>, s: Address)
    requires s in locks && locks[s].state == Confirmed && AllowedRun(locks, actions)
    requires !Releases(actions, locks[s].builder)
    ensures s in Run(locks, actions) && Run(locks, actions)[s] == locks[s]
    decreases |actions|
  {
    if actions != [] {
      assert actions[0] != ReleaseFor(locks[s].builder);
      ConfirmedStep(locks, actions[0], s);
      forall i | 0 <= i < |actions[1..]| ensures actions[1..][i] != ReleaseFor(locks[s].builder) {
        assert actions[1..][i] == actions[i + 1];
      }
      ConfirmedSurvives(Act(locks, actions[0]), actions[1..], s);
    }
  }

  /** What the other builders hold is never touched. */
  lemma OthersUntouched(locks: LockMap, a: Action, other: Address)
    requires Allowed(locks, a) && other != a.builder
    ensures HeldBy(Act(locks, a), other) == HeldBy(locks, other)
    ensures HeldIn(Act(locks, a), Lock(other, Confirmed)) == HeldIn(locks, Lock(other, Confirmed))
  {
    var after := Act(locks, a);
    if a.AssignTo? { AssignExtends(locks, a.builder, a.ops, [], a.max); }
    assert forall s | s in locks && locks[s].builder == other :: s in after && after[s] == locks[s];
    assert forall s | s in after && after[s].builder == other :: s in locks && after[s] == locks[s];
  }
}
