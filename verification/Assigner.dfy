/** The assigner as the program keeps it: two maps and a set of gauges, updated entry by
    entry (assigner.rs). The lock map alone determines the rest. */
module Assigning {
  import opened Primitives
  import opened Locks

  type Gauge = map<Address, int>

  function Read(g: Gauge, builder: Address): int {
    if builder in g then g[builder] else 0
  }

  /** The second map inverts the first and has no empty entry. */
  predicate Inverse(locks: LockMap, senders: map<Address, set<Address>>) {
    && (forall b | b in senders :: senders[b] == HeldBy(locks, b) && senders[b] != {})
    && (forall s | s in locks :: locks[s].builder in senders)
  }

  /** A per-builder gauge shows how many senders each builder holds in one state. */
  ghost predicate Shows(g: Gauge, locks: LockMap, state: LockState) {
    forall b :: Read(g, b) == |HeldIn(locks, Lock(b, state))|
  }

  function Add(senders: map<Address, set<Address>>, builder: Address, s: Address): map<Address, set<Address>> {
    senders[builder := (if builder in senders then senders[builder] else {}) + {s}]
  }

  function Remove(senders: map<Address, set<Address>>, builder: Address, s: Address): map<Address, set<Address>>
    requires builder in senders
  {
    if senders[builder] - {s} == {} then senders - {builder} else senders[builder := senders[builder] - {s}]
  }

  lemma AddCount(senders: map<Address, set<Address>>, builder: Address, s: Address)
    ensures |Add(senders, builder, s)| == |senders| + if builder in senders then 0 else 1
  {
    var after := Add(senders, builder, s);
    assert after.Keys == senders.Keys + {builder};
    assert |after| == |after.Keys| && |senders| == |senders.Keys|;
  }

  lemma RemoveCount(senders: map<Address, set<Address>>, builder: Address, s: Address)
    requires builder in senders
    ensures |Remove(senders, builder, s)| == |senders| - if senders[builder] - {s} == {} then 1 else 0
  {
    var after := Remove(senders, builder, s);
    assert after.Keys == if senders[builder] - {s} == {} then senders.Keys - {builder} else senders.Keys;
    assert |after| == |after.Keys| && |senders| == |senders.Keys|;
  }

  lemma InverseInsert(locks: LockMap, senders: map<Address, set<Address>>, s: Address, lock: Lock)
    requires Inverse(locks, senders) && s !in locks
    ensures Inverse(locks[s := lock], Add(senders, lock.builder, s))
  {
    var after := locks[s := lock];
    assert HeldBy(after, lock.builder) == HeldBy(locks, lock.builder) + {s};
    assert forall b | b != lock.builder :: HeldBy(after, b) == HeldBy(locks, b);
    Inhabited(HeldBy(locks, lock.builder));
  }

  lemma InverseRemove(locks: LockMap, senders: map<Address, set<Address>>, s: Address)
    requires Inverse(locks, senders) && s in locks
    ensures Inverse(locks - {s}, Remove(senders, locks[s].builder, s))
  {
    var after, builder := locks - {s}, locks[s].builder;
    assert HeldBy(after, builder) == HeldBy(locks, builder) - {s};
    assert forall b | b != builder :: HeldBy(after, b) == HeldBy(locks, b);
    forall t | t in after ensures after[t].builder in Remove(senders, builder, s) {
      if after[t].builder == builder { assert t in HeldBy(after, builder); }
    }
  }

  lemma InverseRelease(locks: LockMap, senders: map<Address, set<Address>>, builder: Address)
    requires Inverse(locks, senders) && builder in senders
    ensures Inverse(ReleaseAll(locks, builder), senders - {builder})
    ensures ReleaseAll(locks, builder) == locks - senders[builder]
  {
    assert forall b | b != builder :: HeldBy(ReleaseAll(locks, builder), b) == HeldBy(locks, b);
    forall s | s in locks ensures s in senders[builder] <==> locks[s].builder == builder {
      assert s in HeldBy(locks, builder) <==> locks[s].builder == builder;
    }
  }

  lemma Inhabited(x: set<Address>)
    ensures x == {} || exists s :: s in x
  {
    if forall s :: s !in x { assert x == {}; }
  }

  // ---------------------------------------------------------------- counting

  lemma HeldInsert(locks: LockMap, s: Address, lock: Lock, held: Lock)
    requires s !in locks
    ensures |HeldIn(locks[s := lock], held)| == |HeldIn(locks, held)| + if lock == held then 1 else 0
  {
    assert HeldIn(locks[s := lock], held) == if lock == held then HeldIn(locks, held) + {s} else HeldIn(locks, held);
  }

  lemma HeldRemove(locks: LockMap, s: Address, held: Lock)
    requires s in locks
    ensures |HeldIn(locks - {s}, held)| == |HeldIn(locks, held)| - if locks[s] == held then 1 else 0
  {
    assert HeldIn(locks - {s}, held) == if locks[s] == held then HeldIn(locks, held) - {s} else HeldIn(locks, held);
  }

  lemma GaugeInsert(g: Gauge, locks: LockMap, state: LockState, s: Address, lock: Lock)
    requires Shows(g, locks, state) && s !in locks
    ensures Shows(if lock.state == state then g[lock.builder := Read(g, lock.builder) + 1] else g,
                  locks[s := lock], state)
  {
    forall b
      ensures |HeldIn(locks[s := lock], Lock(b, state))| ==
              |HeldIn(locks, Lock(b, state))| + if lock == Lock(b, state) then 1 else 0
    {
      HeldInsert(locks, s, lock, Lock(b, state));
    }
  }

  lemma GaugeRemove(g: Gauge, locks: LockMap, state: LockState, s: Address)
    requires Shows(g, locks, state) && s in locks
    ensures Shows(if locks[s].state == state then g[locks[s].builder := Read(g, locks[s].builder) - 1] else g,
                  locks - {s}, state)
  {
    forall b
      ensures |HeldIn(locks - {s}, Lock(b, state))| ==
              |HeldIn(locks, Lock(b, state))| - if locks[s] == Lock(b, state) then 1 else 0
    {
      HeldRemove(locks, s, Lock(b, state));
    }
  }

  class Assigner {
    var locks: LockMap
    var senders: map<Address, set<Address>>
    var activeBuilders: int
    var sendersAssigned: Gauge
    var sendersConfirmed: Gauge
    const maxBundleSize: nat

    ghost predicate Valid()
      reads this
    {
      Inverse(locks, senders) && Counted()
    }

    ghost predicate Counted()
      reads this
    {
      && activeBuilders == |senders|
      && Shows(sendersAssigned, locks, Assigned)
      && Shows(sendersConfirmed, locks, Confirmed)
    }

    constructor (maxBundleSize: nat)
      ensures Valid() && locks == map[]
    {
      this.maxBundleSize := maxBundleSize;
      locks, senders, activeBuilders, sendersAssigned, sendersConfirmed := map[], map[], 0, map[], map[];
      new;
      assert forall b, state :: HeldIn(locks, Lock(b, state)) == {};
    }

    // -------------------------------------------------------------- entries

    method InsertEntry(s: Address, builder: Address)
      requires s !in locks && Shows(sendersAssigned, locks, Assigned) && Shows(sendersConfirmed, locks, Confirmed)
      modifies `locks, `sendersAssigned
      ensures locks == old(locks)[s := Lock(builder, Assigned)]
      ensures Shows(sendersAssigned, locks, Assigned) && Shows(sendersConfirmed, locks, Confirmed)
    {
      GaugeInsert(sendersAssigned, locks, Assigned, s, Lock(builder, Assigned));
      GaugeInsert(sendersConfirmed, locks, Confirmed, s, Lock(builder, Assigned));
      sendersAssigned := sendersAssigned[builder := Read(sendersAssigned, builder) + 1];
      locks := locks[s := Lock(builder, Assigned)];
    }

    method Insert(s: Address, builder: Address)
      requires Valid() && s !in locks
      modifies this
      ensures Valid() && locks == old(locks)[s := Lock(builder, Assigned)]
    {
      InverseInsert(locks, senders, s, Lock(builder, Assigned));
      InsertEntry(s, builder);
      AddSender(builder, s);
    }

    method AddSender(builder: Address, s: Address)
      requires activeBuilders == |senders|
      modifies `senders, `activeBuilders
      ensures senders == Add(old(senders), builder, s) && activeBuilders == |senders|
    {
      AddCount(senders, builder, s);
      if builder !in senders {
        activeBuilders := activeBuilders + 1;
        senders := senders[builder := {}];
      }
      senders := senders[builder := senders[builder] + {s}];
      assert senders == Add(old(senders), builder, s);
    }

    method RemoveSender(builder: Address, s: Address)
      requires activeBuilders == |senders| && builder in senders
      modifies `senders, `activeBuilders
      ensures senders == Remove(old(senders), builder, s) && activeBuilders == |senders|
    {
      RemoveCount(senders, builder, s);
      senders := senders[builder := senders[builder] - {s}];
      if senders[builder] == {} {
        activeBuilders := activeBuilders - 1;
        senders := senders - {builder};
      }
      assert senders == Remove(old(senders), builder, s);
    }

    method MarkConfirmed(s: Address)
      requires Valid() && s in locks && locks[s].state == Assigned
      modifies this
      ensures Valid() && locks == old(locks)[s := old(locks)[s].(state := Confirmed)]
    {
      var builder := locks[s].builder;
      GaugeRemove(sendersAssigned, locks, Assigned, s);
      GaugeRemove(sendersConfirmed, locks, Confirmed, s);
      sendersAssigned := sendersAssigned[builder := Read(sendersAssigned, builder) - 1];
      GaugeInsert(sendersAssigned, locks - {s}, Assigned, s, Lock(builder, Confirmed));
      GaugeInsert(sendersConfirmed, locks - {s}, Confirmed, s, Lock(builder, Confirmed));
      sendersConfirmed := sendersConfirmed[builder := Read(sendersConfirmed, builder) + 1];
      locks := locks[s := Lock(builder, Confirmed)];
      assert locks == (old(locks) - {s})[s := Lock(builder, Confirmed)];
      assert forall b :: HeldBy(locks, b) == HeldBy(old(locks), b);
    }

    /** Drops an unconfirmed sender; the builder's entry goes with its last sender. */
    method Drop(s: Address)
      requires Valid() && s in locks && locks[s].state == Assigned
      modifies this
      ensures Valid() && locks == old(locks) - {s}
    {
      var builder := locks[s].builder;
      InverseRemove(locks, senders, s);
      RemoveEntry(s);
      RemoveSender(builder, s);
    }

    // -------------------------------------------------------------- operations

    method AssignOperations(builder: Address, ops: seq<Summary>) returns (returned: seq<Summary>)
      requires Valid()
      modifies this
      ensures Valid()
      ensures Assignment(locks, returned) == Assign(old(locks), builder, ops, [], maxBundleSize)
    {
      returned := [];
      for i := 0 to |ops|
        invariant Valid()
        invariant Assign(locks, builder, ops[i..], returned, maxBundleSize) ==
                  Assign(old(locks), builder, ops, [], maxBundleSize)
      {
        assert ops[i..][0] == ops[i] && ops[i..][1..] == ops[i + 1..];
        if ops[i].sender !in locks { Insert(ops[i].sender, builder); }
        if locks[ops[i].sender].builder == builder {
          returned := returned + [ops[i]];
          if |returned| >= maxBundleSize { return; }
        }
      }
    }

    /** The preconditions are the conditions under which none of the panics can happen. */
    method ConfirmSendersDropUnused(builder: Address, confirmed: set<Address>)
      requires Valid() && HeldBy(locks, builder) != {} && confirmed <= HeldBy(locks, builder)
      modifies this
      ensures Valid() && locks == Confirm(old(locks), builder, confirmed)
    {
      Inhabited(HeldBy(locks, builder));
      ghost var s :| s in HeldBy(locks, builder);
      MarkAll(builder, confirmed);
      assert s in locks && locks[s].builder == builder;
      DropUnconfirmed(builder);
    }

    method MarkAll(builder: Address, confirmed: set<Address>)
      requires Valid() && confirmed <= HeldBy(locks, builder)
      modifies this
      ensures Valid() && locks == Mark(old(locks), confirmed)
    {
      var left: set<Address> := confirmed;
      while left != {}
        invariant Valid() && left <= confirmed && locks == Mark(old(locks), confirmed - left)
        decreases |left|
      {
        Inhabited(left);
        var s: Address :| s in left;
        assert s in HeldBy(old(locks), builder);
        if locks[s].state == Assigned { MarkConfirmed(s); }
        left := left - {s};
      }
    }

    method DropUnconfirmed(builder: Address)
      requires Valid() && builder in senders
      modifies this
      ensures Valid() && locks == Confirm(old(locks), builder, {})
    {
      var toRemove: set<Address> := set s | s in senders[builder] && locks[s].state != Confirmed;
      ghost var all := toRemove;
      assert Mark(old(locks), {}) == old(locks);
      while toRemove != {}
        invariant Valid() && toRemove <= all && locks == old(locks) - (all - toRemove)
        invariant forall s | s in all :: s in old(locks) && old(locks)[s] == Lock(builder, Assigned)
        decreases |toRemove|
      {
        Inhabited(toRemove);
        var s: Address :| s in toRemove;
        Drop(s);
        toRemove := toRemove - {s};
      }
    }

    method Release(builder: Address)
      requires Valid()
      modifies this
      ensures Valid() && locks == ReleaseAll(old(locks), builder)
    {
      if builder !in senders {
        assert forall s | s in locks :: locks[s].builder != builder;
        return;
      }
      InverseRelease(locks, senders, builder);
      assert senders[builder] <= locks.Keys;
      RemoveEntries(senders[builder]);
      senders := senders - {builder};
      activeBuilders := activeBuilders - 1;
    }

    method RemoveEntries(gone: set<Address>)
      requires gone <= locks.Keys && Shows(sendersAssigned, locks, Assigned)
               && Shows(sendersConfirmed, locks, Confirmed)
      modifies `locks, `sendersAssigned, `sendersConfirmed
      ensures locks == old(locks) - gone
      ensures Shows(sendersAssigned, locks, Assigned) && Shows(sendersConfirmed, locks, Confirmed)
    {
      var left: set<Address> := gone;
      while left != {}
        invariant left <= gone && locks == old(locks) - (gone - left)
        invariant Shows(sendersAssigned, locks, Assigned) && Shows(sendersConfirmed, locks, Confirmed)
        decreases |left|
      {
        Inhabited(left);
        var s: Address :| s in left;
        RemoveEntry(s);
        left := left - {s};
      }
    }

    method RemoveEntry(s: Address)
      requires s in locks && Shows(sendersAssigned, locks, Assigned) && Shows(sendersConfirmed, locks, Confirmed)
      modifies `locks, `sendersAssigned, `sendersConfirmed
      ensures locks == old(locks) - {s}
      ensures Shows(sendersAssigned, locks, Assigned) && Shows(sendersConfirmed, locks, Confirmed)
    {
      GaugeRemove(sendersAssigned, locks, Assigned, s);
      GaugeRemove(sendersConfirmed, locks, Confirmed, s);
      var builder := locks[s].builder;
      if locks[s].state == Assigned {
        sendersAssigned := sendersAssigned[builder := Read(sendersAssigned, builder) - 1];
      } else {
        sendersConfirmed := sendersConfirmed[builder := Read(sendersConfirmed, builder) - 1];
      }
      locks := locks - {s};
    }
  }
}
