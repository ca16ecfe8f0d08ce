/** Reference-counted expected storage of a bundle (storage.rs). The two-level maps
    keyed by address and then by slot are one map keyed by the pair. */
module Storage {
  import opened Primitives
  import opened Lists

  type Word = int
  datatype StorageSlot = StorageSlot(address: Address, slot: int)
  type ExpectedStorage = map<StorageSlot, Word>
  type SlotCounts = map<StorageSlot, nat>

  /** No slot is expected to hold two different values. */
  predicate Agrees(e: ExpectedStorage, f: ExpectedStorage) {
    forall k | k in e && k in f :: e[k] == f[k]
  }

  predicate Compatible(held: seq<ExpectedStorage>, e: ExpectedStorage) {
    forall i | 0 <= i < |held| :: Agrees(held[i], e)
  }

  /** How many of the storages mention a slot. */
  function Holders(held: seq<ExpectedStorage>, k: StorageSlot): nat {
    if held == [] then 0
    else (if k in held[0] then 1 else 0) + Holders(held[1..], k)
  }

  lemma {:induction false} RemoveFirstHolders(held: seq<ExpectedStorage>, e: ExpectedStorage, k: StorageSlot)
    requires e in held
    ensures Holders(held, k) == Holders(RemoveFirst(held, e), k) + (if k in e then 1 else 0)
    decreases |held|
  {
    if held[0] != e {
      RemoveFirstHolders(held[1..], e, k);
      assert RemoveFirst(held, e)[1..] == RemoveFirst(held[1..], e);
    }
  }

  lemma {:induction false} HoldersAppend(held: seq<ExpectedStorage>, e: ExpectedStorage, k: StorageSlot)
    ensures Holders(held + [e], k) == Holders(held, k) + (if k in e then 1 else 0)
    decreases |held|
  {
    if held == [] {
      assert held + [e] == [e];
    } else {
      HoldersAppend(held[1..], e, k);
      assert (held + [e])[1..] == held[1..] + [e];
    }
  }

  /** A positive count comes from a storage that is held, and conversely. */
  lemma {:induction false} HolderExists(held: seq<ExpectedStorage>, k: StorageSlot)
    ensures Holders(held, k) > 0 <==> exists i :: 0 <= i < |held| && k in held[i]
    decreases |held|
  {
    if held != [] {
      HolderExists(held[1..], k);
      if i :| 0 <= i < |held| && k in held[i] {
        assert i == 0 || held[i] == held[1..][i - 1];
      }
      if Holders(held[1..], k) > 0 {
        var i :| 0 <= i < |held[1..]| && k in held[1..][i];
        assert held[i + 1] == held[1..][i];
      }
    }
  }

  function CountAt(counts: SlotCounts, k: StorageSlot): nat {
    if k in counts then counts[k] else 0
  }

  /** The index agrees with the storages it stands for: a slot is present exactly when
      somebody holds it, with the value every holder expects, and is counted once per holder. */
  ghost predicate Tracks(inner: ExpectedStorage, counts: SlotCounts, held: seq<ExpectedStorage>) {
    && (forall k :: CountAt(counts, k) == Holders(held, k))
    && (forall k :: k in inner <==> Holders(held, k) > 0)
    && (forall i | 0 <= i < |held| :: Agrees(held[i], inner))
  }

  /** Slot by slot, the index is the union of the storages held. */
  lemma TracksUnion(inner: ExpectedStorage, counts: SlotCounts, held: seq<ExpectedStorage>)
    requires Tracks(inner, counts, held)
    ensures forall k :: k in inner <==> exists i :: 0 <= i < |held| && k in held[i]
    ensures forall i, k | 0 <= i < |held| && k in held[i] :: k in inner && inner[k] == held[i][k]
  {
    forall k ensures k in inner <==> exists i :: 0 <= i < |held| && k in held[i] {
      HolderExists(held, k);
    }
  }

  /** A slot of a held storage is counted and carries that storage's own value. */
  lemma TracksMember(inner: ExpectedStorage, counts: SlotCounts, held: seq<ExpectedStorage>, e: ExpectedStorage)
    requires Tracks(inner, counts, held) && e in held
    ensures forall k | k in e :: CountAt(counts, k) > 0 && k in inner && inner[k] == e[k]
  {
    forall k | k in e
      ensures CountAt(counts, k) > 0 && k in inner && inner[k] == e[k]
    {
      HolderExists(held, k);
    }
  }

  lemma TracksConflict(inner: ExpectedStorage, counts: SlotCounts, held: seq<ExpectedStorage>,
                       e: ExpectedStorage, k: StorageSlot)
    requires Tracks(inner, counts, held) && k in e && k in inner && inner[k] != e[k]
    ensures !Compatible(held, e)
  {
    HolderExists(held, k);
    var i :| 0 <= i < |held| && k in held[i];
    assert Agrees(held[i], inner) && !Agrees(held[i], e);
  }

  lemma TracksAdd(inner: ExpectedStorage, counts: SlotCounts, held: seq<ExpectedStorage>, e: ExpectedStorage,
                  inner': ExpectedStorage, counts': SlotCounts)
    requires Tracks(inner, counts, held) && Agrees(inner, e)
    requires forall k :: k in inner' <==> k in inner || k in e
    requires Agrees(inner, inner') && Agrees(e, inner')
    requires forall k :: CountAt(counts', k) == CountAt(counts, k) + if k in e then 1 else 0
    ensures Tracks(inner', counts', held + [e]) && Compatible(held, e)
  {
    forall k ensures Holders(held + [e], k) == Holders(held, k) + (if k in e then 1 else 0) {
      HoldersAppend(held, e, k);
    }
    forall i | 0 <= i < |held| ensures forall k | k in held[i] :: k in inner && inner[k] == held[i][k] {
      TracksMember(inner, counts, held, held[i]);
    }
  }

  lemma TracksRemove(inner: ExpectedStorage, counts: SlotCounts, held: seq<ExpectedStorage>, e: ExpectedStorage,
                     inner': ExpectedStorage, counts': SlotCounts)
    requires Tracks(inner, counts, held) && e in held && Agrees(inner, inner')
    requires forall k :: CountAt(counts', k) == CountAt(counts, k) - if k in e then 1 else 0
    requires forall k :: k in inner' <==> k in inner && !(k in e && CountAt(counts', k) == 0)
    ensures Tracks(inner', counts', RemoveFirst(held, e))
  {
    var rest := RemoveFirst(held, e);
    forall k ensures Holders(held, k) == Holders(rest, k) + (if k in e then 1 else 0) {
      RemoveFirstHolders(held, e, k);
    }
    forall i | 0 <= i < |rest| ensures Agrees(rest[i], inner') {
      CountRemoveFirst(held, e, rest[i]);
      CountMember(rest, rest[i]);
      CountMember(held, rest[i]);
    }
  }

  class BundleExpectedStorage {
    var inner: ExpectedStorage
    var counts: SlotCounts
    /** The storages added and not removed since. */
    ghost var held: seq<ExpectedStorage>

    ghost predicate Valid()
      reads this
    {
      Tracks(inner, counts, held)
    }

    constructor ()
      ensures Valid() && held == []
    {
      inner, counts, held := map[], map[], [];
    }

    /** Fails exactly when `e` contradicts a storage already held, and then changes nothing. */
    method Add(e: ExpectedStorage) returns (ok: bool)
      requires Valid()
      modifies this
      ensures Valid()
      ensures ok <==> Compatible(old(held), e)
      ensures held == if ok then old(held) + [e] else old(held)
      ensures !ok ==> inner == old(inner) && counts == old(counts)
    {
      var newInner, newCounts;
      ok, newInner, newCounts := CountSlots(inner, counts, e);
      if !ok {
        var k :| k in e && k in inner && inner[k] != e[k];
        TracksConflict(inner, counts, held, e, k);
      } else {
        TracksAdd(inner, counts, held, e, newInner, newCounts);
        inner, counts, held := newInner, newCounts, held + [e];
      }
    }

    /** Takes one held copy of `e` out. No count goes below zero, because the copy is held. */
    method Remove(e: ExpectedStorage)
      requires Valid() && e in held
      modifies this
      ensures Valid() && held == RemoveFirst(old(held), e)
    {
      TracksMember(inner, counts, held, e);
      var newInner, newCounts := UncountSlots(inner, counts, e);
      TracksRemove(inner, counts, held, e, newInner, newCounts);
      inner, counts, held := newInner, newCounts, RemoveFirst(held, e);
    }
  }

  /** Merges the slots of `e` one by one; stops at a slot that already has another value. */
  method CountSlots(inner: ExpectedStorage, counts: SlotCounts, e: ExpectedStorage)
    returns (ok: bool, newInner: ExpectedStorage, newCounts: SlotCounts)
    ensures ok <==> Agrees(inner, e)
    ensures ok ==> forall k :: k in newInner <==> k in inner || k in e
    ensures ok ==> Agrees(inner, newInner) && Agrees(e, newInner)
    ensures ok ==> forall k :: CountAt(newCounts, k) == CountAt(counts, k) + if k in e then 1 else 0
  {
    newInner, newCounts := inner, counts;
    var slots: set<StorageSlot> := e.Keys;
    while slots != {}
      invariant slots <= e.Keys
      invariant forall k :: k in newInner <==> k in inner || (k in e && k !in slots)
      invariant forall k | k in newInner :: newInner[k] == if k in inner then inner[k] else e[k]
      invariant forall k | k in e && k !in slots && k in inner :: inner[k] == e[k]
      invariant forall k :: CountAt(newCounts, k) == CountAt(counts, k) + if k in e && k !in slots then 1 else 0
      decreases |slots|
    {
      var slot :| slot in slots;
      if slot in newInner && newInner[slot] != e[slot] {
        return false, inner, counts;
      }
      newInner := newInner[slot := e[slot]];
      newCounts := newCounts[slot := CountAt(newCounts, slot) + 1];
      slots := slots - {slot};
    }
    return true, newInner, newCounts;
  }

  /** Releases the slots of `e` one by one, dropping those nobody holds any more. */
  method UncountSlots(inner: ExpectedStorage, counts: SlotCounts, e: ExpectedStorage)
    returns (newInner: ExpectedStorage, newCounts: SlotCounts)
    requires forall k | k in e :: CountAt(counts, k) > 0
    ensures forall k :: CountAt(newCounts, k) == CountAt(counts, k) - if k in e then 1 else 0
    ensures forall k :: k in newInner <==> k in inner && !(k in e && CountAt(newCounts, k) == 0)
    ensures Agrees(inner, newInner)
  {
    newInner, newCounts := inner, counts;
    var slots: set<StorageSlot> := e.Keys;
    while slots != {}
      invariant slots <= e.Keys
      invariant forall k :: CountAt(newCounts, k) == CountAt(counts, k) - if k in e && k !in slots then 1 else 0
      invariant forall k :: k in newInner <==> k in inner && !(k in e && k !in slots && CountAt(newCounts, k) == 0)
      invariant Agrees(inner, newInner)
      decreases |slots|
    {
      var slot :| slot in slots;
      var count := CountAt(newCounts, slot) - 1;
      newCounts := newCounts[slot := count];
      if count == 0 { newInner := newInner - {slot}; }
      slots := slots - {slot};
    }
  }
}
