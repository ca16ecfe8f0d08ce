/** Leasing signers to builders (manager.rs). */
module Signers {
  import opened Primitives

  datatype Status = Available | NeedsFunding | LeasedNeedsFunding | Leased

  predicate IsLeased(status: Status) {
    status.Leased? || status.LeasedNeedsFunding?
  }

  predicate IsLow(status: Status) {
    status.NeedsFunding? || status.LeasedNeedsFunding?
  }

  function MarkLow(status: Status): Status {
    match status
    case Available => NeedsFunding
    case Leased => LeasedNeedsFunding
    case _ => status
  }

  function MarkFunded(status: Status): Status {
    match status
    case NeedsFunding => Available
    case LeasedNeedsFunding => Leased
    case _ => status
  }

  datatype Balance = Balance(address: Address, amount: nat)

  /** The last balance reported for an address. */
  function LastBalance(balances: seq<Balance>, address: Address): Option<nat> {
    if balances == [] then None
    else if balances[|balances| - 1].address == address then Some(balances[|balances| - 1].amount)
    else LastBalance(balances[..|balances| - 1], address)
  }

  predicate Low(amount: nat, fundBelow: nat, shouldFund: bool) {
    shouldFund && amount < fundBelow
  }

  /** The outstanding leases are the leased signers, each leased once. */
  predicate LeasesOk(statuses: map<Address, Status>, leases: seq<Address>) {
    && Distinct(leases)
    && (forall a | a in leases :: a in statuses && IsLeased(statuses[a]))
    && (forall a | a in statuses && IsLeased(statuses[a]) :: a in leases)
  }

  /** Which signers are low on funds: those whose last reported balance is. */
  predicate FundingShown(before: map<Address, Status>, after: map<Address, Status>, balances: seq<Balance>,
                         fundBelow: Option<nat>, shouldFund: bool) {
    && after.Keys == before.Keys
    && forall a | a in before ::
         && IsLeased(after[a]) == IsLeased(before[a])
         && IsLow(after[a]) == if fundBelow.Some? && LastBalance(balances, a).Some?
                               then shouldFund && LastBalance(balances, a).value < fundBelow.value
                               else IsLow(before[a])
  }

  class SignerManager {
    var statuses: map<Address, Status>
    ghost var leases: seq<Address>
    const fundBelow: Option<nat>
    const wallet: set<Address>

    /** There is a status for every signer of the wallet. */
    ghost predicate Valid()
      reads this
    {
      LeasesOk(statuses, leases) && statuses.Keys == wallet
    }

    function SignerByAddress(a: Address): Option<Address> {
      if a in wallet then Some(a) else None
    }

    constructor (wallet: set<Address>, fundBelow: Option<nat>)
      ensures Valid() && leases == [] && this.wallet == wallet
    {
      this.fundBelow, this.wallet := fundBelow, wallet;
      statuses := map a | a in wallet :: Available;
      leases := [];
    }

    /** Leases an address that is not leased, if one is available. The wallet has a signer for
        it, so no status is changed in vain. */
    method LeaseSigner() returns (lease: Option<Address>)
      requires Valid()
      modifies this
      ensures Valid() && leases == old(leases) + (if lease.Some? then [lease.value] else [])
      ensures lease.Some? ==> lease.value !in old(leases)
      ensures statuses == if lease.Some? then old(statuses)[lease.value := Leased] else old(statuses)
      ensures lease.None? <==> forall a | a in old(statuses) :: old(statuses)[a] != Available
    {
      var available: set<Address> := set a | a in statuses && statuses[a] == Available;
      if a :| a in available {
        Lease(a);
        return SignerByAddress(a);
      }
      forall a | a in statuses ensures statuses[a] != Available { assert a !in available; }
      return None;
    }

    method Lease(a: Address)
      requires Valid() && a in statuses && statuses[a] == Available
      modifies this
      ensures Valid() && leases == old(leases) + [a] && a !in old(leases)
      ensures statuses == old(statuses)[a := Leased]
    {
      statuses := statuses[a := Leased];
      leases := leases + [a];
    }

    method LeaseSignerByAddress(address: Address) returns (lease: Option<Address>)
      requires Valid()
      modifies this
      ensures Valid() && leases == old(leases) + (if lease.Some? then [lease.value] else [])
      ensures lease.Some? ==> lease.value == address && address !in old(leases)
      ensures statuses == if lease.Some? then old(statuses)[address := Leased] else old(statuses)
      ensures lease.Some? <==> address in old(statuses) && old(statuses)[address] == Available
    {
      if address !in statuses || statuses[address] != Available { return None; }
      Lease(address);
      return SignerByAddress(address);
    }

    /** A lease that is outstanding can be returned: its signer is known and leased. */
    method ReturnLease(ghost i: nat, address: Address)
      requires Valid() && i < |leases| && leases[i] == address
      modifies this
      ensures Valid() && leases == old(leases)[..i] + old(leases)[i + 1..]
      ensures address in statuses && statuses == old(statuses)[address := statuses[address]]
      ensures !IsLeased(statuses[address]) && IsLow(statuses[address]) == IsLow(old(statuses)[address])
    {
      assert address in leases;
      var status := statuses[address];
      statuses := statuses[address := if status.Leased? then Available else NeedsFunding];
      leases := leases[..i] + leases[i + 1..];
      assert forall j | 0 <= j < |leases| :: leases[j] == if j < i then old(leases)[j] else old(leases)[j + 1];
      forall a | a in statuses && IsLeased(statuses[a]) ensures a in leases {
        var j :| 0 <= j < |old(leases)| && old(leases)[j] == a;
        assert leases[if j < i then j else j - 1] == a;
      }
    }

    /** Balance updates mark who needs funding and never who is leased. */
    method UpdateSignerStatuses(balances: seq<Balance>, shouldFund: bool) returns (needsFunding: bool)
      requires Valid()
      modifies `statuses
      ensures Valid() && FundingShown(old(statuses), statuses, balances, fundBelow, shouldFund)
      ensures needsFunding <==> fundBelow.Some? && exists i | 0 <= i < |balances| ::
                balances[i].address in old(statuses) && Low(balances[i].amount, fundBelow.value, shouldFund)
    {
      needsFunding := false;
      for i := 0 to |balances|
        invariant FundingShown(old(statuses), statuses, balances[..i], fundBelow, shouldFund)
        invariant needsFunding <==> fundBelow.Some? && exists j | 0 <= j < i ::
                    balances[j].address in old(statuses) && Low(balances[j].amount, fundBelow.value, shouldFund)
      {
        assert balances[..i + 1][..i] == balances[..i] && balances[..i + 1][i] == balances[i];
        var address := balances[i].address;
        if address in statuses && fundBelow.Some? {
          if Low(balances[i].amount, fundBelow.value, shouldFund) {
            statuses := statuses[address := MarkLow(statuses[address])];
            needsFunding := true;
          } else {
            statuses := statuses[address := MarkFunded(statuses[address])];
          }
        }
      }
      assert balances[..|balances|] == balances;
    }

    /** Builders are created one after the other on a signer each, which they keep: no two
        run on the same address. */
    method CreateBuilders(count: nat) returns (addresses: seq<Address>, ok: bool)
      requires Valid()
      modifies this
      ensures Valid() && leases == old(leases) + addresses && Distinct(addresses)
      ensures ok ==> |addresses| == count
      ensures !ok ==> |addresses| < count && forall a | a in statuses :: statuses[a] != Available
      ensures forall a | a in old(statuses) && a !in addresses :: a in statuses && statuses[a] == old(statuses)[a]
    {
      addresses, ok := [], true;
      for i := 0 to count
        invariant Valid() && leases == old(leases) + addresses && |addresses| == i && ok
        invariant forall a | a in old(statuses) && a !in addresses :: a in statuses && statuses[a] == old(statuses)[a]
      {
        var lease := LeaseSigner();
        if lease.None? {
          DistinctSuffix(old(leases), addresses);
          return addresses, false;
        }
        addresses := addresses + [lease.value];
      }
      DistinctSuffix(old(leases), addresses);
    }
  }

  lemma DistinctSuffix(xs: seq<Address>, ys: seq<Address>)
    requires Distinct(xs + ys)
    ensures Distinct(ys)
  {
    forall i, j | 0 <= i < j < |ys| ensures ys[i] != ys[j] {
      assert ys[i] == (xs + ys)[|xs| + i] && ys[j] == (xs + ys)[|xs| + j];
    }
  }
}
