/** The chain watcher as the program keeps it, updated in place (chain.rs). */
module ChainWatcher {
  import opened Primitives
  import opened Lists
  import opened ChainSync
  import ChainLog

  class Chain {
    var blocks: seq<Block>
    var syncErrorCount: nat
    const historySize: nat
    const overflowChecks: bool

    predicate Valid()
      reads this
    {
      historySize > 0 && WindowOk(blocks, historySize)
    }

    constructor (historySize: nat, overflowChecks: bool)
      requires historySize > 0
      ensures Valid() && blocks == [] && this.historySize == historySize && this.overflowChecks == overflowChecks
    {
      this.historySize, this.overflowChecks := historySize, overflowChecks;
      blocks, syncErrorCount := [], 0;
    }

    method LoadBlocksBackToNumber(head: Block, min: nat, node: Node) returns (r: Option<seq<Block>>)
      ensures r == LoadBack([head], min, node)
    {
      var loaded := [head];
      while loaded[0].number > min
        invariant loaded != [] && LoadBack(loaded, min, node) == LoadBack([head], min, node)
        decreases loaded[0].number
      {
        var parent := node.fetch(loaded[0].parent);
        if parent.None? || parent.value.number != loaded[0].number - 1 { return None; }
        loaded := [parent.value] + loaded;
      }
      return Some(loaded);
    }

    method LoadAddedBlocks(head: Block, node: Node) returns (r: Option<seq<Block>>)
      requires blocks != []
      ensures var loaded := LoadBack([head], LastBlock(blocks).number + 1, node);
              r == if loaded.None? then None
                   else var added := Connect(blocks, loaded.value, node);
                        if added.None? || !node.summarise(added.value) then None else added
    {
      var loaded := LoadBlocksBackToNumber(head, LastBlock(blocks).number + 1, node);
      if loaded.None? { return None; }
      var added := loaded.value;
      while true
        invariant added != [] && Connect(blocks, added, node) == Connect(blocks, loaded.value, node)
        decreases added[0].number
      {
        if added[0].number == 0 { break; }
        var known := BlockWithNumber(blocks, added[0].number - 1);
        if known.None? || known.value.hash == added[0].parent { break; }
        var parent := node.fetch(added[0].parent);
        if parent.None? || parent.value.number != added[0].number - 1 { return None; }
        added := [parent.value] + added;
      }
      return if node.summarise(added) then Some(added) else None;
    }

    /** Pops what is replaced, as far as there are blocks, appends, and forgets the oldest. */
    method ReplaceBlocks(depth: nat, added: seq<Block>)
      modifies `blocks
      ensures blocks == KeepLast(Popped(old(blocks), depth) + added, historySize)
    {
      for i := 0 to depth
        invariant blocks == Popped(old(blocks), i)
      {
        if blocks != [] { blocks := blocks[..|blocks| - 1]; }
      }
      blocks := blocks + added;
      ghost var all := blocks;
      while |blocks| > historySize
        invariant |blocks| <= |all| && blocks == all[|all| - |blocks|..]
        invariant |blocks| < |all| ==> |blocks| >= historySize
      {
        blocks := blocks[1..];
      }
    }

    method CollectAll<T>(bs: seq<Block>, f: Block -> seq<T>) returns (r: seq<T>)
      ensures r == Collect(bs, f)
    {
      r := [];
      for i := 0 to |bs|
        invariant r + Collect(bs[i..], f) == Collect(bs, f)
      {
        assert bs[i..][0] == bs[i] && bs[i..][1..] == bs[i + 1..];
        ConcatAssoc(r, f(bs[i]), Collect(bs[i + 1..], f));
        r := r + f(bs[i]);
      }
      assert bs[|bs|..] == [];
    }

    method UpdateWithBlocks(added: seq<Block>) returns (r: SyncResult)
      requires historySize > 0 && blocks != [] && added != [] && added[0].number <= LastBlock(blocks).number + 1
      modifies `blocks
      ensures r == if overflowChecks then UpdateWith(old(blocks), added, historySize, syncErrorCount)
                   else UpdateWrapped(old(blocks), added, historySize, syncErrorCount)
      ensures blocks == if r.Synced? then r.window else old(blocks)
    {
      var depth := LastBlock(blocks).number + 1 - added[0].number;
      if depth > |blocks| && overflowChecks { return Underflow; }
      var gone := Gone(blocks, depth);
      var mined := CollectAll(added, OpsOf);
      var unmined := CollectAll(gone, OpsOf);
      var balances := CollectAll(added, BalancesOf);
      var unminedBalances := CollectAll(gone, BalancesOf);
      ReplaceBlocks(depth, added);
      r := Synced(blocks, syncErrorCount, added,
                  Update(LastBlock(blocks), blocks[0].number, depth, mined, unmined, balances, unminedBalances,
                         depth >= historySize));
    }

    method ResetAndInitialize(head: Block, node: Node) returns (r: SyncResult)
      requires historySize > 0
      modifies this
      ensures r == ResetTo(head, historySize, old(syncErrorCount), node)
      ensures blocks == if r.Synced? then r.window else old(blocks)
      ensures syncErrorCount == if r.Synced? then 0 else old(syncErrorCount)
    {
      var loaded := LoadBlocksBackToNumber(head, SatSub(head.number, historySize - 1), node);
      if loaded.None? || !node.summarise(loaded.value) { return SyncFailed(syncErrorCount); }
      blocks := loaded.value;
      syncErrorCount := 0;
      var mined := CollectAll(blocks, OpsOf);
      var balances := CollectAll(blocks, BalancesOf);
      r := Synced(blocks, 0, blocks, Update(LastBlock(blocks), blocks[0].number, 0, mined, [], balances, [], false));
    }

    /** The window stays in order, changes only when the sync succeeds, and then ends at the
        new head. A build with overflow checks panics where the depth has no answer. */
    method SyncToBlock(head: Block, node: Node) returns (r: SyncResult)
      requires Valid() && Honest(node)
      modifies this
      ensures Valid()
      ensures r == if overflowChecks then Sync(old(blocks), head, historySize, old(syncErrorCount), node)
                   else SyncWrapped(old(blocks), head, historySize, old(syncErrorCount), node)
      ensures r.Synced? ==> blocks == r.window != [] && LastBlock(blocks) == head && syncErrorCount == r.errors
      ensures !r.Synced? ==> blocks == old(blocks)
      ensures r.SyncFailed? ==> syncErrorCount == r.errors
    {
      WrappedWindow(blocks, head, historySize, syncErrorCount, node);
      if blocks == [] {
        r := ResetAndInitialize(head, node);
        return;
      }
      var current := LastBlock(blocks).number;
      if current > head.number + historySize {
        syncErrorCount := syncErrorCount + 1;
        if syncErrorCount < SYNC_ERROR_COUNT_MAX { return SyncFailed(syncErrorCount); }
        r := ResetAndInitialize(head, node);
      } else if current + historySize < head.number {
        r := ResetAndInitialize(head, node);
      } else {
        r := ExtendBlocks(head, node);
      }
    }

    /** Loads what is new and replaces the end of the window by it. */
    method ExtendBlocks(head: Block, node: Node) returns (r: SyncResult)
      requires Valid() && Honest(node) && blocks != []
      requires LastBlock(blocks).number <= head.number + historySize
               && head.number <= LastBlock(blocks).number + historySize
      modifies `blocks
      ensures r == if overflowChecks then Sync(old(blocks), head, historySize, syncErrorCount, node)
                   else SyncWrapped(old(blocks), head, historySize, syncErrorCount, node)
      ensures blocks == if r.Synced? then r.window else old(blocks)
      ensures !r.Underflow? ==> r.errors == syncErrorCount
    {
      var added := LoadAddedBlocks(head, node);
      if added.None? { return SyncFailed(syncErrorCount); }
      WrappedUpdate(blocks, head, historySize, syncErrorCount, node);
      r := UpdateWithBlocks(added.value);
    }
  }

  /** Where the depth has no answer, the head is all that was added. */
  lemma WrappedUpdate(window: seq<Block>, head: Block, history: nat, errors: nat, node: Node)
    requires window != [] && WindowOk(window, history) && history > 0 && Honest(node)
    requires LastBlock(window).number <= head.number + history && head.number <= LastBlock(window).number + history
    ensures var loaded := LoadBack([head], LastBlock(window).number + 1, node);
            loaded.Some? ==>
              var added := Connect(window, loaded.value, node);
              added.Some? && node.summarise(added.value) ==>
                SyncWrapped(window, head, history, errors, node) == UpdateWrapped(window, added.value, history, errors)
  {
    var loaded := LoadBack([head], LastBlock(window).number + 1, node);
    LinkedNumbers(window, |window| - 1);
    SyncWindow(window, head, history, errors, node);
    if loaded.Some? && Connect(window, loaded.value, node).Some? {
      AddedBlocks(window, head, history, node);
    }
  }

  /** Operations that are both mined and unmined cancel out. */
  method DedupedOps(u: Update) returns (mined: seq<MinedOp>, unmined: seq<MinedOp>)
    ensures mined == ChainLog.Without(u.mined, ChainLog.Hashes(u.unmined))
    ensures unmined == ChainLog.Without(u.unmined, ChainLog.Hashes(u.mined))
    ensures ChainLog.Hashes(mined) !! ChainLog.Hashes(unmined)
  {
    mined := Filter(u.mined, ChainLog.Hashes(u.unmined));
    unmined := Filter(u.unmined, ChainLog.Hashes(u.mined));
    ChainLog.DedupNet({}, u.unmined, u.mined);
  }

  method Filter(ops: seq<MinedOp>, hashes: set<Hash>) returns (r: seq<MinedOp>)
    ensures r == ChainLog.Without(ops, hashes)
  {
    r := [];
    for i := 0 to |ops|
      invariant r + ChainLog.Without(ops[i..], hashes) == ChainLog.Without(ops, hashes)
    {
      assert ops[i..][0] == ops[i] && ops[i..][1..] == ops[i + 1..];
      if ops[i].hash !in hashes {
        ConcatAssoc(r, [ops[i]], ChainLog.Without(ops[i + 1..], hashes));
        r := r + [ops[i]];
      }
    }
  }
}
