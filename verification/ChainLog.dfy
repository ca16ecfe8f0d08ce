/** What subscribers see: folding the updates of any run of syncs (chain.rs). */
module ChainLog {
  import opened Primitives
  import opened ChainSync

  predicate SuffixOf<T(==)>(s: seq<T>, t: seq<T>) {
    |s| <= |t| && t[|t| - |s|..] == s
  }

  /** What a subscriber does with an update: drops what was unmined, appends what was mined. */
  function Fold<T(==)>(log: seq<T>, gone: seq<T>, more: seq<T>): seq<T>
    requires SuffixOf(gone, log)
  {
    log[..|log| - |gone|] + more
  }

  lemma {:induction false} CollectConcat<T>(xs: seq<Block>, ys: seq<Block>, f: Block -> seq<T>)
    ensures Collect(xs + ys, f) == Collect(xs, f) + Collect(ys, f)
    decreases |xs|
  {
    if xs == [] {
      assert xs + ys == ys;
    } else {
      CollectConcat(xs[1..], ys, f);
      assert (xs + ys)[1..] == xs[1..] + ys;
    }
  }

  // ---------------------------------------------------------------- the blocks behind the log

  /** The window, the error count, and all blocks ever announced and not taken back. */
  datatype Follower = Follower(window: seq<Block>, errors: nat, past: seq<Block>)

  predicate FollowerOk(c: Follower, history: nat) {
    WindowOk(c.window, history) && SuffixOf(c.window, c.past)
  }

  datatype Feed = Feed(head: Block, node: Node)

  /** What becomes of a follower with the result of a sync. */
  function Apply(c: Follower, r: SyncResult): Follower
    requires SuffixOf(c.window, c.past) && (r.Synced? ==> Shaped(c.window, r))
  {
    match r
    case Synced(window, errors, added, update) => Follower(window, errors, c.past[..|c.past| - update.depth] + added)
    case SyncFailed(errors) => c.(errors := errors)
    case Underflow => c
  }

  function SyncWith(c: Follower, feed: Feed, history: nat): (r: SyncResult)
    requires history > 0
    ensures r.Synced? ==> Shaped(c.window, r)
  {
    var r := Sync(c.window, feed.head, history, c.errors, feed.node);
    if r.Synced? then SyncShape(c.window, feed, history, c.errors); r else r
  }

  function Follow(c: Follower, feed: Feed, history: nat): Follower
    requires history > 0 && FollowerOk(c, history)
  {
    Apply(c, SyncWith(c, feed, history))
  }

  lemma SuffixPrefix<T>(xs: seq<T>, ys: seq<T>, n: nat)
    requires SuffixOf(xs, ys) && n <= |xs|
    ensures SuffixOf(xs[..|xs| - n], ys[..|ys| - n]) && SuffixOf(xs[|xs| - n..], ys)
  {
  }

  lemma SuffixAppend<T>(xs: seq<T>, ys: seq<T>, zs: seq<T>)
    requires SuffixOf(xs, ys)
    ensures SuffixOf(xs + zs, ys + zs)
  {
  }

  lemma SuffixTrans<T>(xs: seq<T>, ys: seq<T>, zs: seq<T>)
    requires SuffixOf(xs, ys) && SuffixOf(ys, zs)
    ensures SuffixOf(xs, zs)
  {
  }

  /** The update lists what the blocks taken back and the blocks added hold. */
  predicate Carries(u: Update, gone: seq<Block>, added: seq<Block>) {
    && u.unmined == Collect(gone, OpsOf) && u.mined == Collect(added, OpsOf)
    && u.unminedBalances == Collect(gone, BalancesOf) && u.balances == Collect(added, BalancesOf)
  }

  lemma {:induction false} UpdateShape(window: seq<Block>, added: seq<Block>, history: nat, errors: nat)
    requires window != [] && added != [] && added[0].number <= LastBlock(window).number + 1 && history > 0
    requires UpdateWith(window, added, history, errors).Synced?
    ensures var r := UpdateWith(window, added, history, errors);
            && r.update.depth <= |window|
            && SuffixOf(r.window, window[..|window| - r.update.depth] + added)
            && Carries(r.update, window[|window| - r.update.depth..], added)
  {
    var r := UpdateWith(window, added, history, errors);
    assert r == Replace(window, added, Depth(window, added), history, errors) && r.update.depth == Depth(window, added);
    ReplaceShape(window, added, Depth(window, added), history, errors);
  }

  lemma ReplaceShape(window: seq<Block>, added: seq<Block>, depth: nat, history: nat, errors: nat)
    requires added != [] && history > 0 && depth <= |window|
    ensures SuffixOf(Replace(window, added, depth, history, errors).window, window[..|window| - depth] + added)
    ensures Carries(Replace(window, added, depth, history, errors).update, window[|window| - depth..], added)
  {
    KeepLastSuffix(Popped(window, depth) + added, history);
  }

  lemma KeepLastSuffix(bs: seq<Block>, n: nat)
    ensures SuffixOf(KeepLast(bs, n), bs)
  {
  }

  lemma ResetShape(window: seq<Block>, head: Block, history: nat, errors: nat, node: Node)
    requires history > 0 && ResetTo(head, history, errors, node).Synced?
    ensures Shaped(window, ResetTo(head, history, errors, node))
  {
    assert window[|window|..] == [];
  }

  /** The window is what was kept of it and the added blocks, cut to the history. */
  predicate Shaped(window: seq<Block>, r: SyncResult)
    requires r.Synced?
  {
    && r.update.depth <= |window|
    && SuffixOf(r.window, window[..|window| - r.update.depth] + r.added)
    && Carries(r.update, window[|window| - r.update.depth..], r.added)
  }

  /** How a successful sync changes the window, and what its update carries. */
  lemma SyncShape(window: seq<Block>, feed: Feed, history: nat, errors: nat)
    requires history > 0 && Sync(window, feed.head, history, errors, feed.node).Synced?
    ensures Shaped(window, Sync(window, feed.head, history, errors, feed.node))
  {
    var r := Sync(window, feed.head, history, errors, feed.node);
    if window == [] || LastBlock(window).number + history < feed.head.number {
      ResetShape(window, feed.head, history, errors, feed.node);
    } else if LastBlock(window).number > feed.head.number + history {
      ResetShape(window, feed.head, history, errors + 1, feed.node);
    } else {
      ExtendShape(window, feed, history, errors);
    }
  }

  lemma ExtendShape(window: seq<Block>, feed: Feed, history: nat, errors: nat)
    requires history > 0 && window != [] && Extend(window, feed.head, history, errors, feed.node).Synced?
    ensures Shaped(window, Extend(window, feed.head, history, errors, feed.node))
  {
    var loaded := LoadBack([feed.head], LastBlock(window).number + 1, feed.node);
    var added := Connect(window, loaded.value, feed.node).value;
    UpdateShape(window, added, history, errors);
    assert Extend(window, feed.head, history, errors, feed.node) == UpdateWith(window, added, history, errors);
  }

  lemma SuffixReplaced<T>(window: seq<T>, past: seq<T>, n: nat, added: seq<T>, next: seq<T>)
    requires SuffixOf(window, past) && n <= |window| && SuffixOf(next, window[..|window| - n] + added)
    ensures SuffixOf(next, past[..|past| - n] + added)
  {
    SuffixPrefix(window, past, n);
    SuffixAppend(window[..|window| - n], past[..|past| - n], added);
    SuffixTrans(next, window[..|window| - n] + added, past[..|past| - n] + added);
  }

  lemma ApplyKeeps(c: Follower, r: SyncResult, history: nat)
    requires FollowerOk(c, history) && (r.Synced? ==> Shaped(c.window, r) && WindowOk(r.window, history))
    ensures FollowerOk(Apply(c, r), history)
  {
    if r.Synced? {
      SuffixReplaced(c.window, c.past, r.update.depth, r.added, r.window);
      assert Apply(c, r) == Follower(r.window, r.errors, c.past[..|c.past| - r.update.depth] + r.added);
    }
  }

  lemma FollowKeeps(c: Follower, feed: Feed, history: nat)
    requires history > 0 && FollowerOk(c, history) && Honest(feed.node)
    ensures FollowerOk(Follow(c, feed, history), history)
  {
    SyncWindow(c.window, feed.head, history, c.errors, feed.node);
    ApplyKeeps(c, SyncWith(c, feed, history), history);
  }

  /** The list taken back is exactly the end of the log, and folding gives the new log. */
  predicate FoldsTo<T(==)>(log: seq<T>, gone: seq<T>, more: seq<T>, next: seq<T>) {
    SuffixOf(gone, log) && Fold(log, gone, more) == next
  }

  lemma FoldSplit<T>(kept: seq<T>, gone: seq<T>, more: seq<T>)
    ensures FoldsTo(kept + gone, gone, more, kept + more)
  {
    assert (kept + gone)[|kept|..] == gone && (kept + gone)[..|kept|] == kept;
  }

  /** Taking back the last blocks takes back the end of what was collected from them. */
  lemma FoldBlocks<T>(past: seq<Block>, window: seq<Block>, n: nat, added: seq<Block>, f: Block -> seq<T>)
    requires SuffixOf(window, past) && n <= |window|
    ensures FoldsTo(Collect(past, f), Collect(window[|window| - n..], f), Collect(added, f),
                    Collect(past[..|past| - n] + added, f))
  {
    var kept, gone := past[..|past| - n], window[|window| - n..];
    SuffixPrefix(window, past, n);
    assert past == kept + gone;
    CollectConcat(kept, gone, f);
    CollectConcat(kept, added, f);
    FoldSplit(Collect(kept, f), Collect(gone, f), Collect(added, f));
  }

  lemma CollectSuffix<T>(window: seq<Block>, past: seq<Block>, f: Block -> seq<T>)
    requires SuffixOf(window, past)
    ensures SuffixOf(Collect(window, f), Collect(past, f))
  {
    var n := |past| - |window|;
    assert past == past[..n] + window;
    CollectConcat(past[..n], window, f);
  }

  lemma FoldOps(c: Follower, r: SyncResult)
    requires r.Synced? && SuffixOf(c.window, c.past) && Shaped(c.window, r)
    ensures FoldsTo(Collect(c.past, OpsOf), r.update.unmined, r.update.mined, Collect(Apply(c, r).past, OpsOf))
  {
    FoldBlocks(c.past, c.window, r.update.depth, r.added, OpsOf);
  }

  lemma FoldBalances(c: Follower, r: SyncResult)
    requires r.Synced? && SuffixOf(c.window, c.past) && Shaped(c.window, r)
    ensures FoldsTo(Collect(c.past, BalancesOf), r.update.unminedBalances, r.update.balances,
                    Collect(Apply(c, r).past, BalancesOf))
  {
    FoldBlocks(c.past, c.window, r.update.depth, r.added, BalancesOf);
  }

  /** Over one sync, for operations and for balance updates. */
  lemma {:induction false} FoldUpdate(c: Follower, r: SyncResult)
    requires r.Synced? && SuffixOf(c.window, c.past) && Shaped(c.window, r)
    ensures var next := Apply(c, r).past;
            && FoldsTo(Collect(c.past, OpsOf), r.update.unmined, r.update.mined, Collect(next, OpsOf))
            && FoldsTo(Collect(c.past, BalancesOf), r.update.unminedBalances, r.update.balances,
                       Collect(next, BalancesOf))
  {
    FoldOps(c, r);
    FoldBalances(c, r);
  }

  /** The log ends with what the window holds. */
  lemma WindowEndsLog(c: Follower, history: nat)
    requires FollowerOk(c, history)
    ensures SuffixOf(Collect(c.window, OpsOf), Collect(c.past, OpsOf))
    ensures SuffixOf(Collect(c.window, BalancesOf), Collect(c.past, BalancesOf))
  {
    CollectSuffix(c.window, c.past, OpsOf);
    CollectSuffix(c.window, c.past, BalancesOf);
  }

  /** Without overflow checks, a head just below the window takes nothing back: what the
      subscriber has gathered from the blocks that are gone stays in the log. */
  lemma WrappedFold(c: Follower, feed: Feed, history: nat)
    requires history > 0 && FollowerOk(c, history) && Honest(feed.node)
    requires Sync(c.window, feed.head, history, c.errors, feed.node).Underflow?
    ensures var r := SyncWrapped(c.window, feed.head, history, c.errors, feed.node);
            && r.Synced? && r.window == [feed.head]
            && FoldsTo(Collect(c.past, OpsOf), r.update.unmined, r.update.mined, Collect(c.past + r.added, OpsOf))
            && FoldsTo(Collect(c.past, BalancesOf), r.update.unminedBalances, r.update.balances,
                       Collect(c.past + r.added, BalancesOf))
  {
    WrappedWindow(c.window, feed.head, history, c.errors, feed.node);
    FoldAppend(c.past, [feed.head], OpsOf);
    FoldAppend(c.past, [feed.head], BalancesOf);
  }

  lemma FoldAppend<T>(past: seq<Block>, added: seq<Block>, f: Block -> seq<T>)
    ensures FoldsTo(Collect(past, f), [], Collect(added, f), Collect(past + added, f))
  {
    CollectConcat(past, added, f);
    FoldSplit(Collect(past, f), [], Collect(added, f));
    assert Collect(past, f) + [] == Collect(past, f);
  }

  // ---------------------------------------------------------------- runs

  ghost predicate AllHonest(feeds: seq<Feed>) {
    forall i | 0 <= i < |feeds| :: Honest(feeds[i].node)
  }

  ghost function Run(c: Follower, feeds: seq<Feed>, history: nat): (r: Follower)
    requires history > 0 && FollowerOk(c, history) && AllHonest(feeds)
    ensures FollowerOk(r, history)
    decreases |feeds|
  {
    if feeds == [] then c
    else
      FollowKeeps(c, feeds[0], history);
      Run(Follow(c, feeds[0], history), feeds[1..], history)
  }

  /** What a subscriber has gathered. */
  datatype Logs = Logs(ops: seq<MinedOp>, balances: seq<BalanceUpdate>)

  function LogsOf(blocks: seq<Block>): Logs {
    Logs(Collect(blocks, OpsOf), Collect(blocks, BalancesOf))
  }

  function FoldLogs(logs: Logs, u: Update): Logs
    requires SuffixOf(u.unmined, logs.ops) && SuffixOf(u.unminedBalances, logs.balances)
  {
    Logs(Fold(logs.ops, u.unmined, u.mined), Fold(logs.balances, u.unminedBalances, u.balances))
  }

  /** The subscriber's logs after a run. */
  ghost function Subscribe(c: Follower, logs: Logs, feeds: seq<Feed>, history: nat): (r: Logs)
    requires history > 0 && FollowerOk(c, history) && AllHonest(feeds) && logs == LogsOf(c.past)
    decreases |feeds|
  {
    if feeds == [] then logs
    else
      var r := SyncWith(c, feeds[0], history);
      FollowKeeps(c, feeds[0], history);
      if r.Synced? then
        FoldUpdate(c, r);
        Subscribe(Follow(c, feeds[0], history), FoldLogs(logs, r.update), feeds[1..], history)
      else Subscribe(Follow(c, feeds[0], history), logs, feeds[1..], history)
  }

  /** Over every run the folded logs list what the blocks announced and not taken back hold,
      and end with what the current window holds. */
  lemma {:induction false} LogsOfRun(c: Follower, logs: Logs, feeds: seq<Feed>, history: nat)
    requires history > 0 && FollowerOk(c, history) && AllHonest(feeds) && logs == LogsOf(c.past)
    ensures Subscribe(c, logs, feeds, history) == LogsOf(Run(c, feeds, history).past)
    ensures SuffixOf(Collect(Run(c, feeds, history).window, OpsOf), Subscribe(c, logs, feeds, history).ops)
    ensures SuffixOf(Collect(Run(c, feeds, history).window, BalancesOf), Subscribe(c, logs, feeds, history).balances)
    decreases |feeds|
  {
    if feeds == [] {
      WindowEndsLog(c, history);
    } else {
      var r := SyncWith(c, feeds[0], history);
      var next := Follow(c, feeds[0], history);
      FollowKeeps(c, feeds[0], history);
      if r.Synced? { FoldUpdate(c, r); }
      LogsOfRun(next, LogsOf(next.past), feeds[1..], history);
    }
  }

  // ---------------------------------------------------------------- one chain

  lemma JoinAtWindow(past: seq<Block>, window: seq<Block>, n: nat, added: seq<Block>)
    requires SuffixOf(window, past) && Linked(past) && Linked(window) && n < |window|
    requires added != [] && Linked(added) && Meets(window, added[0])
             && added[0].number + n == LastBlock(window).number + 1
    ensures Linked(past[..|past| - n] + added)
  {
    var kept := past[..|past| - n];
    LinkedSlice(past, 0, |past| - n);
    assert kept == past[0..|past| - n];
    LinkedNumbers(window, |window| - 1);
    LinkedNumbers(window, |window| - n - 1);
    assert LastBlock(kept) == window[|window| - n - 1];
    assert BlockWithNumber(window, added[0].number - 1) == Some(LastBlock(kept));
    LinkedJoin(kept, added);
  }

  /** A sync that starts from nothing, or that leaves a block of the window standing. */
  predicate Shallow(c: Follower, feed: Feed, history: nat)
    requires history > 0
  {
    var r := SyncWith(c, feed, history);
    r.Synced? ==>
      || c.past == []
      || (&& c.window != [] && LastBlock(c.window).number <= feed.head.number + history
          && feed.head.number <= LastBlock(c.window).number + history && r.update.depth < |c.window|)
  }

  lemma FirstLinked(c: Follower, feed: Feed, history: nat)
    requires history > 0 && FollowerOk(c, history) && Honest(feed.node) && c.past == []
    ensures Linked(Follow(c, feed, history).past)
  {
    SyncWindow(c.window, feed.head, history, c.errors, feed.node);
  }

  lemma {:induction false} ExtendMeets(window: seq<Block>, feed: Feed, history: nat, errors: nat, r: SyncResult)
    requires history > 0 && window != [] && WindowOk(window, history) && Honest(feed.node)
    requires feed.head.number <= LastBlock(window).number + history
    requires r == Extend(window, feed.head, history, errors, feed.node) && r.Synced?
    ensures r.added != [] && Linked(r.added) && Meets(window, r.added[0])
    ensures r.added[0].number + r.update.depth == LastBlock(window).number + 1
  {
    LinkedNumbers(window, |window| - 1);
    AddedBlocks(window, feed.head, history, feed.node);
  }

  lemma SyncExtends(window: seq<Block>, head: Block, history: nat, errors: nat, node: Node)
    requires history > 0 && window != []
    requires LastBlock(window).number <= head.number + history && head.number <= LastBlock(window).number + history
    ensures Sync(window, head, history, errors, node) == Extend(window, head, history, errors, node)
  {
  }

  lemma JoinExtended(c: Follower, feed: Feed, history: nat, r: SyncResult)
    requires history > 0 && c.window != [] && FollowerOk(c, history) && Honest(feed.node) && Linked(c.past)
    requires feed.head.number <= LastBlock(c.window).number + history
    requires r == Extend(c.window, feed.head, history, c.errors, feed.node) && r.Synced?
    requires Shaped(c.window, r) && r.update.depth < |c.window|
    ensures Linked(Apply(c, r).past)
  {
    ExtendMeets(c.window, feed, history, c.errors, r);
    JoinMet(c, history, r);
  }

  lemma JoinMet(c: Follower, history: nat, r: SyncResult)
    requires c.window != [] && FollowerOk(c, history) && Linked(c.past)
    requires r.Synced? && Shaped(c.window, r) && r.update.depth < |c.window|
    requires r.added != [] && Linked(r.added) && Meets(c.window, r.added[0])
    requires r.added[0].number + r.update.depth == LastBlock(c.window).number + 1
    ensures Linked(Apply(c, r).past)
  {
    JoinAtWindow(c.past, c.window, r.update.depth, r.added);
  }

  lemma ExtendedLinked(c: Follower, feed: Feed, history: nat)
    requires history > 0 && FollowerOk(c, history) && Honest(feed.node) && Linked(c.past) && c.past != []
    requires SyncWith(c, feed, history).Synced? && Shallow(c, feed, history)
    ensures Linked(Follow(c, feed, history).past)
  {
    SyncExtends(c.window, feed.head, history, c.errors, feed.node);
    JoinExtended(c, feed, history, SyncWith(c, feed, history));
  }

  ghost predicate ShallowRun(c: Follower, feeds: seq<Feed>, history: nat)
    requires history > 0 && FollowerOk(c, history) && AllHonest(feeds)
    decreases |feeds|
  {
    feeds == []
    || (&& Shallow(c, feeds[0], history)
        && (FollowKeeps(c, feeds[0], history); ShallowRun(Follow(c, feeds[0], history), feeds[1..], history)))
  }

  /** As long as every reorganisation leaves a block of the window standing and no gap is
      skipped, the blocks announced and not taken back form one linked chain. */
  lemma {:induction false} PastLinked(c: Follower, feeds: seq<Feed>, history: nat)
    requires history > 0 && FollowerOk(c, history) && AllHonest(feeds) && Linked(c.past)
             && ShallowRun(c, feeds, history)
    ensures Linked(Run(c, feeds, history).past)
    decreases |feeds|
  {
    if feeds != [] {
      if c.past == [] {
        FirstLinked(c, feeds[0], history);
      } else if SyncWith(c, feeds[0], history).Synced? {
        ExtendedLinked(c, feeds[0], history);
      }
      FollowKeeps(c, feeds[0], history);
      PastLinked(Follow(c, feeds[0], history), feeds[1..], history);
    }
  }

  // ---------------------------------------------------------------- cancelling out

  function Hashes(ops: seq<MinedOp>): set<Hash> {
    set i | 0 <= i < |ops| :: ops[i].hash
  }

  function Without(ops: seq<MinedOp>, hashes: set<Hash>): (r: seq<MinedOp>) {
    if ops == [] then []
    else (if ops[0].hash in hashes then [] else [ops[0]]) + Without(ops[1..], hashes)
  }

  /** The hashes mined after an update. */
  function Net(mined: set<Hash>, unminedOps: seq<MinedOp>, minedOps: seq<MinedOp>): set<Hash> {
    mined - Hashes(unminedOps) + Hashes(minedOps)
  }

  lemma {:induction false} WithoutHashes(ops: seq<MinedOp>, hashes: set<Hash>)
    ensures Hashes(Without(ops, hashes)) == Hashes(ops) - hashes
    decreases |ops|
  {
    if ops != [] {
      WithoutHashes(ops[1..], hashes);
      HashesCons(ops[0], ops[1..]);
      assert ops == [ops[0]] + ops[1..];
      HashesCons(ops[0], Without(ops[1..], hashes));
      assert [] + Without(ops[1..], hashes) == Without(ops[1..], hashes);
    }
  }

  lemma HashesCons(op: MinedOp, ops: seq<MinedOp>)
    ensures Hashes([op] + ops) == {op.hash} + Hashes(ops)
  {
    var all := [op] + ops;
    assert all[0] == op;
    forall h | h in Hashes(ops) ensures h in Hashes(all) {
      var i :| 0 <= i < |ops| && ops[i].hash == h;
      assert all[i + 1] == ops[i];
    }
  }

  /** Cancelling out operations that are both unmined and mined leaves no hash on both sides.
      It has the same net effect if and only if those hashes were mined before. */
  lemma {:induction false} DedupNet(mined: set<Hash>, unminedOps: seq<MinedOp>, minedOps: seq<MinedOp>)
    ensures var m, u := Without(minedOps, Hashes(unminedOps)), Without(unminedOps, Hashes(minedOps));
            && Hashes(m) !! Hashes(u)
            && (Net(mined, u, m) == Net(mined, unminedOps, minedOps) <==>
                Hashes(unminedOps) * Hashes(minedOps) <= mined)
  {
    var m, u := Without(minedOps, Hashes(unminedOps)), Without(unminedOps, Hashes(minedOps));
    WithoutHashes(minedOps, Hashes(unminedOps));
    WithoutHashes(unminedOps, Hashes(minedOps));
    forall h | h in Hashes(unminedOps) * Hashes(minedOps) ensures h in Net(mined, u, m) <==> h in mined {}
    if !(Hashes(unminedOps) * Hashes(minedOps) <= mined) {
      var h :| h in Hashes(unminedOps) * Hashes(minedOps) && h !in mined;
      assert h in Net(mined, unminedOps, minedOps) && h !in Net(mined, u, m);
    }
  }

  lemma SuffixHashes(ops: seq<MinedOp>, log: seq<MinedOp>)
    requires SuffixOf(ops, log)
    ensures Hashes(ops) <= Hashes(log)
  {
    forall h | h in Hashes(ops) ensures h in Hashes(log) {
      var i :| 0 <= i < |ops| && ops[i].hash == h;
      assert log[|log| - |ops| + i] == ops[i];
    }
  }

  /** In a run they were: what an update unmines is in the log. */
  lemma {:induction false} DedupInRun(c: Follower, feed: Feed, history: nat)
    requires history > 0 && FollowerOk(c, history) && SyncWith(c, feed, history).Synced?
    ensures var u, mined := SyncWith(c, feed, history).update, Hashes(Collect(c.past, OpsOf));
            Net(mined, Without(u.unmined, Hashes(u.mined)), Without(u.mined, Hashes(u.unmined))) ==
            Net(mined, u.unmined, u.mined)
  {
    var r := SyncWith(c, feed, history);
    FoldUpdate(c, r);
    SuffixHashes(r.update.unmined, Collect(c.past, OpsOf));
    DedupNet(Hashes(Collect(c.past, OpsOf)), r.update.unmined, r.update.mined);
  }
}
