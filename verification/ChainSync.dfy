/** Following the head of the chain with a window of recent blocks, as functions
    (chain.rs). */
module ChainSync {
  import opened Primitives

  datatype MinedOp = MinedOp(hash: Hash, sender: Address, nonce: nat)
  datatype BalanceUpdate = BalanceUpdate(address: Address, amount: nat, isAddition: bool)

  /** A block with what its summary holds. `parent` is kept in the window to say that it is
      linked. */
  datatype Block = Block(number: nat, hash: Hash, parent: Hash, ops: seq<MinedOp>, balances: seq<BalanceUpdate>)

  /** What the node answers during one sync: blocks by hash, and whether the logs of these
      blocks can be loaded. */
  datatype Node = Node(fetch: Hash -> Option<Block>, summarise: seq<Block> -> bool)

  ghost predicate Honest(node: Node) {
    forall h | node.fetch(h).Some? :: node.fetch(h).value.hash == h
  }

  const SYNC_ERROR_COUNT_MAX := 50

  function OpsOf(b: Block): seq<MinedOp> {
    b.ops
  }

  function BalancesOf(b: Block): seq<BalanceUpdate> {
    b.balances
  }

  /** What the blocks hold, first to last. */
  function Collect<T>(bs: seq<Block>, f: Block -> seq<T>): seq<T> {
    if bs == [] then [] else f(bs[0]) + Collect(bs[1..], f)
  }

  // ---------------------------------------------------------------- loading

  /** Walks back from the first block to a number. */
  function LoadBack(blocks: seq<Block>, min: nat, node: Node): (r: Option<seq<Block>>)
    requires blocks != []
    ensures r.Some? ==> r.value != [] && r.value[0].number <= min
    decreases blocks[0].number
  {
    if blocks[0].number <= min then Some(blocks)
    else
      var parent := node.fetch(blocks[0].parent);
      if parent.None? || parent.value.number != blocks[0].number - 1 then None
      else LoadBack([parent.value] + blocks, min, node)
  }

  function BlockWithNumber(window: seq<Block>, number: nat): Option<Block> {
    if window == [] || number < window[0].number || number - window[0].number >= |window| then None
    else Some(window[number - window[0].number])
  }

  /** Walks back until the known chain is met. */
  function Connect(window: seq<Block>, added: seq<Block>, node: Node): (r: Option<seq<Block>>)
    requires added != []
    ensures r.Some? ==> r.value != [] && r.value[0].number <= added[0].number
    decreases added[0].number
  {
    if added[0].number == 0 then Some(added)
    else
      var known := BlockWithNumber(window, added[0].number - 1);
      if known.None? || known.value.hash == added[0].parent then Some(added)
      else
        var parent := node.fetch(added[0].parent);
        if parent.None? || parent.value.number != added[0].number - 1 then None
        else Connect(window, [parent.value] + added, node)
  }

  // ---------------------------------------------------------------- syncing

  datatype Update = Update(
    latest: Block, earliest: nat, depth: nat, mined: seq<MinedOp>, unmined: seq<MinedOp>,
    balances: seq<BalanceUpdate>, unminedBalances: seq<BalanceUpdate>, deeperThanHistory: bool)

  /** `added` are the blocks an update announces. */
  datatype SyncResult =
    | Synced(window: seq<Block>, errors: nat, added: seq<Block>, update: Update)
    | SyncFailed(errors: nat)
    | Underflow

  function LastBlock(bs: seq<Block>): Block
    requires bs != []
  {
    bs[|bs| - 1]
  }

  function KeepLast(bs: seq<Block>, n: nat): seq<Block> {
    if |bs| <= n then bs else bs[|bs| - n..]
  }

  function ResetTo(head: Block, history: nat, errors: nat, node: Node): SyncResult
    requires history > 0
  {
    var loaded := LoadBack([head], SatSub(head.number, history - 1), node);
    if loaded.None? || !node.summarise(loaded.value) then SyncFailed(errors)
    else
      var bs := loaded.value;
      Synced(bs, 0, bs,
             Update(LastBlock(bs), bs[0].number, 0, Collect(bs, OpsOf), [], Collect(bs, BalancesOf), [], false))
  }

  /** How many blocks are to be replaced, computed from block numbers: it may be more than the
      window has. */
  function Depth(window: seq<Block>, added: seq<Block>): nat
    requires window != [] && added != [] && added[0].number <= LastBlock(window).number + 1
  {
    LastBlock(window).number + 1 - added[0].number
  }

  function Popped(window: seq<Block>, depth: nat): seq<Block> {
    window[..SatSub(|window|, depth)]
  }

  /** The blocks from that many before the end on. Counting back past the start wraps around to
      a number past the end. */
  function Gone(window: seq<Block>, depth: nat): seq<Block> {
    if depth > |window| then [] else window[|window| - depth..]
  }

  /** Replaces the last blocks of the window by the added ones. */
  function Replace(window: seq<Block>, added: seq<Block>, depth: nat, history: nat, errors: nat): SyncResult
    requires added != [] && history > 0
  {
    var w, gone := KeepLast(Popped(window, depth) + added, history), Gone(window, depth);
    Synced(w, errors, added, Update(LastBlock(w), w[0].number, depth, Collect(added, OpsOf), Collect(gone, OpsOf),
                                    Collect(added, BalancesOf), Collect(gone, BalancesOf), depth >= history))
  }

  /** If the window has fewer blocks than are to be replaced, the code's subtraction has no
      answer: with overflow checks, it panics. */
  function UpdateWith(window: seq<Block>, added: seq<Block>, history: nat, errors: nat): SyncResult
    requires window != [] && added != [] && added[0].number <= LastBlock(window).number + 1 && history > 0
  {
    var depth := Depth(window, added);
    if depth > |window| then Underflow else Replace(window, added, depth, history, errors)
  }

  /** Without overflow checks it wraps around. */
  function UpdateWrapped(window: seq<Block>, added: seq<Block>, history: nat, errors: nat): SyncResult
    requires window != [] && added != [] && added[0].number <= LastBlock(window).number + 1 && history > 0
  {
    Replace(window, added, Depth(window, added), history, errors)
  }

  function Extend(window: seq<Block>, head: Block, history: nat, errors: nat, node: Node): SyncResult
    requires window != [] && history > 0
  {
    var current := LastBlock(window).number;
    var loaded := LoadBack([head], current + 1, node);
    if loaded.None? then SyncFailed(errors)
    else
      var added := Connect(window, loaded.value, node);
      if added.None? || !node.summarise(added.value) then SyncFailed(errors)
      else UpdateWith(window, added.value, history, errors)
  }

  function Sync(window: seq<Block>, head: Block, history: nat, errors: nat, node: Node): SyncResult
    requires history > 0
  {
    if window == [] then ResetTo(head, history, errors, node)
    else
      var current := LastBlock(window).number;
      if current > head.number + history then
        if errors + 1 >= SYNC_ERROR_COUNT_MAX then ResetTo(head, history, errors + 1, node) else SyncFailed(errors + 1)
      else if current + history < head.number then ResetTo(head, history, errors, node)
      else Extend(window, head, history, errors, node)
  }

  /** A sync in a build without overflow checks. */
  function SyncWrapped(window: seq<Block>, head: Block, history: nat, errors: nat, node: Node): SyncResult
    requires history > 0
  {
    var r := Sync(window, head, history, errors, node);
    if r.Underflow? && window != [] && head.number <= LastBlock(window).number
    then UpdateWrapped(window, [head], history, errors) else r
  }

  // ---------------------------------------------------------------- what loading gives

  predicate LinkedAt(bs: seq<Block>, i: nat)
    requires 0 < i < |bs|
  {
    bs[i].number == bs[i - 1].number + 1 && bs[i].parent == bs[i - 1].hash
  }

  /** Consecutive numbers and matching parent hashes. */
  predicate Linked(bs: seq<Block>) {
    forall i | 0 < i < |bs| :: LinkedAt(bs, i)
  }

  lemma {:induction false} LinkedNumbers(bs: seq<Block>, i: nat)
    requires Linked(bs) && i < |bs|
    ensures bs[i].number == bs[0].number + i
    decreases i
  {
    if i > 0 {
      LinkedNumbers(bs, i - 1);
      assert LinkedAt(bs, i);
    }
  }

  lemma LinkedPrepend(b: Block, bs: seq<Block>)
    requires Linked(bs) && bs != [] && b.number + 1 == bs[0].number && b.hash == bs[0].parent
    ensures Linked([b] + bs)
  {
    LinkedJoin([b], bs);
  }

  /** Loading back ends at the number asked for, linked, with the blocks it started from at
      the end. */
  lemma {:induction false} LoadBackGives(blocks: seq<Block>, min: nat, node: Node)
    requires blocks != [] && Linked(blocks) && Honest(node) && LoadBack(blocks, min, node).Some?
    ensures var r := LoadBack(blocks, min, node).value;
            && r != [] && Linked(r) && LastBlock(r) == LastBlock(blocks)
            && r[0].number == if blocks[0].number <= min then blocks[0].number else min
    decreases blocks[0].number
  {
    if blocks[0].number > min {
      var parent := node.fetch(blocks[0].parent).value;
      LinkedPrepend(parent, blocks);
      LoadBackGives([parent] + blocks, min, node);
    }
  }

  /** Where the added blocks meet the window: on top of a known block with the right hash, or
      nowhere because the window does not reach back that far. */
  predicate Meets(window: seq<Block>, first: Block) {
    first.number == 0 ||
    var known := BlockWithNumber(window, first.number - 1);
    known.None? || known.value.hash == first.parent
  }

  lemma {:induction false} ConnectGives(window: seq<Block>, added: seq<Block>, node: Node)
    requires window != [] && Linked(window) && added != [] && Linked(added) && Honest(node)
             && Connect(window, added, node).Some?
    ensures var r := Connect(window, added, node).value;
            && r != [] && Linked(r) && LastBlock(r) == LastBlock(added) && Meets(window, r[0])
            && r[0].number <= added[0].number && (r[0].number < added[0].number ==> r[0].number >= window[0].number)
    decreases added[0].number
  {
    if !Meets(window, added[0]) {
      var parent := node.fetch(added[0].parent).value;
      LinkedPrepend(parent, added);
      ConnectGives(window, [parent] + added, node);
    }
  }

  // ---------------------------------------------------------------- the window

  predicate WindowOk(window: seq<Block>, history: nat) {
    |window| <= history && Linked(window)
  }

  lemma LinkedSlice(bs: seq<Block>, i: nat, j: nat)
    requires Linked(bs) && i <= j <= |bs|
    ensures Linked(bs[i..j])
  {
    var s := bs[i..j];
    forall k | 0 < k < |s| ensures LinkedAt(s, k) {
      assert LinkedAt(bs, i + k);
    }
  }

  lemma LinkedJoin(xs: seq<Block>, ys: seq<Block>)
    requires Linked(xs) && Linked(ys)
    requires xs == [] || ys == [] || (ys[0].number == LastBlock(xs).number + 1 && ys[0].parent == LastBlock(xs).hash)
    ensures Linked(xs + ys)
  {
    var s := xs + ys;
    forall k | 0 < k < |s| ensures LinkedAt(s, k) {
      if k < |xs| {
        assert LinkedAt(xs, k);
      } else if k > |xs| {
        assert LinkedAt(ys, k - |xs|);
      }
    }
  }

  /** Replacing the last blocks keeps the window linked. */
  lemma UpdateLinked(window: seq<Block>, added: seq<Block>, depth: nat)
    requires window != [] && Linked(window) && added != [] && Linked(added) && Meets(window, added[0])
    requires added[0].number + depth == LastBlock(window).number + 1 && depth <= |window|
    ensures Linked(window[..|window| - depth] + added)
  {
    var n := |window| - depth;
    LinkedNumbers(window, |window| - 1);
    LinkedSlice(window, 0, n);
    assert window[..n] == window[0..n];
    if n > 0 {
      LinkedNumbers(window, n - 1);
      assert BlockWithNumber(window, added[0].number - 1) == Some(window[n - 1]);
    }
    LinkedJoin(window[..n], added);
  }

  lemma {:induction false} KeepLastOk(bs: seq<Block>, n: nat)
    requires bs != [] && Linked(bs) && n > 0
    ensures var r := KeepLast(bs, n); r != [] && WindowOk(r, n) && LastBlock(r) == LastBlock(bs)
  {
    if |bs| > n {
      LinkedSlice(bs, |bs| - n, |bs|);
      assert bs[|bs| - n..] == bs[|bs| - n..|bs|];
    }
  }

  lemma {:induction false} UpdateWithWindow(window: seq<Block>, added: seq<Block>, history: nat, errors: nat)
    requires window != [] && WindowOk(window, history) && added != [] && Linked(added) && Meets(window, added[0])
    requires added[0].number <= LastBlock(window).number + 1 && history > 0
    ensures var r := UpdateWith(window, added, history, errors);
            && (r.Underflow? <==> added[0].number < window[0].number)
            && (r.Synced? ==> WindowOk(r.window, history) && r.window != [] && LastBlock(r.window) == LastBlock(added))
  {
    LinkedNumbers(window, |window| - 1);
    var depth := Depth(window, added);
    if depth <= |window| { ReplaceWindow(window, added, depth, history, errors); }
  }

  lemma ReplaceWindow(window: seq<Block>, added: seq<Block>, depth: nat, history: nat, errors: nat)
    requires window != [] && Linked(window) && added != [] && Linked(added) && Meets(window, added[0])
    requires added[0].number + depth == LastBlock(window).number + 1 && depth <= |window| && history > 0
    ensures var w := Replace(window, added, depth, history, errors).window;
            WindowOk(w, history) && w != [] && LastBlock(w) == LastBlock(added)
  {
    UpdateLinked(window, added, depth);
    KeepLastOk(window[..|window| - depth] + added, history);
  }

  // ---------------------------------------------------------------- one sync

  lemma {:induction false} ResetWindow(head: Block, history: nat, errors: nat, node: Node)
    requires history > 0 && Honest(node)
    ensures var r := ResetTo(head, history, errors, node);
            && !r.Underflow?
            && (r.Synced? ==> && r.window != [] && WindowOk(r.window, history) && LastBlock(r.window) == head
                              && |r.window| == (if head.number < history then head.number + 1 else history))
  {
    var min := SatSub(head.number, history - 1);
    if LoadBack([head], min, node).Some? {
      var bs := LoadBack([head], min, node).value;
      LoadBackGives([head], min, node);
      LinkedNumbers(bs, |bs| - 1);
    }
  }

  /** What is added starts no earlier than the head or the window, whichever is earlier, and
      loading it took no more blocks than the history and the window together. */
  lemma {:induction false} AddedBlocks(window: seq<Block>, head: Block, history: nat, node: Node)
    requires window != [] && WindowOk(window, history) && Honest(node)
    requires window[0].number <= head.number <= LastBlock(window).number + history || head.number < window[0].number
    requires LoadBack([head], LastBlock(window).number + 1, node).Some?
    requires Connect(window, LoadBack([head], LastBlock(window).number + 1, node).value, node).Some?
    ensures var added := Connect(window, LoadBack([head], LastBlock(window).number + 1, node).value, node).value;
            && Linked(added) && LastBlock(added) == head && Meets(window, added[0])
            && |added| <= history + |window|
            && (added[0].number < window[0].number <==> head.number < window[0].number)
            && (head.number < window[0].number ==> added == [head])
  {
    var loaded := LoadBack([head], LastBlock(window).number + 1, node).value;
    var added := Connect(window, loaded, node).value;
    LoadBackGives([head], LastBlock(window).number + 1, node);
    LinkedNumbers(window, |window| - 1);
    ConnectGives(window, loaded, node);
    LinkedNumbers(added, |added| - 1);
  }

  lemma {:induction false} ExtendWindow(window: seq<Block>, head: Block, history: nat, errors: nat, node: Node)
    requires window != [] && WindowOk(window, history) && history > 0 && Honest(node)
    requires head.number <= LastBlock(window).number + history
    ensures var r := Extend(window, head, history, errors, node);
            && (r.Synced? ==> r.window != [] && WindowOk(r.window, history) && LastBlock(r.window) == head)
            && (r.Underflow? <==> head.number < window[0].number && node.summarise([head]))
  {
    var loaded := LoadBack([head], LastBlock(window).number + 1, node);
    LinkedNumbers(window, |window| - 1);
    if loaded.Some? && Connect(window, loaded.value, node).Some? {
      var added := Connect(window, loaded.value, node).value;
      AddedBlocks(window, head, history, node);
      UpdateWithWindow(window, added, history, errors);
      assert node.summarise(added) ==>
        Extend(window, head, history, errors, node) == UpdateWith(window, added, history, errors);
    } else {
      NotConnected(window, head, history, errors, node);
    }
  }

  lemma NotConnected(window: seq<Block>, head: Block, history: nat, errors: nat, node: Node)
    requires window != [] && WindowOk(window, history) && history > 0
    requires var loaded := LoadBack([head], LastBlock(window).number + 1, node);
             loaded.None? || Connect(window, loaded.value, node).None?
    ensures Extend(window, head, history, errors, node) == SyncFailed(errors) && head.number >= window[0].number
  {
    LinkedNumbers(window, |window| - 1);
  }

  /** After every successful sync the window is not empty, no longer than the history,
      linked, and ends at the new head. The depth of a reorganisation has no answer exactly
      when the head lies below the window but not far enough to be refused. */
  lemma {:induction false} SyncWindow(window: seq<Block>, head: Block, history: nat, errors: nat, node: Node)
    requires WindowOk(window, history) && history > 0 && Honest(node)
    ensures var r := Sync(window, head, history, errors, node);
            && (r.Synced? ==> && r.window != [] && WindowOk(r.window, history) && LastBlock(r.window) == head
                              && r.update.latest == head && r.update.earliest == r.window[0].number)
            && (r.Underflow? <==> && window != [] && head.number < window[0].number
                                  && LastBlock(window).number <= head.number + history && node.summarise([head]))
  {
    ResetWindow(head, history, errors, node);
    ResetWindow(head, history, errors + 1, node);
    if window != [] {
      LinkedNumbers(window, |window| - 1);
      if head.number <= LastBlock(window).number + history { ExtendWindow(window, head, history, errors, node); }
    }
  }

  /** With a full window there is exactly one such head: the one just below it. */
  lemma UnderflowHead(window: seq<Block>, head: Block, history: nat, errors: nat, node: Node)
    requires WindowOk(window, history) && |window| == history > 0 && Honest(node) && node.summarise([head])
    ensures Sync(window, head, history, errors, node).Underflow? <==> head.number + 1 == window[0].number
  {
    SyncWindow(window, head, history, errors, node);
    LinkedNumbers(window, |window| - 1);
  }

  /** For instance a history of one block and the head before it. */
  lemma UnderflowExample(node: Node) returns (window: seq<Block>, head: Block)
    requires Honest(node) && forall bs :: node.summarise(bs)
    ensures WindowOk(window, 1) && Sync(window, head, 1, 0, node).Underflow?
  {
    head := Block(4, 40, 30, [], []);
    window := [Block(5, 51, 41, [], [])];
    UnderflowHead(window, head, 1, 0, node);
  }

  /** Without overflow checks every sync has an answer. Where the depth has none, the window is
      replaced by the head alone, and none of the blocks that go are announced as unmined. */
  lemma {:induction false} WrappedWindow(window: seq<Block>, head: Block, history: nat, errors: nat, node: Node)
    requires WindowOk(window, history) && history > 0 && Honest(node)
    ensures var checked := Sync(window, head, history, errors, node);
            var r := SyncWrapped(window, head, history, errors, node);
            && !r.Underflow?
            && (r.Synced? ==> r.window != [] && WindowOk(r.window, history) && LastBlock(r.window) == head)
            && (!checked.Underflow? ==> r == checked)
            && (checked.Underflow? ==>
                  && window != [] && r.Synced? && r.window == r.added == [head] && r.errors == errors
                  && r.update.unmined == [] && r.update.unminedBalances == [] && r.update.depth > |window|
                  && (r.update.deeperThanHistory <==> LastBlock(window).number + 1 >= head.number + history))
  {
    SyncWindow(window, head, history, errors, node);
    if window != [] {
      LinkedNumbers(window, |window| - 1);
      assert Popped(window, |window| + 1) == [] && [] + [head] == [head];
    }
  }

  /** An update says that a reorganisation went deeper than the history exactly when a full
      window was replaced as a whole. */
  lemma {:induction false} DeepReorg(window: seq<Block>, head: Block, history: nat, errors: nat, node: Node)
    requires WindowOk(window, history) && history > 0 && Sync(window, head, history, errors, node).Synced?
    ensures var u := Sync(window, head, history, errors, node).update;
            u.depth <= |window| && (u.deeperThanHistory <==> u.depth == |window| == history)
  {
  }
}
