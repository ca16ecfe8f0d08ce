/** That a sync succeeds: it follows the head along every chain the node can provide, and fails
    for the reasons listed and no other (chain.rs). */
module ChainProgress {
  import opened Primitives
  import opened ChainSync

  /** The node returns each of these blocks by its hash, and can load their logs. */
  predicate Provides(node: Node, bs: seq<Block>) {
    node.summarise(bs) && forall i | 0 <= i < |bs| :: node.fetch(bs[i].hash) == Some(bs[i])
  }

  /** The blocks connect to the window at the first of them: it stands on a known block, or where
      the window starts, and no later one that could does. */
  predicate Connects(window: seq<Block>, bs: seq<Block>)
    requires window != [] && bs != []
  {
    && window[0].number <= bs[0].number <= LastBlock(window).number + 1 && Meets(window, bs[0])
    && forall i | 0 < i < |bs| && bs[i].number <= LastBlock(window).number + 1 :: !Meets(window, bs[i])
  }

  lemma ParentProvided(bs: seq<Block>, i: nat, node: Node)
    requires Linked(bs) && Provides(node, bs) && 0 < i < |bs|
    ensures node.fetch(bs[i].parent) == Some(bs[i - 1]) && bs[i - 1].number + 1 == bs[i].number
    ensures [bs[i - 1]] + bs[i..] == bs[i - 1..]
  {
    assert LinkedAt(bs, i);
  }

  /** Loading back goes down the chain to the number asked for. */
  lemma {:induction false} LoadBackFollows(bs: seq<Block>, j: nat, k: nat, min: nat, node: Node)
    requires Linked(bs) && Provides(node, bs) && k <= j < |bs|
    requires bs[k].number <= min && forall i | k < i < |bs| :: bs[i].number > min
    ensures LoadBack(bs[j..], min, node) == Some(bs[k..])
    decreases j
  {
    if j > k {
      ParentProvided(bs, j, node);
      LoadBackFollows(bs, j - 1, k, min, node);
    }
  }

  /** Connecting goes down the chain to the block that meets the window. */
  lemma {:induction false} ConnectFollows(window: seq<Block>, bs: seq<Block>, j: nat, node: Node)
    requires window != [] && bs != [] && Linked(bs) && Provides(node, bs) && j < |bs|
    requires Meets(window, bs[0]) && forall i | 0 < i <= j :: !Meets(window, bs[i])
    ensures Connect(window, bs[j..], node) == Some(bs)
    decreases j
  {
    if j == 0 {
      assert bs[0..] == bs;
    } else {
      ParentProvided(bs, j, node);
      ConnectFollows(window, bs, j - 1, node);
    }
  }

  /** Where loading back stops on such a chain: at the head, or one past the end of the window. */
  lemma LoadedFrom(bs: seq<Block>, min: nat) returns (k: nat)
    requires bs != [] && Linked(bs) && bs[0].number <= min
    ensures k < |bs| && bs[k].number <= min && forall i | k < i < |bs| :: bs[i].number > min
    ensures forall i | 0 <= i <= k :: bs[i].number <= min
  {
    LinkedNumbers(bs, |bs| - 1);
    k := if LastBlock(bs).number <= min then |bs| - 1 else min - bs[0].number;
    forall i | 0 <= i < |bs| ensures bs[i].number == bs[0].number + i { LinkedNumbers(bs, i); }
  }

  lemma ExtendFollows(window: seq<Block>, bs: seq<Block>, history: nat, errors: nat, node: Node)
    requires window != [] && bs != [] && Linked(bs) && Provides(node, bs) && Connects(window, bs) && history > 0
    ensures Extend(window, LastBlock(bs), history, errors, node) == UpdateWith(window, bs, history, errors)
  {
    var min := LastBlock(window).number + 1;
    var k := LoadedFrom(bs, min);
    LoadsSuffix(bs, k, min, node);
    ConnectsSuffix(window, bs, k, node);
    ExtendBy(window, LastBlock(bs), bs[k..], bs, history, errors, node);
  }

  lemma ConnectsSuffix(window: seq<Block>, bs: seq<Block>, k: nat, node: Node)
    requires window != [] && bs != [] && Linked(bs) && Provides(node, bs) && Connects(window, bs)
    requires k < |bs| && forall i | 0 <= i <= k :: bs[i].number <= LastBlock(window).number + 1
    ensures Connect(window, bs[k..], node) == Some(bs)
  {
    ConnectFollows(window, bs, k, node);
  }

  lemma ExtendBy(window: seq<Block>, head: Block, loaded: seq<Block>, added: seq<Block>, history: nat, errors: nat,
                 node: Node)
    requires window != [] && history > 0 && loaded != [] && node.summarise(added)
    requires LoadBack([head], LastBlock(window).number + 1, node) == Some(loaded)
    requires Connect(window, loaded, node) == Some(added)
    ensures added != [] && added[0].number <= LastBlock(window).number + 1
    ensures Extend(window, head, history, errors, node) == UpdateWith(window, added, history, errors)
  {
  }

  lemma LoadsSuffix(bs: seq<Block>, k: nat, min: nat, node: Node)
    requires Linked(bs) && Provides(node, bs) && k < |bs|
    requires bs[k].number <= min && forall i | k < i < |bs| :: bs[i].number > min
    ensures LoadBack([LastBlock(bs)], min, node) == Some(bs[k..])
  {
    assert bs[|bs| - 1..] == [LastBlock(bs)];
    LoadBackFollows(bs, |bs| - 1, k, min, node);
  }

  /** The head is further behind the window than a reorganisation is followed. */
  predicate Behind(window: seq<Block>, head: Block, history: nat) {
    window != [] && LastBlock(window).number > head.number + history
  }

  predicate Ahead(window: seq<Block>, head: Block, history: nat) {
    window == [] || LastBlock(window).number + history < head.number
  }

  /** A sync to a head within reach follows every chain that ends there and connects to the window,
      whether it goes on from it or replaces a part of it. */
  lemma SyncFollows(window: seq<Block>, bs: seq<Block>, history: nat, errors: nat, node: Node)
    requires window != [] && WindowOk(window, history) && history > 0
    requires bs != [] && Linked(bs) && Provides(node, bs) && Connects(window, bs)
    requires LastBlock(bs).number <= LastBlock(window).number + history
    requires LastBlock(window).number <= LastBlock(bs).number + history
    ensures var r := Sync(window, LastBlock(bs), history, errors, node);
            && r.Synced? && r.added == bs && r.errors == errors
            && r.update.depth == LastBlock(window).number + 1 - bs[0].number
  {
    LinkedNumbers(window, |window| - 1);
    ExtendFollows(window, bs, history, errors, node);
  }

  /** A reset, from nothing or because the head is far ahead or was too far behind for too long,
      follows every chain long enough. */
  lemma ResetFollows(window: seq<Block>, bs: seq<Block>, history: nat, errors: nat, node: Node)
    requires history > 0 && bs != [] && Linked(bs) && Provides(node, bs)
    requires bs[0].number == SatSub(LastBlock(bs).number, history - 1)
    requires Ahead(window, LastBlock(bs), history) || (Behind(window, LastBlock(bs), history) && errors + 1 >= 50)
    ensures var r := Sync(window, LastBlock(bs), history, errors, node);
            r.Synced? && r.window == r.added == bs && r.errors == 0
  {
    var last := |bs| - 1;
    assert bs[last..] == [LastBlock(bs)] && bs[0..] == bs;
    forall i | 0 < i < |bs| ensures bs[i].number > bs[0].number { LinkedNumbers(bs, i); }
    LoadBackFollows(bs, last, 0, bs[0].number, node);
  }

  // ---------------------------------------------------------------- failures

  /** The parent of a block cannot be used. */
  predicate ParentMissing(b: Block, node: Node) {
    node.fetch(b.parent).None? || node.fetch(b.parent).value.number != b.number - 1
  }

  /** On the way back to a number a parent is missing. */
  predicate BrokenBack(b: Block, min: nat, node: Node)
    decreases b.number
  {
    b.number > min && (ParentMissing(b, node) || BrokenBack(node.fetch(b.parent).value, min, node))
  }

  /** On the way to the window a parent is missing. */
  predicate BrokenOff(window: seq<Block>, b: Block, node: Node)
    decreases b.number
  {
    !Meets(window, b) && (ParentMissing(b, node) || BrokenOff(window, node.fetch(b.parent).value, node))
  }

  lemma {:induction false} LoadBackFails(blocks: seq<Block>, min: nat, node: Node)
    requires blocks != []
    ensures LoadBack(blocks, min, node).None? <==> BrokenBack(blocks[0], min, node)
    decreases blocks[0].number
  {
    if blocks[0].number > min && !ParentMissing(blocks[0], node) {
      LoadBackFails([node.fetch(blocks[0].parent).value] + blocks, min, node);
    }
  }

  lemma {:induction false} ConnectFails(window: seq<Block>, added: seq<Block>, node: Node)
    requires added != []
    ensures Connect(window, added, node).None? <==> BrokenOff(window, added[0], node)
    decreases added[0].number
  {
    if !Meets(window, added[0]) && !ParentMissing(added[0], node) {
      ConnectFails(window, [node.fetch(added[0].parent).value] + added, node);
    }
  }

  /** The history up to the head cannot be loaded, or its logs cannot. */
  predicate HistoryMissing(head: Block, history: nat, node: Node)
    requires history > 0
  {
    var min := SatSub(head.number, history - 1);
    BrokenBack(head, min, node) || var loaded := LoadBack([head], min, node);
    loaded.Some? && !node.summarise(loaded.value)
  }

  lemma ResetFails(head: Block, history: nat, errors: nat, node: Node)
    requires history > 0
    ensures var r := ResetTo(head, history, errors, node);
            && (r.SyncFailed? <==> HistoryMissing(head, history, node))
            && (r.SyncFailed? ==> r.errors == errors)
  {
    LoadBackFails([head], SatSub(head.number, history - 1), node);
  }

  /** A block between the window and the head cannot be loaded, or the logs cannot. */
  predicate AddedMissing(window: seq<Block>, head: Block, node: Node)
    requires window != []
  {
    var min := LastBlock(window).number + 1;
    var loaded := LoadBack([head], min, node);
    || BrokenBack(head, min, node)
    || (loaded.Some? && BrokenOff(window, loaded.value[0], node))
    || (loaded.Some? && var added := Connect(window, loaded.value, node);
        added.Some? && !node.summarise(added.value))
  }

  lemma ExtendFails(window: seq<Block>, head: Block, history: nat, errors: nat, node: Node)
    requires window != [] && history > 0
    ensures var r := Extend(window, head, history, errors, node);
            && (r.SyncFailed? <==> AddedMissing(window, head, node))
            && (r.SyncFailed? ==> r.errors == errors)
  {
    var loaded := LoadBack([head], LastBlock(window).number + 1, node);
    LoadBackFails([head], LastBlock(window).number + 1, node);
    if loaded.Some? { ConnectFails(window, loaded.value, node); }
  }

  /** A head too far behind is refused and counted, up to the fiftieth in a row, which starts the
      window afresh, as a head too far ahead does. Any other failure is a missing parent or log, and
      is not counted. */
  lemma SyncFailsExactly(window: seq<Block>, head: Block, history: nat, errors: nat, node: Node)
    requires history > 0
    ensures var r := Sync(window, head, history, errors, node);
            var behind, ahead := Behind(window, head, history), Ahead(window, head, history);
            && (r.SyncFailed? <==>
                if behind && errors + 1 < 50 then true
                else if behind || ahead then HistoryMissing(head, history, node)
                else AddedMissing(window, head, node))
            && (r.SyncFailed? ==> r.errors == errors + if behind then 1 else 0)
  {
    if Behind(window, head, history) {
      ResetFails(head, history, errors + 1, node);
    } else if Ahead(window, head, history) {
      ResetFails(head, history, errors, node);
    } else {
      ExtendFails(window, head, history, errors, node);
    }
  }

  lemma OneBlockLinked(node: Node)
    requires node.fetch(52) == Some(Block(5, 52, 41, [], [])) && node.fetch(62) == Some(Block(6, 62, 52, [], []))
    requires forall bs :: node.summarise(bs)
    ensures var window := [Block(4, 41, 30, [], []), Block(5, 51, 41, [], [])];
            var bs := [Block(5, 52, 41, [], []), Block(6, 62, 52, [], [])];
            WindowOk(window, 10) && Linked(bs) && Provides(node, bs) && Connects(window, bs)
  {
    var window := [Block(4, 41, 30, [], []), Block(5, 51, 41, [], [])];
    var bs := [Block(5, 52, 41, [], []), Block(6, 62, 52, [], [])];
    assert LinkedAt(window, 1) && LinkedAt(bs, 1);
  }

  /** For instance, a reorganisation of one block. */
  lemma OneBlockReplaced(node: Node)
    requires node.fetch(52) == Some(Block(5, 52, 41, [], [])) && node.fetch(62) == Some(Block(6, 62, 52, [], []))
    requires forall bs :: node.summarise(bs)
    ensures var window := [Block(4, 41, 30, [], []), Block(5, 51, 41, [], [])];
            var r := Sync(window, Block(6, 62, 52, [], []), 10, 0, node);
            r.Synced? && r.update.depth == 1
            && r.window == [window[0], Block(5, 52, 41, [], []), Block(6, 62, 52, [], [])]
  {
    var window := [Block(4, 41, 30, [], []), Block(5, 51, 41, [], [])];
    var bs := [Block(5, 52, 41, [], []), Block(6, 62, 52, [], [])];
    OneBlockLinked(node);
    SyncFollows(window, bs, 10, 0, node);
    assert Popped(window, 1) == [window[0]] && [window[0]] + bs == [window[0], bs[0], bs[1]];
    ExtendFollows(window, bs, 10, 0, node);
  }
}
