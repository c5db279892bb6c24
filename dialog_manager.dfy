/*
 * systems/dialog_manager.py: the dialog navigator.  It shows one dialog tree
 * (at a current node, with an option cursor) or one plain text at a time,
 * keeps a FIFO queue of what to show next, and splits a node whose text
 * contains "---" into a chain of temporary nodes joined by a "Continuar"
 * option.  The splitting writes into the tree object it was given.
 */
module DialogManager {
  import opened Common
  import Text

  // ---------------------------------------------------------------------
  // Splitting a text on "---"
  // ---------------------------------------------------------------------

  /** Every part stripped. */
  function StripAll(parts: seq<string>): (r: seq<string>)
    ensures |r| == |parts| && forall i | 0 <= i < |parts| :: r[i] == Strip(parts[i])
  {
    if parts == [] then [] else [Strip(parts[0])] + StripAll(parts[1..])
  }

  /** The non-empty strings of a list, in order. */
  function NonEmpty(parts: seq<string>): (ps: seq<string>)
    ensures |ps| <= |parts|
    ensures forall i | 0 <= i < |ps| :: ps[i] != [] && ps[i] in parts
  {
    if parts == [] then []
    else
      var rest := NonEmpty(parts[1..]);
      if parts[0] != [] then [parts[0]] + rest else rest
  }

  /** `[m.strip() for m in text.split("---") if m.strip()]`. */
  function Pieces(text: string): seq<string>
  {
    NonEmpty(StripAll(Split(text, "---")))
  }

  /** The text breaks into more than one message. */
  predicate Splits(text: string)
  {
    Contains(text, "---") && |Pieces(text)| > 1
  }

  /** f"_temp_{i}": the chain ids start_dialog uses. */
  function TempId(i: nat): string
  {
    "_temp_" + NatToString(i)
  }

  lemma TempIdZero()
    ensures TempId(0) == "_temp_0"
  {
    assert NatToString(0) == ['0'];
  }

  function StartIds(k: nat): (ids: seq<string>)
    ensures |ids| == k && forall i | 0 <= i < k :: ids[i] == TempId(i)
  {
    seq(k, i requires 0 <= i < k => TempId(i))
  }

  /** f"_temp_{orig}_{i}" for the intermediate nodes, f"_temp_{orig}_last" for the last one. */
  function SepId(orig: string, i: nat, k: nat): string
  {
    if i + 1 < k then "_temp_" + orig + "_" + NatToString(i) else "_temp_" + orig + "_last"
  }

  function SepIds(orig: string, k: nat): (ids: seq<string>)
    ensures |ids| == k && forall i | 0 <= i < k :: ids[i] == SepId(orig, i, k)
  {
    seq(k, i requires 0 <= i < k => SepId(orig, i, k))
  }

  /**
   * The temporary nodes for the messages: each but the last has the single
   * option "Continuar" leading to the next one; the last keeps `options`.
   */
  function Chain(ids: seq<string>, speaker: Option<string>, msgs: seq<string>, options: seq<Text.DialogOption>)
    : (c: seq<Text.DialogNode>)
    requires |ids| == |msgs|
    ensures |c| == |msgs|
    ensures forall i | 0 <= i < |msgs| :: c[i].nodeId == ids[i] && c[i].speaker == speaker && c[i].text == msgs[i]
    ensures forall i | 0 <= i < |msgs| - 1 :: c[i].options == [Text.PlainOption("Continuar", Some(ids[i + 1]))]
    ensures |msgs| > 0 ==> c[|msgs| - 1].options == options
  {
    seq(|msgs|, i requires 0 <= i < |msgs| =>
      Text.PlainNode(ids[i], speaker, msgs[i],
                     if i < |msgs| - 1 then [Text.PlainOption("Continuar", Some(ids[i + 1]))] else options))
  }

  lemma ChainDistinct(ids: seq<string>, speaker: Option<string>, msgs: seq<string>, options: seq<Text.DialogOption>)
    requires |ids| == |msgs|
    requires forall i, j | 0 <= i < j < |ids| :: ids[i] != ids[j]
    ensures Text.DistinctIds(Chain(ids, speaker, msgs, options))
  {
  }

  lemma StartIdsDistinct(k: nat)
    ensures forall i, j | 0 <= i < j < k :: StartIds(k)[i] != StartIds(k)[j]
  {
    forall i, j | 0 <= i < j < k
      ensures StartIds(k)[i] != StartIds(k)[j]
    {
      if TempId(i) == TempId(j) {
        assert TempId(i)[6..] == NatToString(i);
        assert TempId(j)[6..] == NatToString(j);
        NatToStringInjective(i, j);
      }
    }
  }

  lemma SepIdsDistinct(orig: string, k: nat)
    ensures forall i, j | 0 <= i < j < k :: SepIds(orig, k)[i] != SepIds(orig, k)[j]
  {
    var n := |"_temp_" + orig + "_"|;
    forall i, j | 0 <= i < j < k
      ensures SepId(orig, i, k) != SepId(orig, j, k)
    {
      assert SepId(orig, i, k)[n..] == NatToString(i);
      if j + 1 < k {
        if SepId(orig, i, k) == SepId(orig, j, k) {
          assert SepId(orig, j, k)[n..] == NatToString(j);
          NatToStringInjective(i, j);
        }
      } else {
        assert SepId(orig, i, k)[n] == NatToString(i)[0];
        assert SepId(orig, j, k)[n] == 'l';
      }
    }
  }

  // ---------------------------------------------------------------------
  // What the splitting does to a tree, as functions of its old contents
  // ---------------------------------------------------------------------

  /** The start chain of start_dialog for a start node whose text splits. */
  function StartChain(start: Text.DialogNode): seq<Text.DialogNode>
  {
    Chain(StartIds(|Pieces(start.text)|), start.speaker, Pieces(start.text), start.options)
  }

  /**
   * start_dialog's effect on a tree with the given start id, node map and
   * order: the new start id, node map and order.
   */
  function StartResult(startNode: string, nodes: map<string, Text.DialogNode>, order: seq<string>)
    : (string, map<string, Text.DialogNode>, seq<string>)
    requires startNode in nodes
  {
    var start := nodes[startNode];
    if Splits(start.text) then
      var r := Text.AddAll(nodes, order, StartChain(start));
      (TempId(0), r.0, r.1)
    else (startNode, nodes, order)
  }

  /** The chain _process_node_with_separators builds for node `id`. */
  function SepChain(id: string, node: Text.DialogNode): seq<Text.DialogNode>
  {
    Chain(SepIds(id, |Pieces(node.text)|), node.speaker, Pieces(node.text), node.options)
  }

  /** Whether _process_node_with_separators splits node `id`. */
  predicate SplitsAt(id: string, nodes: map<string, Text.DialogNode>)
  {
    !StartsWith(id, "_temp_") && id in nodes && Splits(nodes[id].text)
  }

  /**
   * _process_node_with_separators' effect once the current id is `id`:
   * the new current id, node map and order.
   */
  function SeparatorResult(id: string, nodes: map<string, Text.DialogNode>, order: seq<string>)
    : (string, map<string, Text.DialogNode>, seq<string>)
  {
    if SplitsAt(id, nodes) then
      var r := Text.AddAll(nodes, order, SepChain(id, nodes[id]));
      (SepId(id, 0, |Pieces(nodes[id].text)|), r.0, r.1)
    else (id, nodes, order)
  }

  /**
   * Adding a chain with distinct ids stores node i under ids[i], holding
   * message i and continuing to ids[i + 1], the last one with `options`;
   * every other node is kept.
   */
  lemma ChainStored(nodes: map<string, Text.DialogNode>, order: seq<string>, ids: seq<string>,
                    speaker: Option<string>, msgs: seq<string>, options: seq<Text.DialogOption>)
    requires |ids| == |msgs| >= 1
    requires forall i, j | 0 <= i < j < |ids| :: ids[i] != ids[j]
    ensures var m := Text.AddAll(nodes, order, Chain(ids, speaker, msgs, options)).0;
      (forall i | 0 <= i < |ids| :: ids[i] in m && m[ids[i]].text == msgs[i] && m[ids[i]].speaker == speaker) &&
      (forall i | 0 <= i < |ids| - 1 :: m[ids[i]].options == [Text.PlainOption("Continuar", Some(ids[i + 1]))]) &&
      m[ids[|ids| - 1]].options == options &&
      (forall key | key in nodes && key !in ids :: key in m && m[key] == nodes[key])
  {
    var chain := Chain(ids, speaker, msgs, options);
    var m := Text.AddAll(nodes, order, chain).0;
    ChainDistinct(ids, speaker, msgs, options);
    Text.AddAllLookup(nodes, order, chain);
    forall i | 0 <= i < |ids|
      ensures ids[i] in m && m[ids[i]] == chain[i]
    {
      assert chain[i].nodeId == ids[i];
    }
    Text.AddAllFrame(nodes, order, chain);
    assert Text.Ids(chain) == ids;
  }

  /**
   * When the start node splits into k messages, the new start is _temp_0,
   * and the chain _temp_0 .. _temp_{k-1} is stored as ChainStored says.
   */
  lemma StartSplitShape(startNode: string, nodes: map<string, Text.DialogNode>, order: seq<string>)
    requires startNode in nodes && Splits(nodes[startNode].text)
    ensures var start := nodes[startNode];
      var msgs := Pieces(start.text);
      var ids := StartIds(|msgs|);
      var r := StartResult(startNode, nodes, order);
      r.0 == TempId(0) && r.0 == ids[0] &&
      (forall i | 0 <= i < |ids| :: ids[i] in r.1 && r.1[ids[i]].text == msgs[i] && r.1[ids[i]].speaker == start.speaker) &&
      (forall i | 0 <= i < |ids| - 1 :: r.1[ids[i]].options == [Text.PlainOption("Continuar", Some(ids[i + 1]))]) &&
      r.1[ids[|ids| - 1]].options == start.options &&
      (forall key | key in nodes && key !in ids :: key in r.1 && r.1[key] == nodes[key])
  {
    var start := nodes[startNode];
    var msgs := Pieces(start.text);
    StartIdsDistinct(|msgs|);
    ChainStored(nodes, order, StartIds(|msgs|), start.speaker, msgs, start.options);
  }

  /**
   * When node `id` splits into k messages, the current node becomes the
   * first temporary one and the chain _temp_{id}_0 .. _temp_{id}_last is
   * stored as ChainStored says.
   */
  lemma SeparatorSplitShape(id: string, nodes: map<string, Text.DialogNode>, order: seq<string>)
    requires SplitsAt(id, nodes)
    ensures var node := nodes[id];
      var msgs := Pieces(node.text);
      var ids := SepIds(id, |msgs|);
      var r := SeparatorResult(id, nodes, order);
      r.0 == ids[0] && ids[|ids| - 1] == "_temp_" + id + "_last" &&
      (forall i | 0 <= i < |ids| :: ids[i] in r.1 && r.1[ids[i]].text == msgs[i] && r.1[ids[i]].speaker == node.speaker) &&
      (forall i | 0 <= i < |ids| - 1 :: r.1[ids[i]].options == [Text.PlainOption("Continuar", Some(ids[i + 1]))]) &&
      r.1[ids[|ids| - 1]].options == node.options &&
      (forall key | key in nodes && key !in ids :: key in r.1 && r.1[key] == nodes[key])
  {
    var node := nodes[id];
    var msgs := Pieces(node.text);
    SepIdsDistinct(id, |msgs|);
    ChainStored(nodes, order, SepIds(id, |msgs|), node.speaker, msgs, node.options);
  }

  /** Temporary nodes are never split again. */
  lemma TempNodesUntouched(id: string, nodes: map<string, Text.DialogNode>, order: seq<string>)
    requires StartsWith(id, "_temp_")
    ensures SeparatorResult(id, nodes, order) == (id, nodes, order)
  {
  }

  // ---------------------------------------------------------------------
  // The navigator
  // ---------------------------------------------------------------------

  datatype QueueItem = QText(content: Text.TextContent) | QTree(tree: Text.DialogTree)

  /** An entry of queue_multiple_texts: a string or a ready TextContent. */
  datatype TextItem = Str(s: string) | Content(c: Text.TextContent)

  /** The title queue_multiple_texts gives entry i: titles[i] when there is one, None otherwise. */
  function TitleAt(titles: Option<seq<Option<string>>>, i: nat): Option<string>
  {
    if titles.Some? && i < |titles.value| then titles.value[i] else None
  }

  /** What queue_multiple_texts appends for entry i. */
  function QueuedText(item: TextItem, title: Option<string>): (q: QueueItem)
    ensures q.QText?
    ensures item.Content? ==> q.content == item.c
    ensures item.Str? ==> Join(q.content.lines, "\n") == item.s && q.content.title == title && !q.content.autoClose
  {
    match item
    case Content(c) => QText(c)
    case Str(s) => QText(Text.FromString(s, title, false))
  }

  /**
   * The loops of start_dialog and _process_node_with_separators: the
   * intermediate nodes in order, each continuing to the next id, then the
   * last node with the original options.
   */
  method AddChain(tree: Text.DialogTree, ids: seq<string>, speaker: Option<string>, msgs: seq<string>,
                  options: seq<Text.DialogOption>)
    requires |ids| == |msgs| >= 1
    modifies tree`nodes, tree`order
    ensures (tree.nodes, tree.order) == Text.AddAll(old(tree.nodes), old(tree.order), Chain(ids, speaker, msgs, options))
  {
    ghost var chain := Chain(ids, speaker, msgs, options);
    ghost var nodes0, order0 := tree.nodes, tree.order;
    var i := 0;
    while i < |msgs| - 1
      invariant 0 <= i <= |msgs| - 1
      invariant (tree.nodes, tree.order) == Text.AddAll(nodes0, order0, chain[..i])
    {
      var temp := Text.PlainNode(ids[i], speaker, msgs[i], [Text.PlainOption("Continuar", Some(ids[i + 1]))]);
      assert chain[i] == temp;
      Text.AddAllSnoc(nodes0, order0, chain, i);
      tree.AddNode(temp);
      i := i + 1;
    }
    var last := Text.PlainNode(ids[|msgs| - 1], speaker, msgs[|msgs| - 1], options);
    assert chain[|msgs| - 1] == last;
    Text.AddAllSnoc(nodes0, order0, chain, |msgs| - 1);
    assert chain[..|msgs|] == chain;
    tree.AddNode(last);
  }

  /** The splitting part of start_dialog, on a tree whose start node exists. */
  method SplitStart(tree: Text.DialogTree)
    requires tree.startNode in tree.nodes
    modifies tree`nodes, tree`order, tree`startNode
    ensures (tree.startNode, tree.nodes, tree.order) == StartResult(old(tree.startNode), old(tree.nodes), old(tree.order))
  {
    var start := tree.nodes[tree.startNode];
    if Contains(start.text, "---") {
      var msgs := Pieces(start.text);
      if |msgs| > 1 {
        assert Splits(start.text);
        AddChain(tree, StartIds(|msgs|), start.speaker, msgs, start.options);
        TempIdZero();
        tree.startNode := "_temp_0";
      }
    }
  }

  /** The body of _process_node_with_separators for current id `id`: returns the new current id. */
  method SplitAt(tree: Text.DialogTree, id: string) returns (current: string)
    modifies tree`nodes, tree`order
    ensures (current, tree.nodes, tree.order) == SeparatorResult(id, old(tree.nodes), old(tree.order))
  {
    if StartsWith(id, "_temp_") {
      return id;
    }
    var nodeOpt := tree.GetNode(id);
    if nodeOpt.None? || !Contains(nodeOpt.value.text, "---") {
      return id;
    }
    var node := nodeOpt.value;
    var msgs := Pieces(node.text);
    if |msgs| <= 1 {
      return id;
    }
    // more than one message, so the intermediate ids are never empty and the first is ids[0]
    var ids := SepIds(id, |msgs|);
    AddChain(tree, ids, node.speaker, msgs, node.options);
    current := ids[0];
  }

  class DialogManager {
    var currentTree: Text.DialogTree?
    var currentNodeId: Option<string>
    var selectedOption: int
    var textContent: Option<Text.TextContent>
    var textType: Option<Text.TextType>
    var queue: seq<QueueItem>

    /** The cursor is never negative: it is only set to 0 or reduced modulo the option count. */
    predicate Valid()
      reads this
    {
      selectedOption >= 0
    }

    /** Nothing shown. */
    predicate Cleared()
      reads this
    {
      currentTree == null && currentNodeId.None? && selectedOption == 0 && textContent.None? && textType.None?
    }

    /** Tree t shown at its start node. */
    predicate ShowsDialog(t: Text.DialogTree)
      reads this, t
    {
      currentTree == t && currentNodeId == Some(t.startNode) && selectedOption == 0 &&
      textContent.None? && textType == Some(Text.Dialog)
    }

    /** Text c shown. */
    predicate ShowsText(c: Text.TextContent)
      reads this
    {
      textContent == Some(c) && currentTree == null && currentNodeId.None? && selectedOption == 0 &&
      textType == Some(Text.Simple)
    }

    /** The tree at the head of the queue, which close and process_queue may split. */
    function HeadTrees(): set<object>
      reads this
    {
      if |queue| > 0 && queue[0].QTree? then {queue[0].tree} else {}
    }

    constructor ()
      ensures Valid() && Cleared() && queue == []
    {
      currentTree, currentNodeId, selectedOption, textContent, textType := null, None, 0, None, None;
      queue := [];
    }

    /** is_active: a tree or a text is shown. */
    predicate IsActive()
      reads this
    {
      currentTree != null || textContent.Some?
    }

    predicate IsDialog()
      reads this
    {
      textType == Some(Text.Dialog)
    }

    predicate IsSimpleText()
      reads this
    {
      textType == Some(Text.Simple)
    }

    predicate HasQueuedMessages()
      reads this
    {
      |queue| > 0
    }

    /**
     * start_dialog: False and no change without a tree or a start node;
     * otherwise the start node may be split and the dialog is shown at the
     * (new) start node.
     */
    method StartDialog(tree: Text.DialogTree?) returns (ok: bool)
      modifies this, tree
      ensures ok <==> tree != null && old(tree.startNode) in old(tree.nodes)
      ensures !ok ==> unchanged(this) && (tree != null ==> unchanged(tree))
      ensures ok ==> (ShowsDialog(tree) && queue == old(queue) &&
        (tree.startNode, tree.nodes, tree.order) == StartResult(old(tree.startNode), old(tree.nodes), old(tree.order)))
    {
      if tree == null {
        return false;
      }
      var startOpt := tree.GetStartNode();
      if startOpt.None? {
        return false;
      }
      SplitStart(tree);
      currentTree, currentNodeId, selectedOption, textContent, textType := tree, Some(tree.startNode), 0, None, Some(Text.Dialog);
      ok := true;
    }

    /** start_text: the text is shown and any dialog is dropped. */
    method StartText(content: Text.TextContent)
      modifies this
      ensures ShowsText(content) && queue == old(queue)
    {
      textContent, currentTree, currentNodeId, selectedOption, textType := Some(content), null, None, 0, Some(Text.Simple);
    }

    method QueueText(content: Text.TextContent)
      modifies this`queue
      ensures queue == old(queue) + [QText(content)]
    {
      queue := queue + [QText(content)];
    }

    method QueueDialog(tree: Text.DialogTree)
      modifies this`queue
      ensures queue == old(queue) + [QTree(tree)]
    {
      queue := queue + [QTree(tree)];
    }

    /** queue_multiple_texts: one queued text per entry, in order, titled from `titles`. */
    method QueueMultipleTexts(texts: seq<TextItem>, titles: Option<seq<Option<string>>>)
      modifies this`queue
      ensures |queue| == |old(queue)| + |texts| && queue[..|old(queue)|] == old(queue)
      ensures forall i | 0 <= i < |texts| :: queue[|old(queue)| + i] == QueuedText(texts[i], TitleAt(titles, i))
    {
      var ts := if titles.None? then seq(|texts|, _ => None) else titles.value;
      assert forall i: nat :: (if i < |ts| then ts[i] else None) == TitleAt(titles, i);
      var i := 0;
      while i < |texts|
        invariant 0 <= i <= |texts|
        invariant |queue| == |old(queue)| + i && queue[..|old(queue)|] == old(queue)
        invariant forall j | 0 <= j < i :: queue[|old(queue)| + j] == QueuedText(texts[j], TitleAt(titles, j))
      {
        var title := if i < |ts| then ts[i] else None;
        if texts[i].Content? {
          queue := queue + [QText(texts[i].c)];
        } else {
          queue := queue + [QText(Text.FromString(texts[i].s, title, false))];
        }
        i := i + 1;
      }
    }

    /**
     * process_queue: False on an empty queue; otherwise the head is removed
     * and shown (a tree through start_dialog, whose answer is returned).
     */
    method ProcessQueue() returns (started: bool)
      modifies this, HeadTrees()
      ensures old(queue) == [] ==> !started && unchanged(this)
      ensures old(queue) != [] ==> queue == old(queue)[1..]
      ensures old(queue) != [] && old(queue[0]).QText? ==> started && ShowsText(old(queue[0]).content)
      ensures old(queue) != [] && old(queue[0]).QTree? ==> var t := old(queue[0]).tree;
        (started <==> old(t.startNode) in old(t.nodes)) &&
        (!started ==> unchanged(t) && currentTree == old(currentTree) && currentNodeId == old(currentNodeId) &&
                      selectedOption == old(selectedOption) && textContent == old(textContent) && textType == old(textType)) &&
        (started ==> ShowsDialog(t) && (t.startNode, t.nodes, t.order) == StartResult(old(t.startNode), old(t.nodes), old(t.order)))
    {
      if queue == [] {
        return false;
      }
      var next := queue[0];
      queue := queue[1..];
      match next
      case QTree(t) =>
        started := StartDialog(t);
      case QText(c) =>
        StartText(c);
        started := true;
    }

    /** close: nothing is shown any more, then the next queued item (if any) is shown. */
    method Close() returns (started: bool)
      modifies this, HeadTrees()
      ensures old(queue) == [] ==> !started && Cleared() && queue == []
      ensures old(queue) != [] ==> queue == old(queue)[1..]
      ensures old(queue) != [] && old(queue[0]).QText? ==> started && ShowsText(old(queue[0]).content)
      ensures old(queue) != [] && old(queue[0]).QTree? ==> var t := old(queue[0]).tree;
        (started <==> old(t.startNode) in old(t.nodes)) &&
        (!started ==> unchanged(t) && Cleared()) &&
        (started ==> ShowsDialog(t) && (t.startNode, t.nodes, t.order) == StartResult(old(t.startNode), old(t.nodes), old(t.order)))
    {
      currentTree, currentNodeId, selectedOption, textContent, textType := null, None, 0, None, None;
      started := ProcessQueue();
    }

    method ClearQueue()
      modifies this`queue
      ensures queue == []
    {
      queue := [];
    }

    /** get_current_node: None without a tree or with no (or an empty) current id. */
    function GetCurrentNode(): (r: Option<Text.DialogNode>)
      reads this, currentTree
      ensures r.Some? <==> (currentTree != null && currentNodeId.Some? && currentNodeId.value != "" &&
        currentNodeId.value in currentTree.nodes)
      ensures r.Some? ==> r.value == currentTree.nodes[currentNodeId.value]
    {
      if currentTree == null || currentNodeId.None? || currentNodeId.value == "" then None
      else currentTree.GetNode(currentNodeId.value)
    }

    /** select_next_option: the cursor moves forward modulo the option count; no-op without options. */
    method SelectNextOption()
      requires Valid()
      modifies this`selectedOption
      ensures Valid()
      ensures GetCurrentNode().Some? && GetCurrentNode().value.options != [] ==>
        selectedOption == (old(selectedOption) + 1) % |GetCurrentNode().value.options| &&
        selectedOption < |GetCurrentNode().value.options|
      ensures !(GetCurrentNode().Some? && GetCurrentNode().value.options != []) ==> selectedOption == old(selectedOption)
    {
      var node := GetCurrentNode();
      if node.Some? && node.value.options != [] {
        selectedOption := (selectedOption + 1) % |node.value.options|;
      }
    }

    /** select_previous_option: the cursor moves back modulo the option count (Python's % never goes negative). */
    method SelectPreviousOption()
      requires Valid()
      modifies this`selectedOption
      ensures Valid()
      ensures GetCurrentNode().Some? && GetCurrentNode().value.options != [] ==>
        selectedOption == (old(selectedOption) - 1) % |GetCurrentNode().value.options| &&
        selectedOption < |GetCurrentNode().value.options|
      ensures !(GetCurrentNode().Some? && GetCurrentNode().value.options != []) ==> selectedOption == old(selectedOption)
    {
      var node := GetCurrentNode();
      if node.Some? && node.value.options != [] {
        selectedOption := (selectedOption - 1) % |node.value.options|;
      }
    }

    /**
     * _process_node_with_separators: splits the current node when its id is
     * not a temporary one and its text breaks into several messages.
     */
    method ProcessNodeWithSeparators()
      modifies this`currentNodeId, currentTree
      ensures currentTree == old(currentTree)
      ensures currentTree == null || old(currentNodeId).None? || old(currentNodeId) == Some("") ==>
        currentNodeId == old(currentNodeId) && (currentTree != null ==> unchanged(currentTree))
      ensures currentTree != null && old(currentNodeId).Some? && old(currentNodeId) != Some("") ==>
        currentTree.startNode == old(currentTree.startNode) && currentNodeId.Some? &&
        (currentNodeId.value, currentTree.nodes, currentTree.order) ==
          SeparatorResult(old(currentNodeId.value), old(currentTree.nodes), old(currentTree.order))
    {
      if currentTree == null || currentNodeId.None? || currentNodeId.value == "" {
        return;
      }
      var id := SplitAt(currentTree, currentNodeId.value);
      currentNodeId := Some(id);
    }

    /**
     * select_option, where `accepts` is what the option's condition answers
     * for the player.  Returns whether the dialog goes on and the action that
     * ran (by name).
     */
    method SelectOption(accepts: bool) returns (continues: bool, ran: Option<string>)
      requires Valid()
      modifies this, currentTree, HeadTrees()
      ensures Valid()
      ensures var node := old(GetCurrentNode());
        node.None? || node.value.options == [] || old(selectedOption) >= |node.value.options| ==>
          !continues && ran.None? && unchanged(this) && (old(currentTree) != null ==> unchanged(old(currentTree)))
      ensures var node := old(GetCurrentNode());
        node.Some? && 0 <= old(selectedOption) < |node.value.options| ==>
          var option := node.value.options[old(selectedOption)];
          (option.condition.Some? && !accepts ==>
            continues && ran.None? && unchanged(this) && unchanged(old(currentTree))) &&
          (!(option.condition.Some? && !accepts) ==> ran == option.action) &&
          (!(option.condition.Some? && !accepts) && option.nextNode.Some? && option.nextNode.value != "" ==>
            continues && selectedOption == 0 && currentTree == old(currentTree) && queue == old(queue) &&
            currentTree.startNode == old(currentTree.startNode) && currentNodeId.Some? &&
            (currentNodeId.value, currentTree.nodes, currentTree.order) ==
              SeparatorResult(option.nextNode.value, old(currentTree.nodes), old(currentTree.order))) &&
          (!(option.condition.Some? && !accepts) && !(option.nextNode.Some? && option.nextNode.value != "") ==>
            !continues && (|old(queue)| == 0 ==> Cleared() && queue == []))
      ensures var node := old(GetCurrentNode());
        node.Some? && 0 <= old(selectedOption) < |node.value.options| && old(queue) != [] ==>
          var option := node.value.options[old(selectedOption)];
          !(option.condition.Some? && !accepts) && !(option.nextNode.Some? && option.nextNode.value != "") ==>
            queue == old(queue)[1..] &&
            (old(queue[0]).QText? ==> ShowsText(old(queue[0]).content)) &&
            (old(queue[0]).QTree? ==> var t := old(queue[0]).tree;
              (old(t.startNode) !in old(t.nodes) ==> Cleared()) &&
              (old(t.startNode) in old(t.nodes) ==>
                ShowsDialog(t) && (t.startNode, t.nodes, t.order) == StartResult(old(t.startNode), old(t.nodes), old(t.order))))
    {
      var node := GetCurrentNode();
      if node.None? || node.value.options == [] {
        return false, None;
      }
      if selectedOption >= |node.value.options| {
        return false, None;
      }
      var option := node.value.options[selectedOption];
      if option.condition.Some? && !accepts {
        return true, None;
      }
      ran := option.action;
      if option.nextNode.Some? && option.nextNode.value != "" {
        currentNodeId := Some(option.nextNode.value);
        selectedOption := 0;
        ProcessNodeWithSeparators();
        continues := true;
      } else {
        var _ := Close();
        continues := false;
      }
    }
  }
}
