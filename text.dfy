/*
 * systems/text.py: dialog trees (nodes keyed by id, with options that lead to
 * other nodes), plain text contents, and the InteractiveText component that
 * carries one or the other.
 *
 * The callables a dialog carries (an option's condition and action, a node's
 * on_enter) are represented by their names: the model keeps whether one is
 * present and which one it is, not what it does.
 */
module Text {
  import opened Common

  datatype TextType = Dialog | Simple | Ambient

  datatype DialogOption = DialogOption(text: string, nextNode: Option<string>,
                                       condition: Option<string>, action: Option<string>)

  datatype DialogNode = DialogNode(nodeId: string, speaker: Option<string>, text: string,
                                   options: seq<DialogOption>, autoAdvance: bool, onEnter: Option<string>)

  /** DialogOption(text, next_node) with no condition and no action. */
  function PlainOption(text: string, nextNode: Option<string>): DialogOption
  {
    DialogOption(text, nextNode, None, None)
  }

  /** DialogNode(node_id, speaker, text, options) with the dataclass defaults. */
  function PlainNode(nodeId: string, speaker: Option<string>, text: string, options: seq<DialogOption>): DialogNode
  {
    DialogNode(nodeId, speaker, text, options, false, None)
  }

  // ---------------------------------------------------------------------
  // The node dictionary of a tree: a map plus its insertion order
  // ---------------------------------------------------------------------

  /** Keys in insertion order, each once, each node stored under its own id. */
  predicate WellKeyed(nodes: map<string, DialogNode>, order: seq<string>)
  {
    (forall i | 0 <= i < |order| :: order[i] in nodes) &&
    (forall k | k in nodes :: k in order) &&
    (forall i, j | 0 <= i < j < |order| :: order[i] != order[j]) &&
    (forall k | k in nodes :: nodes[k].nodeId == k)
  }

  /** `nodes[node.node_id] = node` on an insertion-ordered dict. */
  function Added(nodes: map<string, DialogNode>, order: seq<string>, node: DialogNode)
    : (r: (map<string, DialogNode>, seq<string>))
    ensures r.0 == nodes[node.nodeId := node]
    ensures node.nodeId in nodes ==> r.1 == order
    ensures node.nodeId !in nodes ==> r.1 == order + [node.nodeId]
  {
    (nodes[node.nodeId := node], if node.nodeId in nodes then order else order + [node.nodeId])
  }

  /** Adding a node keeps the dictionary well keyed. */
  lemma AddedWellKeyed(nodes: map<string, DialogNode>, order: seq<string>, node: DialogNode)
    requires WellKeyed(nodes, order)
    ensures WellKeyed(Added(nodes, order, node).0, Added(nodes, order, node).1)
  {
    var r := Added(nodes, order, node);
    forall k | k in r.0
      ensures k in r.1
    {
      if k != node.nodeId {
        assert k in nodes;
      } else {
        assert r.1[|r.1| - 1] == k || k in order;
      }
    }
  }

  /** Successive add_node calls, first to last. */
  function AddAll(nodes: map<string, DialogNode>, order: seq<string>, ns: seq<DialogNode>)
    : (map<string, DialogNode>, seq<string>)
  {
    if ns == [] then (nodes, order)
    else
      var r := AddAll(nodes, order, ns[..|ns| - 1]);
      Added(r.0, r.1, ns[|ns| - 1])
  }

  /** One more add_node after the first i. */
  lemma AddAllSnoc(nodes: map<string, DialogNode>, order: seq<string>, ns: seq<DialogNode>, i: nat)
    requires i < |ns|
    ensures var r := AddAll(nodes, order, ns[..i]);
      AddAll(nodes, order, ns[..i + 1]) == Added(r.0, r.1, ns[i])
  {
    assert ns[..i + 1][..i] == ns[..i];
  }

  function Ids(ns: seq<DialogNode>): (ids: seq<string>)
    ensures |ids| == |ns| && forall i | 0 <= i < |ns| :: ids[i] == ns[i].nodeId
  {
    seq(|ns|, i requires 0 <= i < |ns| => ns[i].nodeId)
  }

  predicate DistinctIds(ns: seq<DialogNode>)
  {
    forall i, j | 0 <= i < j < |ns| :: ns[i].nodeId != ns[j].nodeId
  }

  /** Adding nodes with distinct ids leaves each one stored under its id. */
  lemma {:induction false} AddAllLookup(nodes: map<string, DialogNode>, order: seq<string>, ns: seq<DialogNode>)
    requires DistinctIds(ns)
    ensures forall i | 0 <= i < |ns| :: (ns[i].nodeId in AddAll(nodes, order, ns).0 &&
      AddAll(nodes, order, ns).0[ns[i].nodeId] == ns[i])
    decreases |ns|
  {
    if ns != [] {
      var init := ns[..|ns| - 1];
      AddAllLookup(nodes, order, init);
      forall i | 0 <= i < |ns| - 1
        ensures ns[i] == init[i] && ns[i].nodeId != ns[|ns| - 1].nodeId
      {
      }
    }
  }

  /** add_node calls only touch the ids they add: the key set grows by exactly those ids. */
  lemma {:induction false} AddAllFrame(nodes: map<string, DialogNode>, order: seq<string>, ns: seq<DialogNode>)
    ensures forall k :: k in AddAll(nodes, order, ns).0 <==> k in nodes || k in Ids(ns)
    ensures forall k | k in nodes && k !in Ids(ns) :: AddAll(nodes, order, ns).0[k] == nodes[k]
    decreases |ns|
  {
    if ns != [] {
      var init := ns[..|ns| - 1];
      AddAllFrame(nodes, order, init);
      assert Ids(ns) == Ids(init) + [ns[|ns| - 1].nodeId];
    }
  }

  /** Adding nodes with distinct new ids appends those ids to the order. */
  lemma {:induction false} AddAllOrder(nodes: map<string, DialogNode>, order: seq<string>, ns: seq<DialogNode>)
    requires DistinctIds(ns)
    requires forall i | 0 <= i < |ns| :: ns[i].nodeId !in nodes
    ensures AddAll(nodes, order, ns).1 == order + Ids(ns)
    decreases |ns|
  {
    if ns != [] {
      var init := ns[..|ns| - 1];
      AddAllOrder(nodes, order, init);
      AddAllFrame(nodes, order, init);
      assert Ids(ns) == Ids(init) + [ns[|ns| - 1].nodeId];
      assert ns[|ns| - 1].nodeId !in Ids(init);
    }
  }

  /** Adding to a well-keyed dictionary keeps it well keyed. */
  lemma {:induction false} AddAllWellKeyed(nodes: map<string, DialogNode>, order: seq<string>, ns: seq<DialogNode>)
    requires WellKeyed(nodes, order)
    ensures WellKeyed(AddAll(nodes, order, ns).0, AddAll(nodes, order, ns).1)
    decreases |ns|
  {
    if ns != [] {
      AddAllWellKeyed(nodes, order, ns[..|ns| - 1]);
      var r := AddAll(nodes, order, ns[..|ns| - 1]);
      AddedWellKeyed(r.0, r.1, ns[|ns| - 1]);
    }
  }

  // ---------------------------------------------------------------------
  // DialogTree
  // ---------------------------------------------------------------------

  class DialogTree {
    var nodes: map<string, DialogNode>
    var order: seq<string>
    var startNode: string

    predicate Valid()
      reads this
    {
      WellKeyed(nodes, order)
    }

    /** DialogTree(start_node): no nodes; the start node need not exist. */
    constructor (startNode: string)
      ensures Valid() && nodes == map[] && order == [] && this.startNode == startNode
    {
      nodes, order := map[], [];
      this.startNode := startNode;
    }

    /** add_node: stores the node under its id, replacing an earlier node with that id. */
    method AddNode(node: DialogNode)
      modifies this`nodes, this`order
      ensures (nodes, order) == Added(old(nodes), old(order), node)
      ensures old(Valid()) ==> Valid()
    {
      if node.nodeId !in nodes {
        order := order + [node.nodeId];
      }
      nodes := nodes[node.nodeId := node];
      if old(Valid()) {
        AddedWellKeyed(old(nodes), old(order), node);
      }
    }

    /** get_node: the node stored under the id, None when there is none. */
    function GetNode(nodeId: string): (r: Option<DialogNode>)
      reads this
      ensures r.Some? <==> nodeId in nodes
      ensures r.Some? ==> r.value == nodes[nodeId]
    {
      if nodeId in nodes then Some(nodes[nodeId]) else None
    }

    /** get_start_node: get_node of the start id. */
    function GetStartNode(): (r: Option<DialogNode>)
      reads this
      ensures r.Some? <==> startNode in nodes
      ensures r.Some? ==> r.value == nodes[startNode]
    {
      GetNode(startNode)
    }

    /** to_dict: the start id and one entry per node, in insertion order. */
    function ToDict(): (d: TreeDict)
      requires Valid()
      reads this
      ensures d.startNode == startNode && |d.nodes| == |order|
      ensures forall i | 0 <= i < |order| :: d.nodes[i] == (order[i], NodeToDict(nodes[order[i]]))
    {
      TreeDict(startNode, Entries(nodes, order))
    }
  }

  // ---------------------------------------------------------------------
  // Serialisation of trees
  // ---------------------------------------------------------------------

  /** The "nodes" dictionary of to_dict, entry by entry in insertion order. */
  function Entries(nodes: map<string, DialogNode>, order: seq<string>): (es: seq<(string, NodeDict)>)
    requires forall i | 0 <= i < |order| :: order[i] in nodes
    ensures |es| == |order|
    ensures forall i | 0 <= i < |order| :: es[i] == (order[i], NodeToDict(nodes[order[i]]))
  {
    seq(|order|, i requires 0 <= i < |order| => (order[i], NodeToDict(nodes[order[i]])))
  }

  datatype OptionDict = OptionDict(text: string, nextNode: Option<string>)
  /** A node's dictionary; the keys read with .get are optional. */
  datatype NodeDict = NodeDict(nodeId: string, speaker: Option<string>, text: string,
                               options: Option<seq<OptionDict>>, autoAdvance: Option<bool>)
  datatype TreeDict = TreeDict(startNode: string, nodes: seq<(string, NodeDict)>)

  function NodeToDict(n: DialogNode): NodeDict
  {
    NodeDict(n.nodeId, n.speaker, n.text,
             Some(seq(|n.options|, i requires 0 <= i < |n.options| => OptionDict(n.options[i].text, n.options[i].nextNode))),
             Some(n.autoAdvance))
  }

  /** The node from_dict builds: no condition, action or on_enter; missing options are [], missing auto_advance False. */
  function NodeFromDict(d: NodeDict): DialogNode
  {
    var opts := GetOr(d.options, []);
    DialogNode(d.nodeId, d.speaker, d.text,
               seq(|opts|, i requires 0 <= i < |opts| => PlainOption(opts[i].text, opts[i].nextNode)),
               GetOr(d.autoAdvance, false), None)
  }

  /** What survives serialisation: everything but the callables. */
  function Stripped(n: DialogNode): DialogNode
  {
    n.(options := seq(|n.options|, i requires 0 <= i < |n.options| => n.options[i].(condition := None, action := None)),
       onEnter := None)
  }

  /** The nodes of from_dict, each added under its own node_id (the entry's key is not used). */
  function NodesFromDict(entries: seq<(string, NodeDict)>): (map<string, DialogNode>, seq<string>)
  {
    AddAll(map[], [], DecodedNodes(entries))
  }

  function DecodedNodes(entries: seq<(string, NodeDict)>): (ns: seq<DialogNode>)
    ensures |ns| == |entries| && forall i | 0 <= i < |entries| :: ns[i] == NodeFromDict(entries[i].1)
  {
    seq(|entries|, i requires 0 <= i < |entries| => NodeFromDict(entries[i].1))
  }

  function GetOr<T>(o: Option<T>, default: T): T
  {
    if o.Some? then o.value else default
  }

  /** from_dict: a fresh tree with the given start id and the nodes of the dictionary. */
  method DialogTreeFromDict(d: TreeDict) returns (t: DialogTree)
    ensures fresh(t) && t.Valid()
    ensures t.startNode == d.startNode && (t.nodes, t.order) == NodesFromDict(d.nodes)
  {
    t := new DialogTree(d.startNode);
    ghost var ns := DecodedNodes(d.nodes);
    var i := 0;
    while i < |d.nodes|
      invariant 0 <= i <= |d.nodes|
      invariant t.Valid() && t.startNode == d.startNode
      invariant (t.nodes, t.order) == AddAll(map[], [], ns[..i])
    {
      AddAllSnoc(map[], [], ns, i);
      t.AddNode(NodeFromDict(d.nodes[i].1));
      i := i + 1;
    }
    assert ns[..|d.nodes|] == ns;
  }

  lemma NodeRoundTrip(n: DialogNode)
    ensures NodeFromDict(NodeToDict(n)) == Stripped(n)
  {
  }

  /**
   * to_dict followed by from_dict keeps the start id, the node ids in their
   * order, and every node without its callables.
   */
  lemma TreeRoundTrip(nodes: map<string, DialogNode>, order: seq<string>)
    requires WellKeyed(nodes, order)
    ensures var r := NodesFromDict(Entries(nodes, order));
      r.1 == order && r.0.Keys == nodes.Keys && forall k | k in nodes :: r.0[k] == Stripped(nodes[k])
  {
    var ns := DecodedNodes(Entries(nodes, order));
    var r := NodesFromDict(Entries(nodes, order));
    assert r.1 == order by {
      DecodedEntries(nodes, order);
      assert Ids(ns) == order;
      AddAllOrder(map[], [], ns);
    }
    assert r.0.Keys == nodes.Keys by {
      DecodedEntries(nodes, order);
      assert Ids(ns) == order;
      AddAllFrame(map[], [], ns);
    }
    forall k | k in nodes
      ensures r.0[k] == Stripped(nodes[k])
    {
      DecodedEntries(nodes, order);
      AddAllLookup(map[], [], ns);
      var i :| 0 <= i < |order| && order[i] == k;
      assert ns[i].nodeId == k;
    }
  }

  /** Decoding the entries of to_dict gives each node stripped of its callables, under its own id. */
  lemma DecodedEntries(nodes: map<string, DialogNode>, order: seq<string>)
    requires WellKeyed(nodes, order)
    ensures var ns := DecodedNodes(Entries(nodes, order));
      DistinctIds(ns) && forall i | 0 <= i < |ns| :: ns[i] == Stripped(nodes[order[i]]) && ns[i].nodeId == order[i]
  {
    var ns := DecodedNodes(Entries(nodes, order));
    forall i | 0 <= i < |ns|
      ensures ns[i] == Stripped(nodes[order[i]]) && ns[i].nodeId == order[i]
    {
      NodeRoundTrip(nodes[order[i]]);
    }
  }

  // ---------------------------------------------------------------------
  // TextContent
  // ---------------------------------------------------------------------

  datatype TextContent = TextContent(lines: seq<string>, title: Option<string>, autoClose: bool)

  /** TextContent.from_string: the text split on newlines. */
  function FromString(text: string, title: Option<string>, autoClose: bool): (c: TextContent)
    ensures c.title == title && c.autoClose == autoClose
    ensures Join(c.lines, "\n") == text
  {
    JoinSplit(text, "\n");
    TextContent(Split(text, "\n"), title, autoClose)
  }

  datatype ContentDict = ContentDict(lines: Option<seq<string>>, title: Option<string>, autoClose: Option<bool>)

  function ContentToDict(c: TextContent): ContentDict
  {
    ContentDict(Some(c.lines), c.title, Some(c.autoClose))
  }

  /** TextContent.from_dict: missing lines are [], missing auto_close False. */
  function ContentFromDict(d: ContentDict): (c: TextContent)
    ensures d.lines.None? ==> c.lines == []
    ensures d.autoClose.None? ==> !c.autoClose
  {
    TextContent(GetOr(d.lines, []), d.title, GetOr(d.autoClose, false))
  }

  lemma ContentRoundTrip(c: TextContent)
    ensures ContentFromDict(ContentToDict(c)) == c
  {
  }

  // ---------------------------------------------------------------------
  // InteractiveText
  // ---------------------------------------------------------------------

  datatype InteractiveText = InteractiveText(textType: TextType, dialogTree: DialogTree?,
                                             textContent: Option<TextContent>,
                                             interactionKey: string, autoTrigger: bool)

  /** The constructor: None where it raises ValueError (a DIALOG without tree, a SIMPLE without content). */
  function NewInteractiveText(textType: TextType, tree: DialogTree?, content: Option<TextContent>,
                              key: string, autoTrigger: bool): (r: Option<InteractiveText>)
    ensures r.None? <==> (textType == Dialog && tree == null) || (textType == Simple && content.None?)
    ensures r.Some? ==> r.value == InteractiveText(textType, tree, content, key, autoTrigger)
  {
    if textType == Dialog && tree == null then None
    else if textType == Simple && content.None? then None
    else Some(InteractiveText(textType, tree, content, key, autoTrigger))
  }

  /** create_dialog: a DIALOG component on the given key (Python's default is "e"). */
  function CreateDialog(tree: DialogTree, key: string): (r: InteractiveText)
    ensures r.textType == Dialog && r.dialogTree == tree && r.textContent.None? && !r.autoTrigger
    ensures r.interactionKey == key
  {
    NewInteractiveText(Dialog, tree, None, key, false).value
  }

  /** create_simple_text: a SIMPLE component on the given key (Python's default is "espacio") whose lines join back to the text. */
  function CreateSimpleText(text: string, title: Option<string>, key: string, autoClose: bool): (r: InteractiveText)
    ensures r.textType == Simple && r.dialogTree == null && !r.autoTrigger && r.interactionKey == key
    ensures r.textContent.Some? && Join(r.textContent.value.lines, "\n") == text
    ensures r.textContent.value.title == title && r.textContent.value.autoClose == autoClose
  {
    NewInteractiveText(Simple, null, Some(FromString(text, title, autoClose)), key, false).value
  }

  /** create_ambient_text: an AMBIENT component that closes by itself and triggers by itself. */
  function CreateAmbientText(text: string, title: Option<string>): (r: InteractiveText)
    ensures r.textType == Ambient && r.autoTrigger && r.interactionKey == "espacio"
    ensures r.textContent.Some? && r.textContent.value.autoClose
    ensures Join(r.textContent.value.lines, "\n") == text && r.textContent.value.title == title
  {
    NewInteractiveText(Ambient, null, Some(FromString(text, title, true)), "espacio", true).value
  }
}
