/**
 * The layered "neural network" scene (components/data-visualization.tsx): nodes placed in
 * centred layers, connections drawn between adjacent layers where a random test passes,
 * floating particles, the per-frame motion of the group and of the particles, and the
 * colour and title chosen for the active section.
 */
module DataVisualization {
  import opened Three
  import opened Seqs
  import opened Ambient

  // ---------------------------------------------------------------------------
  // Section colours and titles

  /** The six section labels the page knows. */
  const Sections: seq<string> := ["about", "experience", "education", "projects", "publications", "skills"]

  /**
   * `getColorForSection(section, isParticle)`: a primary colour and a darker particle
   * colour per known section; any other label gets the pair of "about".
   */
  function ColorForSection(section: string, isParticle: bool): (color: string)
    ensures |color| == 7 && color[0] == '#'
  {
    if section == "about" then (if isParticle then "#9333ea" else "#a855f7")
    else if section == "experience" then (if isParticle then "#2563eb" else "#3b82f6")
    else if section == "education" then (if isParticle then "#059669" else "#10b981")
    else if section == "projects" then (if isParticle then "#d97706" else "#f59e0b")
    else if section == "publications" then (if isParticle then "#db2777" else "#ec4899")
    else if section == "skills" then (if isParticle then "#0891b2" else "#06b6d4")
    else (if isParticle then "#9333ea" else "#a855f7")
  }

  /** Any label other than the six known ones is coloured like "about". */
  lemma UnknownSectionColor(section: string, isParticle: bool)
    requires section !in Sections
    ensures ColorForSection(section, isParticle) == ColorForSection("about", isParticle)
  {
  }

  /**
   * For every label the particle colour differs from the primary colour, and the six known
   * sections have six different primary colours.
   */
  lemma {:induction false} SectionColorsDiffer(section: string, other: string)
    ensures ColorForSection(section, true) != ColorForSection(section, false)
    ensures section in Sections && other in Sections && section != other ==>
              ColorForSection(section, false) != ColorForSection(other, false)
  {
    var p, q := ColorForSection(section, true), ColorForSection(section, false);
    assert p[1] != q[1] || p[2] != q[2];
    if section in Sections && other in Sections && section != other {
      var r := ColorForSection(other, false);
      assert q[1] != r[1] || q[2] != r[2];
    }
  }

  /** The title shown for a section: "Research" for publications, "Portfolio" for unknown labels. */
  function SectionTitle(section: string): (title: string)
    ensures section !in Sections ==> title == "Portfolio"
    ensures section == "publications" ==> title == "Research"
  {
    if section == "about" then "About"
    else if section == "experience" then "Experience"
    else if section == "education" then "Education"
    else if section == "projects" then "Projects"
    else if section == "publications" then "Research"
    else if section == "skills" then "Skills"
    else "Portfolio"
  }

  /** The upper-case form of a lower-case ASCII letter; other characters are kept. */
  function UpperCase(c: char): char
  {
    if 'a' <= c <= 'z' then (c as int - 32) as char else c
  }

  /** A label with its first letter in upper case. */
  function Capitalized(s: string): string
  {
    if s == [] then [] else [UpperCase(s[0])] + s[1..]
  }

  /** Every known section other than "publications" is titled with its own name capitalised. */
  lemma TitleIsCapitalizedName(section: string)
    requires section in Sections && section != "publications"
    ensures SectionTitle(section) == Capitalized(section)
  {
    if section == "about" {
      assert Capitalized("about") == "About";
    } else if section == "experience" {
      assert Capitalized("experience") == "Experience";
    } else if section == "education" {
      assert Capitalized("education") == "Education";
    } else if section == "projects" {
      assert Capitalized("projects") == "Projects";
    } else {
      assert section == "skills";
      assert Capitalized("skills") == "Skills";
    }
  }

  // ---------------------------------------------------------------------------
  // Node layout

  /** Nodes per layer, the distance between layers and the distance between nodes of a layer. */
  const Layers: seq<nat> := [4, 8, 12, 8, 4]
  const LayerDistance: real := 4.0
  const NodeDistance: real := 2.0

  /** A generated node, tagged with its layer and its index within the layer. */
  datatype Node = Node(position: Vec3, layerIndex: nat, nodeIndex: nat, size: real, color: string)

  /** The x of every node of layer `layerIndex` among `layerCount` layers. */
  function LayerX(layerCount: nat, layerIndex: nat): real
  {
    (layerIndex as real - (layerCount as real - 1.0) / 2.0) * LayerDistance
  }

  /** The y of node `i` of a layer with `nodeCount` nodes. */
  function NodeY(nodeCount: nat, i: nat): real
  {
    (i as real - (nodeCount as real - 1.0) / 2.0) * NodeDistance
  }

  /**
   * The layout is centred: mirrored layers have opposite x, mirrored nodes of a layer have
   * opposite y, neighbouring layers are LayerDistance apart and neighbouring nodes
   * NodeDistance apart; for the five layers used, the layer x values are -8, -4, 0, 4, 8.
   */
  lemma LayoutIsCentred(layerCount: nat, l: nat, nodeCount: nat, i: nat)
    requires l < layerCount && i < nodeCount
    ensures LayerX(layerCount, layerCount - 1 - l) == -LayerX(layerCount, l)
    ensures LayerX(layerCount, l + 1) - LayerX(layerCount, l) == LayerDistance
    ensures NodeY(nodeCount, nodeCount - 1 - i) == -NodeY(nodeCount, i)
    ensures NodeY(nodeCount, i + 1) - NodeY(nodeCount, i) == NodeDistance
    ensures LayerX(5, 0) == -8.0 && LayerX(5, 1) == -4.0 && LayerX(5, 2) == 0.0
    ensures LayerX(5, 3) == 4.0 && LayerX(5, 4) == 8.0
  {
  }

  /**
   * The centre is the origin: x is 0 exactly for the middle layer and negative exactly for
   * the layers before it; likewise y for the nodes of a layer.
   */
  lemma LayoutMiddle(layerCount: nat, l: nat, nodeCount: nat, i: nat)
    ensures LayerX(layerCount, l) == 0.0 <==> 2 * l + 1 == layerCount
    ensures LayerX(layerCount, l) < 0.0 <==> 2 * l + 1 < layerCount
    ensures NodeY(nodeCount, i) == 0.0 <==> 2 * i + 1 == nodeCount
    ensures NodeY(nodeCount, i) < 0.0 <==> 2 * i + 1 < nodeCount
  {
  }

  /** Layers with different indices have different x, so x identifies a node's layer. */
  lemma LayerXInjective(layerCount: nat, l: nat, m: nat)
    requires LayerX(layerCount, l) == LayerX(layerCount, m)
    ensures l == m
  {
  }

  /** Node `i` of layer `l`, with the size drawn from `u`. */
  function NetworkNode(layers: seq<nat>, l: nat, i: nat, color: string, u: real): Node
    requires l < |layers|
  {
    Node(Vec3(LayerX(|layers|, l), NodeY(layers[l], i), 0.0), l, i, RandFloat(0.1, 0.2, u), color)
  }

  /** The nodes i, i+1, ... of layer `l`, drawing their sizes from draw `k` on. */
  function LayerNodes(layers: seq<nat>, l: nat, i: nat, color: string, rand: Random, k: nat): seq<Node>
    requires l < |layers|
    decreases layers[l] - i
  {
    if i >= layers[l] then []
    else [NetworkNode(layers, l, i, color, rand(k))] + LayerNodes(layers, l, i + 1, color, rand, k + 1)
  }

  /** The nodes of layers l, l+1, ..., in layer order then index order, drawing from `k` on. */
  function NodesFrom(layers: seq<nat>, l: nat, color: string, rand: Random, k: nat): seq<Node>
    decreases |layers| - l
  {
    if l >= |layers| then []
    else LayerNodes(layers, l, 0, color, rand, k) + NodesFrom(layers, l + 1, color, rand, k + layers[l])
  }

  /** The number of nodes in layers from, ..., stop - 1. */
  function Span(layers: seq<nat>, from: nat, stop: nat): nat
    requires from <= stop <= |layers|
    decreases stop - from
  {
    if from == stop then 0 else layers[from] + Span(layers, from + 1, stop)
  }

  /** Where node i of layer l lands in the node list generated from layer `from` on. */
  function NodeSlot(layers: seq<nat>, from: nat, l: nat, i: nat): nat
    requires from <= l < |layers|
  {
    Span(layers, from, l) + i
  }

  /** A node sits where its tags say: x of its layer, y of its index, z = 0. */
  ghost predicate WellPlaced(layers: seq<nat>, node: Node)
  {
    && node.layerIndex < |layers|
    && node.nodeIndex < layers[node.layerIndex]
    && node.position == Vec3(LayerX(|layers|, node.layerIndex), NodeY(layers[node.layerIndex], node.nodeIndex), 0.0)
  }

  /** The nodes of one layer: their number, their order, and where each sits. */
  lemma {:induction false} LayerNodesShape(layers: seq<nat>, l: nat, i: nat, color: string, rand: Random, k: nat)
    requires l < |layers| && i <= layers[l]
    ensures |LayerNodes(layers, l, i, color, rand, k)| == layers[l] - i
    ensures forall j :: 0 <= j < layers[l] - i ==>
              LayerNodes(layers, l, i, color, rand, k)[j] == NetworkNode(layers, l, i + j, color, rand(k + j))
    ensures forall n :: n in LayerNodes(layers, l, i, color, rand, k) ==>
              n.layerIndex == l && WellPlaced(layers, n) && n.color == color
              && (IsUniformSource(rand) ==> 0.1 <= n.size <= 0.2)
    decreases layers[l] - i
  {
    if i < layers[l] {
      LayerNodesShape(layers, l, i + 1, color, rand, k + 1);
    }
  }

  /**
   * The generated node list has exactly Span(from, |layers|) entries; node i of layer l
   * sits at slot Span(from, l) + i and takes its size from the draw with that offset.
   */
  lemma {:induction false} NodesFromShape(layers: seq<nat>, from: nat, color: string, rand: Random, k: nat)
    requires from <= |layers|
    ensures |NodesFrom(layers, from, color, rand, k)| == Span(layers, from, |layers|)
    ensures forall l, i :: from <= l < |layers| && 0 <= i < layers[l] ==>
              NodeSlot(layers, from, l, i) < Span(layers, from, |layers|) &&
              NodesFrom(layers, from, color, rand, k)[NodeSlot(layers, from, l, i)]
                == NetworkNode(layers, l, i, color, rand(k + NodeSlot(layers, from, l, i)))
    decreases |layers| - from
  {
    if from < |layers| {
      var head := LayerNodes(layers, from, 0, color, rand, k);
      var tail := NodesFrom(layers, from + 1, color, rand, k + layers[from]);
      LayerNodesShape(layers, from, 0, color, rand, k);
      NodesFromShape(layers, from + 1, color, rand, k + layers[from]);
      forall l, i | from <= l < |layers| && 0 <= i < layers[l]
        ensures NodeSlot(layers, from, l, i) < Span(layers, from, |layers|)
        ensures (head + tail)[NodeSlot(layers, from, l, i)]
                  == NetworkNode(layers, l, i, color, rand(k + NodeSlot(layers, from, l, i)))
      {
        var slot := NodeSlot(layers, from, l, i);
        if l == from {
          assert slot == i;
          assert (head + tail)[slot] == head[i];
        } else {
          var inner := NodeSlot(layers, from + 1, l, i);
          assert slot == layers[from] + inner;
          assert (head + tail)[slot] == tail[inner];
        }
      }
    }
  }

  /** Every generated node is well placed, in the section colour, with a size in range. */
  lemma {:induction false} NodesFromPlaced(layers: seq<nat>, from: nat, color: string, rand: Random, k: nat)
    requires from <= |layers|
    ensures forall n :: n in NodesFrom(layers, from, color, rand, k) ==>
              WellPlaced(layers, n) && n.color == color && (IsUniformSource(rand) ==> 0.1 <= n.size <= 0.2)
    decreases |layers| - from
  {
    if from < |layers| {
      var head := LayerNodes(layers, from, 0, color, rand, k);
      var tail := NodesFrom(layers, from + 1, color, rand, k + layers[from]);
      LayerNodesShape(layers, from, 0, color, rand, k);
      NodesFromPlaced(layers, from + 1, color, rand, k + layers[from]);
      assert NodesFrom(layers, from, color, rand, k) == head + tail;
    }
  }

  /** Spans add up: the nodes of layers from..mid-1 then mid..stop-1. */
  lemma {:induction false} SpanSplit(layers: seq<nat>, from: nat, mid: nat, stop: nat)
    requires from <= mid <= stop <= |layers|
    ensures Span(layers, from, stop) == Span(layers, from, mid) + Span(layers, mid, stop)
    decreases mid - from
  {
    if from < mid {
      SpanSplit(layers, from + 1, mid, stop);
    }
  }

  /**
   * Layer-then-index order: every node of layer l comes before every node of a later layer,
   * and inside one layer the slots follow the node index.
   */
  lemma NodeSlotOrder(layers: seq<nat>, from: nat, l: nat, i: nat, l2: nat, j: nat)
    requires from <= l <= l2 < |layers| && i < layers[l] && j < layers[l2]
    ensures NodeSlot(layers, from, l, i) < NodeSlot(layers, from, l2, j) <==> l < l2 || i < j
  {
    if l < l2 {
      SpanSplit(layers, from, l, l2);
      SpanSplit(layers, l, l + 1, l2);
    }
  }

  /** The node list has exactly the sum of the layer sizes: 36 for the layers used. */
  lemma NodeCountOfLayers()
    ensures Span(Layers, 0, |Layers|) == 36
  {
    assert Span(Layers, 4, 5) == 4;
    assert Span(Layers, 3, 5) == 12;
    assert Span(Layers, 2, 5) == 24;
    assert Span(Layers, 1, 5) == 32;
  }

  /** The callback `(node) => node.layerIndex === l`. */
  function InLayer(l: nat): Node -> bool
  {
    (node: Node) => node.layerIndex == l
  }

  /** `nodesArray.filter((node) => node.layerIndex === l)`: exactly the nodes tagged with layer l. */
  function LayerOf(nodes: seq<Node>, l: nat): (r: seq<Node>)
    ensures |r| <= |nodes|
    ensures forall n :: n in r <==> n in nodes && n.layerIndex == l
  {
    FilterMembers(nodes, InLayer(l));
    Filter(nodes, InLayer(l))
  }

  /** Filtering one layer's nodes by a layer index keeps all of them or none. */
  lemma LayerNodesInLayer(layers: seq<nat>, from: nat, l: nat, color: string, rand: Random, k: nat)
    requires from < |layers|
    ensures Filter(LayerNodes(layers, from, 0, color, rand, k), InLayer(l))
              == if l == from then LayerNodes(layers, from, 0, color, rand, k) else []
  {
    var head := LayerNodes(layers, from, 0, color, rand, k);
    LayerNodesShape(layers, from, 0, color, rand, k);
    if l == from {
      forall j | 0 <= j < |head|
        ensures InLayer(l)(head[j])
      {
        assert head[j] == NetworkNode(layers, from, j, color, rand(k + j));
      }
      FilterAll(head, InLayer(l));
    } else {
      forall j | 0 <= j < |head|
        ensures !InLayer(l)(head[j])
      {
        assert head[j] == NetworkNode(layers, from, j, color, rand(k + j));
      }
      FilterNone(head, InLayer(l));
    }
  }

  /** Filtering the nodes of layers from.. by a layer index outside that range keeps nothing. */
  lemma {:induction false} LayerOfOtherNodes(layers: seq<nat>, from: nat, l: nat, color: string, rand: Random, k: nat)
    requires from <= |layers| && !(from <= l < |layers|)
    ensures Filter(NodesFrom(layers, from, color, rand, k), InLayer(l)) == []
    decreases |layers| - from
  {
    if from < |layers| {
      var head := LayerNodes(layers, from, 0, color, rand, k);
      var tail := NodesFrom(layers, from + 1, color, rand, k + layers[from]);
      FilterAppend(head, tail, InLayer(l));
      LayerNodesInLayer(layers, from, l, color, rand, k);
      LayerOfOtherNodes(layers, from + 1, l, color, rand, k + layers[from]);
    }
  }

  /** Filtering the generated node list by a layer index recovers that layer's nodes, in order. */
  lemma {:induction false} LayerOfNodes(layers: seq<nat>, from: nat, l: nat, color: string, rand: Random, k: nat)
    requires from <= l < |layers|
    ensures Filter(NodesFrom(layers, from, color, rand, k), InLayer(l))
              == LayerNodes(layers, l, 0, color, rand, k + Span(layers, from, l))
    decreases l - from
  {
    var p := InLayer(l);
    var head := LayerNodes(layers, from, 0, color, rand, k);
    var tail := NodesFrom(layers, from + 1, color, rand, k + layers[from]);
    assert NodesFrom(layers, from, color, rand, k) == head + tail;
    FilterAppend(head, tail, p);
    LayerNodesInLayer(layers, from, l, color, rand, k);
    if l == from {
      LayerOfOtherNodes(layers, from + 1, l, color, rand, k + layers[from]);
      assert Filter(head, p) + Filter(tail, p) == head + [] == head;
    } else {
      LayerOfNodes(layers, from + 1, l, color, rand, k + layers[from]);
      var rest := Filter(tail, p);
      assert k + layers[from] + Span(layers, from + 1, l) == k + Span(layers, from, l);
      assert Filter(head, p) + rest == [] + rest == rest;
    }
  }

  /**
   * The node-creation loops: for each layer, for each index, push the node with the layer's
   * x, the index's y, z = 0, a size drawn with randFloat(0.1, 0.2) and the section colour.
   */
  method GenerateNodes(layers: seq<nat>, activeSection: string, rand: Random, k0: nat)
    returns (nodes: seq<Node>, k: nat)
    ensures nodes == NodesFrom(layers, 0, ColorForSection(activeSection, false), rand, k0)
    ensures k == k0 + Span(layers, 0, |layers|)
  {
    ghost var color := ColorForSection(activeSection, false);
    ghost var total := NodesFrom(layers, 0, color, rand, k0);
    nodes, k := [], k0;
    var layerIndex := 0;
    while layerIndex < |layers|
      invariant layerIndex <= |layers|
      invariant nodes + NodesFrom(layers, layerIndex, color, rand, k) == total
      invariant k + Span(layers, layerIndex, |layers|) == k0 + Span(layers, 0, |layers|)
    {
      var nodeCount := layers[layerIndex];
      var x := LayerX(|layers|, layerIndex);
      ghost var before := nodes;
      ghost var layerNodes := LayerNodes(layers, layerIndex, 0, color, rand, k);
      ghost var kEnd := k + nodeCount;
      ghost var rest := NodesFrom(layers, layerIndex + 1, color, rand, kEnd);
      assert nodes + (layerNodes + rest) == before + layerNodes + rest;
      var i := 0;
      while i < nodeCount
        invariant i <= nodeCount && k + (nodeCount - i) == kEnd
        invariant nodes + LayerNodes(layers, layerIndex, i, color, rand, k) == before + layerNodes
      {
        var y := NodeY(nodeCount, i);
        var node := Node(Vec3(x, y, 0.0), layerIndex, i, RandFloat(0.1, 0.2, rand(k)), ColorForSection(activeSection, false));
        ghost var later := LayerNodes(layers, layerIndex, i + 1, color, rand, k + 1);
        assert LayerNodes(layers, layerIndex, i, color, rand, k) == [node] + later;
        assert nodes + ([node] + later) == nodes + [node] + later;
        nodes := nodes + [node];
        k, i := k + 1, i + 1;
      }
      assert nodes + [] == nodes;
      layerIndex := layerIndex + 1;
    }
  }

  // ---------------------------------------------------------------------------
  // Connections

  /** A line between two node positions, with the section colour and an opacity. */
  datatype Connection = Connection(start: Vec3, end: Vec3, color: string, opacity: real)

  /** The connections made so far and the index of the next unused draw. */
  datatype Batch = Batch(connections: seq<Connection>, next: nat)

  /** A candidate pair is kept when its draw exceeds this threshold. */
  const KeepThreshold: real := 0.3

  /**
   * The inner `forEach`: for each end node, test draw `k`; if it exceeds 0.3 the pair
   * becomes a connection whose opacity is randFloat(0.2, 0.6) of the following draw. Every
   * candidate uses one draw and every kept link one more.
   */
  function ConnectRow(startNode: Node, ends: seq<Node>, color: string, rand: Random, k: nat): (b: Batch)
    ensures b.next == k + |ends| + |b.connections|
    decreases |ends|
  {
    if ends == [] then Batch([], k)
    else if rand(k) > KeepThreshold then
      var rest := ConnectRow(startNode, ends[1..], color, rand, k + 2);
      var link := Connection(startNode.position, ends[0].position, color, RandFloat(0.2, 0.6, rand(k + 1)));
      Batch([link] + rest.connections, rest.next)
    else ConnectRow(startNode, ends[1..], color, rand, k + 1)
  }

  /** The middle `forEach`: every start node of one layer against every node of the next. */
  function ConnectLayer(starts: seq<Node>, ends: seq<Node>, color: string, rand: Random, k: nat): Batch
    decreases |starts|
  {
    if starts == [] then Batch([], k)
    else
      var row := ConnectRow(starts[0], ends, color, rand, k);
      var rest := ConnectLayer(starts[1..], ends, color, rand, row.next);
      Batch(row.connections + rest.connections, rest.next)
  }

  /** The outer `for`: layers l and l+1 for every l < layerCount - 1, in order. */
  function ConnectFrom(nodes: seq<Node>, layerCount: nat, l: nat, color: string, rand: Random, k: nat): Batch
    decreases layerCount - l
  {
    if l + 1 >= layerCount then Batch([], k)
    else
      var layer := ConnectLayer(LayerOf(nodes, l), LayerOf(nodes, l + 1), color, rand, k);
      var rest := ConnectFrom(nodes, layerCount, l + 1, color, rand, layer.next);
      Batch(layer.connections + rest.connections, rest.next)
  }

  /**
   * The inner `forEach` of the connection loops: test each end node against `startNode`
   * and collect the kept links in order.
   */
  method LinkRow(startNode: Node, nextLayerNodes: seq<Node>, activeSection: string, rand: Random, k0: nat)
    returns (links: seq<Connection>, k: nat)
    ensures Batch(links, k) == ConnectRow(startNode, nextLayerNodes, ColorForSection(activeSection, false), rand, k0)
  {
    ghost var color := ColorForSection(activeSection, false);
    ghost var row := ConnectRow(startNode, nextLayerNodes, color, rand, k0);
    links, k := [], k0;
    var e := 0;
    while e < |nextLayerNodes|
      invariant e <= |nextLayerNodes|
      invariant ConnectRow(startNode, nextLayerNodes[e..], color, rand, k).next == row.next
      invariant links + ConnectRow(startNode, nextLayerNodes[e..], color, rand, k).connections == row.connections
    {
      var endNode := nextLayerNodes[e];
      assert nextLayerNodes[e..][0] == endNode;
      assert nextLayerNodes[e..][1..] == nextLayerNodes[e + 1..];
      if rand(k) > KeepThreshold {
        var link := Connection(startNode.position, endNode.position, ColorForSection(activeSection, false),
                               RandFloat(0.2, 0.6, rand(k + 1)));
        ghost var later := ConnectRow(startNode, nextLayerNodes[e + 1..], color, rand, k + 2);
        assert links + ([link] + later.connections) == links + [link] + later.connections;
        links := links + [link];
        k := k + 2;
      } else {
        k := k + 1;
      }
      e := e + 1;
    }
    assert nextLayerNodes[e..] == [];
    assert links + [] == links;
  }

  /** The middle `forEach`: every node of the current layer against every node of the next. */
  method LinkLayer(currentLayerNodes: seq<Node>, nextLayerNodes: seq<Node>, activeSection: string, rand: Random, k0: nat)
    returns (links: seq<Connection>, k: nat)
    ensures Batch(links, k) == ConnectLayer(currentLayerNodes, nextLayerNodes, ColorForSection(activeSection, false), rand, k0)
  {
    ghost var color := ColorForSection(activeSection, false);
    ghost var layer := ConnectLayer(currentLayerNodes, nextLayerNodes, color, rand, k0);
    links, k := [], k0;
    var s := 0;
    while s < |currentLayerNodes|
      invariant s <= |currentLayerNodes|
      invariant ConnectLayer(currentLayerNodes[s..], nextLayerNodes, color, rand, k).next == layer.next
      invariant links + ConnectLayer(currentLayerNodes[s..], nextLayerNodes, color, rand, k).connections
                  == layer.connections
    {
      var startNode := currentLayerNodes[s];
      assert currentLayerNodes[s..][0] == startNode;
      assert currentLayerNodes[s..][1..] == currentLayerNodes[s + 1..];
      var row, k' := LinkRow(startNode, nextLayerNodes, activeSection, rand, k);
      ghost var others := ConnectLayer(currentLayerNodes[s + 1..], nextLayerNodes, color, rand, k');
      assert links + (row + others.connections) == links + row + others.connections;
      links, k := links + row, k';
      s := s + 1;
    }
    assert currentLayerNodes[s..] == [];
    assert links + [] == links;
  }

  /** One turn of the outer loop: linking layers l and l+1 and then the rest covers everything from l. */
  lemma ConnectFromStep(nodes: seq<Node>, layerCount: nat, l: nat, color: string, rand: Random, k: nat,
                        done: seq<Connection>, links: seq<Connection>, k': nat)
    requires l + 1 < layerCount
    requires Batch(links, k') == ConnectLayer(LayerOf(nodes, l), LayerOf(nodes, l + 1), color, rand, k)
    ensures done + ConnectFrom(nodes, layerCount, l, color, rand, k).connections
              == (done + links) + ConnectFrom(nodes, layerCount, l + 1, color, rand, k').connections
    ensures ConnectFrom(nodes, layerCount, l, color, rand, k).next == ConnectFrom(nodes, layerCount, l + 1, color, rand, k').next
  {
    var rest := ConnectFrom(nodes, layerCount, l + 1, color, rand, k');
    assert done + (links + rest.connections) == (done + links) + rest.connections;
  }

  /**
   * The connection-creation loops: for each layer but the last, filter the node list for
   * that layer and the next, and link them; the kept links are pushed in order.
   */
  method GenerateConnections(nodes: seq<Node>, layerCount: nat, activeSection: string, rand: Random, k0: nat)
    returns (connections: seq<Connection>, k: nat)
    ensures Batch(connections, k) == ConnectFrom(nodes, layerCount, 0, ColorForSection(activeSection, false), rand, k0)
  {
    ghost var color := ColorForSection(activeSection, false);
    ghost var total := ConnectFrom(nodes, layerCount, 0, color, rand, k0);
    connections, k := [], k0;
    var l := 0;
    while l + 1 < layerCount
      invariant connections + ConnectFrom(nodes, layerCount, l, color, rand, k).connections == total.connections
      invariant ConnectFrom(nodes, layerCount, l, color, rand, k).next == total.next
      decreases layerCount - l
    {
      var currentLayerNodes := LayerOf(nodes, l);
      var nextLayerNodes := LayerOf(nodes, l + 1);
      var links, k' := LinkLayer(currentLayerNodes, nextLayerNodes, activeSection, rand, k);
      ConnectFromStep(nodes, layerCount, l, color, rand, k, connections, links, k');
      connections, k := connections + links, k';
      l := l + 1;
    }
    assert connections + [] == connections;
  }

  /** Every draw passes the keep test: every candidate pair becomes a connection. */
  ghost predicate AllKept(rand: Random)
  {
    forall j: nat :: rand(j) > KeepThreshold
  }

  /** No draw passes the keep test: no candidate pair becomes a connection. */
  ghost predicate NoneKept(rand: Random)
  {
    forall j: nat :: rand(j) <= KeepThreshold
  }

  /** `c` is a line from the position of a node of `starts` to that of a node of `ends`. */
  ghost predicate Links(c: Connection, starts: seq<Node>, ends: seq<Node>)
  {
    && (exists s :: s in starts && c.start == s.position)
    && (exists e :: e in ends && c.end == e.position)
  }

  /** The look of a connection: the section colour and, for real draws, an opacity in [0.2, 0.6]. */
  ghost predicate Styled(c: Connection, color: string, rand: Random)
  {
    c.color == color && (IsUniformSource(rand) ==> 0.2 <= c.opacity <= 0.6)
  }

  /**
   * One row: each link starts at the start node and ends at one of the end nodes; there are
   * at most as many links as end nodes, all of them when every draw passes, none when none does.
   */
  lemma {:induction false} ConnectRowShape(startNode: Node, ends: seq<Node>, color: string, rand: Random, k: nat)
    ensures |ConnectRow(startNode, ends, color, rand, k).connections| <= |ends|
    ensures forall c :: c in ConnectRow(startNode, ends, color, rand, k).connections ==>
              Links(c, [startNode], ends) && Styled(c, color, rand)
    ensures AllKept(rand) ==> |ConnectRow(startNode, ends, color, rand, k).connections| == |ends|
    ensures NoneKept(rand) ==> ConnectRow(startNode, ends, color, rand, k).connections == []
    decreases |ends|
  {
    if ends != [] {
      var rest := ends[1..];
      ConnectRowShape(startNode, rest, color, rand, k + 1);
      ConnectRowShape(startNode, rest, color, rand, k + 2);
      assert forall e :: e in rest ==> e in ends;
      assert startNode in [startNode];
      assert ends[0] in ends;
    }
  }

  /** One pair of layers: each link joins a start node to an end node, none when no draw passes. */
  lemma {:induction false} ConnectLayerLinks(starts: seq<Node>, ends: seq<Node>, color: string, rand: Random, k: nat)
    ensures forall c :: c in ConnectLayer(starts, ends, color, rand, k).connections ==>
              Links(c, starts, ends) && Styled(c, color, rand)
    ensures NoneKept(rand) ==> ConnectLayer(starts, ends, color, rand, k).connections == []
    decreases |starts|
  {
    if starts != [] {
      var row := ConnectRow(starts[0], ends, color, rand, k);
      var rest := ConnectLayer(starts[1..], ends, color, rand, row.next);
      ConnectRowShape(starts[0], ends, color, rand, k);
      ConnectLayerLinks(starts[1..], ends, color, rand, row.next);
      assert ConnectLayer(starts, ends, color, rand, k).connections == row.connections + rest.connections;
      assert starts[0] in starts;
      assert forall s :: s in starts[1..] ==> s in starts;
    }
  }

  /**
   * One pair of layers: at most |starts| * |ends| links, all of them when every draw passes;
   * one draw per candidate pair and one more per kept link.
   */
  lemma {:induction false} ConnectLayerCount(starts: seq<Node>, ends: seq<Node>, color: string, rand: Random, k: nat)
    ensures |ConnectLayer(starts, ends, color, rand, k).connections| <= |starts| * |ends|
    ensures ConnectLayer(starts, ends, color, rand, k).next
              == k + |starts| * |ends| + |ConnectLayer(starts, ends, color, rand, k).connections|
    ensures AllKept(rand) ==> |ConnectLayer(starts, ends, color, rand, k).connections| == |starts| * |ends|
    decreases |starts|
  {
    if starts != [] {
      var row := ConnectRow(starts[0], ends, color, rand, k);
      var rest := ConnectLayer(starts[1..], ends, color, rand, row.next);
      ConnectRowShape(starts[0], ends, color, rand, k);
      ConnectLayerCount(starts[1..], ends, color, rand, row.next);
      var pairs, restPairs := |starts| * |ends|, |starts[1..]| * |ends|;
      assert pairs == |ends| + restPairs by {
        assert |starts| == |starts[1..]| + 1;
      }
      assert |ConnectLayer(starts, ends, color, rand, k).connections| == |row.connections| + |rest.connections|;
    }
  }

  /** The number of candidate pairs between layers l and l+1, l+1 and l+2, ... of a node list. */
  function Pairs(nodes: seq<Node>, layerCount: nat, l: nat): nat
    decreases layerCount - l
  {
    if l + 1 >= layerCount then 0
    else |LayerOf(nodes, l)| * |LayerOf(nodes, l + 1)| + Pairs(nodes, layerCount, l + 1)
  }

  /**
   * All layers: each link joins a node of some layer l to a node of layer l + 1; there are
   * at most Pairs links, all of them when every draw passes, none when none does; one draw
   * is used per candidate pair and one more per kept link.
   */
  lemma {:induction false} ConnectFromShape(nodes: seq<Node>, layerCount: nat, from: nat, color: string, rand: Random, k: nat)
    ensures |ConnectFrom(nodes, layerCount, from, color, rand, k).connections| <= Pairs(nodes, layerCount, from)
    ensures ConnectFrom(nodes, layerCount, from, color, rand, k).next
              == k + Pairs(nodes, layerCount, from) + |ConnectFrom(nodes, layerCount, from, color, rand, k).connections|
    ensures forall c :: c in ConnectFrom(nodes, layerCount, from, color, rand, k).connections ==>
              Styled(c, color, rand) &&
              exists l :: from <= l && l + 1 < layerCount && Links(c, LayerOf(nodes, l), LayerOf(nodes, l + 1))
    ensures AllKept(rand) ==> |ConnectFrom(nodes, layerCount, from, color, rand, k).connections| == Pairs(nodes, layerCount, from)
    ensures NoneKept(rand) ==> ConnectFrom(nodes, layerCount, from, color, rand, k).connections == []
    decreases layerCount - from
  {
    if from + 1 < layerCount {
      var layer := ConnectLayer(LayerOf(nodes, from), LayerOf(nodes, from + 1), color, rand, k);
      ConnectLayerLinks(LayerOf(nodes, from), LayerOf(nodes, from + 1), color, rand, k);
      ConnectLayerCount(LayerOf(nodes, from), LayerOf(nodes, from + 1), color, rand, k);
      ConnectFromShape(nodes, layerCount, from + 1, color, rand, layer.next);
    }
  }

  /** The nodes of the generated list in layer l: layers[l] of them, each at that layer's x. */
  lemma GeneratedLayer(layers: seq<nat>, color: string, rand: Random, k: nat, l: nat)
    requires l < |layers|
    ensures |LayerOf(NodesFrom(layers, 0, color, rand, k), l)| == layers[l]
    ensures forall n :: n in LayerOf(NodesFrom(layers, 0, color, rand, k), l) ==> n.position.x == LayerX(|layers|, l)
  {
    LayerOfNodes(layers, 0, l, color, rand, k);
    LayerNodesShape(layers, l, 0, color, rand, k + Span(layers, 0, l));
  }

  /** The number of candidate pairs between layers from and from+1, from+1 and from+2, ... */
  function LayerPairs(layers: seq<nat>, from: nat): nat
    decreases |layers| - from
  {
    if from + 1 >= |layers| then 0 else layers[from] * layers[from + 1] + LayerPairs(layers, from + 1)
  }

  /** Counting pairs on the generated node list gives the products of the layer sizes. */
  lemma {:induction false} GeneratedPairs(layers: seq<nat>, color: string, rand: Random, k: nat, from: nat)
    ensures Pairs(NodesFrom(layers, 0, color, rand, k), |layers|, from) == LayerPairs(layers, from)
    decreases |layers| - from
  {
    if from + 1 < |layers| {
      GeneratedLayer(layers, color, rand, k, from);
      GeneratedLayer(layers, color, rand, k, from + 1);
      GeneratedPairs(layers, color, rand, k, from + 1);
    }
  }

  /** The layers used have 4*8 + 8*12 + 12*8 + 8*4 = 256 candidate pairs. */
  lemma PairsOfLayers()
    ensures LayerPairs(Layers, 0) == 256
  {
    assert LayerPairs(Layers, 4) == 0;
    assert LayerPairs(Layers, 3) == 32;
    assert LayerPairs(Layers, 2) == 128;
    assert LayerPairs(Layers, 1) == 224;
  }

  /** A link joins a node of some layer l to one of layer l + 1. */
  ghost predicate JoinsAdjacentLayers(c: Connection, layerCount: nat)
  {
    exists l: nat :: l + 1 < layerCount && c.start.x == LayerX(layerCount, l) && c.end.x == LayerX(layerCount, l + 1)
  }

  /** Each such link goes one layer to the right (x grows by 4), so it never joins a node to itself. */
  lemma AdjacentLinksAdvance(c: Connection, layerCount: nat)
    requires JoinsAdjacentLayers(c, layerCount)
    ensures c.end.x == c.start.x + LayerDistance
    ensures c.start != c.end
  {
    var l: nat :| l + 1 < layerCount && c.start.x == LayerX(layerCount, l) && c.end.x == LayerX(layerCount, l + 1);
    LayoutIsCentred(layerCount, l, 1, 0);
  }

  /**
   * The links built over a generated node list join adjacent layers only, in the section
   * colour; there are at most LayerPairs of them, all when every draw passes, none when none does.
   */
  lemma NetworkLinks(layers: seq<nat>, color: string, rand: Random, k0: nat, k1: nat)
    ensures forall c :: c in ConnectFrom(NodesFrom(layers, 0, color, rand, k0), |layers|, 0, color, rand, k1).connections ==>
              JoinsAdjacentLayers(c, |layers|) && Styled(c, color, rand)
    ensures |ConnectFrom(NodesFrom(layers, 0, color, rand, k0), |layers|, 0, color, rand, k1).connections| <= LayerPairs(layers, 0)
    ensures AllKept(rand) ==>
              |ConnectFrom(NodesFrom(layers, 0, color, rand, k0), |layers|, 0, color, rand, k1).connections| == LayerPairs(layers, 0)
    ensures NoneKept(rand) ==> ConnectFrom(NodesFrom(layers, 0, color, rand, k0), |layers|, 0, color, rand, k1).connections == []
  {
    var nodes := NodesFrom(layers, 0, color, rand, k0);
    ConnectFromShape(nodes, |layers|, 0, color, rand, k1);
    GeneratedPairs(layers, color, rand, k0, 0);
    forall c | c in ConnectFrom(nodes, |layers|, 0, color, rand, k1).connections
      ensures JoinsAdjacentLayers(c, |layers|)
    {
      var l :| 0 <= l && l + 1 < |layers| && Links(c, LayerOf(nodes, l), LayerOf(nodes, l + 1));
      LinkAcrossLayers(layers, color, rand, k0, l, c);
    }
  }

  /** A link between generated layers l and l + 1 starts at that layer's x and ends at the next. */
  lemma LinkAcrossLayers(layers: seq<nat>, color: string, rand: Random, k0: nat, l: nat, c: Connection)
    requires l + 1 < |layers|
    requires Links(c, LayerOf(NodesFrom(layers, 0, color, rand, k0), l), LayerOf(NodesFrom(layers, 0, color, rand, k0), l + 1))
    ensures JoinsAdjacentLayers(c, |layers|)
  {
    var nodes := NodesFrom(layers, 0, color, rand, k0);
    GeneratedLayer(layers, color, rand, k0, l);
    GeneratedLayer(layers, color, rand, k0, l + 1);
    var s :| s in LayerOf(nodes, l) && c.start == s.position;
    var e :| e in LayerOf(nodes, l + 1) && c.end == e.position;
    assert c.start.x == LayerX(|layers|, l) && c.end.x == LayerX(|layers|, l + 1);
  }

  /** The nodes over the layers used: 36 of them, each where its layer and index place it. */
  lemma NetworkNodesOfLayers(color: string, rand: Random, k0: nat)
    ensures |NodesFrom(Layers, 0, color, rand, k0)| == 36
    ensures forall n :: n in NodesFrom(Layers, 0, color, rand, k0) ==>
              WellPlaced(Layers, n) && n.color == color && (IsUniformSource(rand) ==> 0.1 <= n.size <= 0.2)
  {
    NodesFromShape(Layers, 0, color, rand, k0);
    NodeCountOfLayers();
    NodesFromPlaced(Layers, 0, color, rand, k0);
  }

  /**
   * The links over the layers used join adjacent layers only, in the section colour, with
   * opacities in range; at most 256 links, all 256 when every draw passes the keep test,
   * none when no draw does.
   */
  lemma NetworkLinksOfLayers(color: string, rand: Random, k0: nat)
    ensures forall c :: c in ConnectFrom(NodesFrom(Layers, 0, color, rand, k0), |Layers|, 0, color, rand, k0 + 36).connections ==>
              JoinsAdjacentLayers(c, |Layers|) && Styled(c, color, rand)
    ensures |ConnectFrom(NodesFrom(Layers, 0, color, rand, k0), |Layers|, 0, color, rand, k0 + 36).connections| <= 256
    ensures AllKept(rand) ==>
              |ConnectFrom(NodesFrom(Layers, 0, color, rand, k0), |Layers|, 0, color, rand, k0 + 36).connections| == 256
    ensures NoneKept(rand) ==> ConnectFrom(NodesFrom(Layers, 0, color, rand, k0), |Layers|, 0, color, rand, k0 + 36).connections == []
  {
    PairsOfLayers();
    NetworkLinks(Layers, color, rand, k0, k0 + 36);
  }

  /**
   * The `useMemo` that builds the network for the active section: the nodes, then the links
   * over them, drawing from the same source; NetworkNodesOfLayers and NetworkLinksOfLayers state what the result holds.
   */
  method GenerateNetwork(activeSection: string, rand: Random, k0: nat)
    returns (nodes: seq<Node>, connections: seq<Connection>, k: nat)
    ensures nodes == NodesFrom(Layers, 0, ColorForSection(activeSection, false), rand, k0)
    ensures Batch(connections, k) == ConnectFrom(nodes, |Layers|, 0, ColorForSection(activeSection, false), rand, k0 + 36)
  {
    ghost var color := ColorForSection(activeSection, false);
    var k1;
    nodes, k1 := GenerateNodes(Layers, activeSection, rand, k0);
    assert nodes == NodesFrom(Layers, 0, color, rand, k0);
    assert k1 == k0 + 36 by {
      NodeCountOfLayers();
    }
    connections, k := GenerateConnections(nodes, |Layers|, activeSection, rand, k1);
    assert Batch(connections, k) == ConnectFrom(nodes, |Layers|, 0, color, rand, k1);
  }

  // ---------------------------------------------------------------------------
  // Floating particles and the frame callbacks

  /** A floating particle as generated: start position, size, rise per frame and colour. */
  datatype FloatingParticle = FloatingParticle(position: Vec3, size: real, speed: real, color: string)

  const ParticleCount: nat := 100

  /** One particle from draws k .. k+4: three spread coordinates, then size, then speed. */
  function MakeFloatingParticle(color: string, rand: Random, k: nat): (p: FloatingParticle)
    ensures p.color == color
    ensures IsUniformSource(rand) ==> InCube(p.position, 15.0) && 0.05 <= p.size < 0.2 && 0.02 <= p.speed < 0.08
  {
    FloatingParticle(
      Vec3(RandFloatSpread(30.0, rand(k)), RandFloatSpread(30.0, rand(k + 1)), RandFloatSpread(30.0, rand(k + 2))),
      RandFloat(0.05, 0.2, rand(k + 3)),
      RandFloat(0.02, 0.08, rand(k + 4)),
      color)
  }

  /**
   * The particle `useMemo`: 100 particles in the section's particle colour; with real draws
   * each starts inside the cube [-15, 15]^3, with size in [0.05, 0.2] and speed in [0.02, 0.08].
   */
  function FloatingParticles(activeSection: string, rand: Random, k: nat): (particles: seq<FloatingParticle>)
    ensures |particles| == ParticleCount
    ensures forall i :: 0 <= i < |particles| ==> particles[i].color == ColorForSection(activeSection, true)
    ensures IsUniformSource(rand) ==> forall i :: 0 <= i < |particles| ==>
              InCube(particles[i].position, 15.0) && 0.05 <= particles[i].size <= 0.2
              && 0.02 <= particles[i].speed <= 0.08
  {
    seq(ParticleCount, i requires 0 <= i < ParticleCount =>
      MakeFloatingParticle(ColorForSection(activeSection, true), rand, k + 5 * i))
  }

  /** The depth the group eases toward: 0 for "about", -5 for every other section. */
  function TargetDepth(activeSection: string): (z: real)
    ensures z <= 0.0
    ensures z == 0.0 <==> activeSection == "about"
  {
    if activeSection == "about" then 0.0 else -5.0
  }

  /**
   * The group `useFrame`: while the group is mounted, turn it by delta * 0.1 about y and ease
   * its depth 5% of the way toward the section's target; nothing else changes.
   */
  method NetworkFrame(group: Object3D?, delta: real, activeSection: string)
    modifies group
    ensures group != null ==> group.rotation == old(group.rotation).(y := old(group.rotation.y) + delta * 0.1)
    ensures group != null ==>
              group.position == old(group.position).(z := Lerp(old(group.position.z), TargetDepth(activeSection), 0.05))
    ensures group != null ==> group.scale == old(group.scale)
  {
    if group != null {
      group.rotation := group.rotation.(y := group.rotation.y + delta * 0.1);
      group.position := group.position.(z := Lerp(group.position.z, TargetDepth(activeSection), 0.05));
    }
  }

  /**
   * One frame of a floating particle: rise (restarting at the floor with fresh x and z spread
   * draws u1, u2 once above the ceiling), then drift x and z by sin and cos values times 0.01.
   * The height follows Rise; the drift moves x and z by at most 0.01 each.
   */
  function FloatStep(p: Vec3, speed: real, driftSin: real, driftCos: real, u1: real, u2: real): (q: Vec3)
    ensures q.y == Rise(p.y, speed)
    ensures -1.0 <= driftSin <= 1.0 && -1.0 <= driftCos <= 1.0 && p.y + speed <= Ceiling ==>
              -0.01 <= q.x - p.x <= 0.01 && -0.01 <= q.z - p.z <= 0.01
    ensures -1.0 <= driftSin <= 1.0 && -1.0 <= driftCos <= 1.0 && Ceiling < p.y + speed
            && 0.0 <= u1 < 1.0 && 0.0 <= u2 < 1.0 ==>
              -15.01 <= q.x <= 15.01 && -15.01 <= q.z <= 15.01
  {
    var raised := p.(y := p.y + speed);
    var placed := if raised.y > Ceiling then Vec3(RandFloatSpread(30.0, u1), Floor, RandFloatSpread(30.0, u2)) else raised;
    placed.(x := placed.x + driftSin * 0.01, z := placed.z + driftCos * 0.01)
  }

  /** The `FloatingParticle` `useFrame`, updating the mounted mesh's position in place. */
  method FloatingParticleFrame(mesh: Object3D?, speed: real, driftSin: real, driftCos: real, u1: real, u2: real)
    modifies mesh
    ensures mesh != null ==> mesh.position == FloatStep(old(mesh.position), speed, driftSin, driftCos, u1, u2)
    ensures mesh != null ==> mesh.rotation == old(mesh.rotation) && mesh.scale == old(mesh.scale)
  {
    if mesh != null {
      mesh.position := mesh.position.(y := mesh.position.y + speed);
      if mesh.position.y > 15.0 {
        mesh.position := mesh.position.(y := -15.0);
        mesh.position := mesh.position.(x := RandFloatSpread(30.0, u1));
        mesh.position := mesh.position.(z := RandFloatSpread(30.0, u2));
      }
      mesh.position := mesh.position.(x := mesh.position.x + driftSin * 0.01);
      mesh.position := mesh.position.(z := mesh.position.z + driftCos * 0.01);
    }
  }
}
