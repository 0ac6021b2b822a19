/** The block model of the interactive diagram: a list of positioned blocks
    created from one payload, the relations between them, position updates
    from dragging, and the drill-down target of a block. Everything that
    touches the page (elements, listeners, navigation) is outside the model. */
module BlockSystem {
  import opened Json
  import opened Tree
  import opened Payload

  const Origin := 100
  const Columns := 4
  const ColumnStride := 250
  const RowStride := 200
  const BlockWidth := 200
  const BlockHeight := 150
  /** Extra indentation per nesting level (`level * 50`). */
  const LevelIndent := 50
  /** Horizontal shift handed down to each nested level (`startX + 300`). */
  const LevelShift := 300

  /** A relation stored on a block. Capabilities tag theirs; product and team
      blocks keep the raw strings of their source lists, which carry no tag. */
  datatype Relation =
    | ProductRef(target: string)
    | ProcessRef(target: string)
    | Untagged(target: string)

  /** The source entry a block was made from (`block.data`). */
  datatype BlockData =
    | CapabilityData(capability: Capability)
    | ProductData(product: ProductEntry)
    | TeamData(team: TeamEntry)
    | ComponentData(component: Component)
    | PipelineData(pipeline: PipelineEntry)

  datatype Block = Block(
    id: string,
    data: BlockData,
    x: int,
    y: int,
    width: int,
    height: int,
    relations: seq<Relation>)

  /** `block.type`, which is fixed by the kind of entry the block holds:
      each kind of block gets its own tag. */
  function TypeOf(b: Block): (t: string)
    ensures t == "product" <==> b.data.ProductData?
    ensures t == "team" <==> b.data.TeamData?
    ensures t == "capability" <==> b.data.CapabilityData?
  {
    match b.data
    case CapabilityData(_) => "capability"
    case ProductData(_) => "product"
    case TeamData(_) => "team"
    case ComponentData(_) => "component"
    case PipelineData(_) => "pipeline"
  }

  // ---------------------------------------------------------------- ids

  function Digit(d: nat): char
    requires d < 10
  {
    (48 + d) as char
  }

  /** The decimal numeral of n, as a template literal prints it. */
  function Decimal(n: nat): (s: string)
    ensures |s| >= 1 && (|s| == 1 <==> n < 10)
    decreases n
  {
    if n < 10 then [Digit(n)] else Decimal(n / 10) + [Digit(n % 10)]
  }

  /** `block-${n}` */
  function BlockId(n: nat): string {
    "block-" + Decimal(n)
  }

  /** Different numbers print differently. */
  lemma {:induction false} DecimalInjective(a: nat, b: nat)
    requires Decimal(a) == Decimal(b)
    ensures a == b
    decreases a
  {
    var s := Decimal(a);
    if a >= 10 && b >= 10 {
      assert s[|s| - 1] == Digit(a % 10) == Digit(b % 10);
      assert Decimal(a / 10) == s[..|s| - 1] == Decimal(b / 10);
      DecimalInjective(a / 10, b / 10);
    } else {
      assert s[0] == Digit(a) == Digit(b);
    }
  }

  /** Different counter values give different block ids. */
  lemma BlockIdInjective(a: nat, b: nat)
    requires BlockId(a) == BlockId(b)
    ensures a == b
  {
    assert Decimal(a) == BlockId(a)[6..] == BlockId(b)[6..] == Decimal(b);
    DecimalInjective(a, b);
  }

  /** The ids a block list gets when every block takes the next counter value
      and the counter starts at 0: the i-th block created is `block-i`. */
  ghost predicate NumberedFromZero(bs: seq<Block>) {
    forall i :: 0 <= i < |bs| ==> bs[i].id == BlockId(i)
  }

  ghost predicate DistinctIds(bs: seq<Block>) {
    forall i, j :: 0 <= i < |bs| && 0 <= j < |bs| && i != j ==> bs[i].id != bs[j].id
  }

  /** Ids handed out by the counter are pairwise distinct. */
  lemma NumberedIdsDistinct(bs: seq<Block>)
    requires NumberedFromZero(bs)
    ensures DistinctIds(bs)
  {
    forall i, j | 0 <= i < |bs| && 0 <= j < |bs| && bs[i].id == bs[j].id
      ensures i == j
    {
      BlockIdInjective(i, j);
    }
  }

  // ----------------------------------------------------- grid placement

  function GridX(index: nat): int {
    Origin + (index % Columns) * ColumnStride
  }

  function GridY(index: nat): int {
    Origin + (index / Columns) * RowStride
  }

  function Untag(targets: seq<string>): (rs: seq<Relation>)
    ensures |rs| == |targets| && forall i :: 0 <= i < |targets| ==> rs[i] == Untagged(targets[i])
  {
    seq(|targets|, i requires 0 <= i < |targets| => Untagged(targets[i]))
  }

  /** `item.products || []` for a product, `team.processes || []` for a
      team, and nothing for a pipeline. */
  function GridRelations(d: BlockData): seq<Relation> {
    match d
    case ProductData(p) => Untag(p.products.GetOr([]))
    case TeamData(t) => Untag(t.processes.GetOr([]))
    case _ => []
  }

  /** The block for the entry at `index` of a flat list, numbered `serial`. */
  function GridBlock(d: BlockData, index: nat, serial: nat): Block {
    Block(BlockId(serial), d, GridX(index), GridY(index), BlockWidth, BlockHeight, GridRelations(d))
  }

  /** The blocks a flat list adds when the counter stands at `counter`. */
  function GridBlocks(ds: seq<BlockData>, counter: nat): (bs: seq<Block>)
    ensures |bs| == |ds|
    ensures forall i :: 0 <= i < |ds| ==> bs[i] == GridBlock(ds[i], i, counter + i)
  {
    seq(|ds|, i requires 0 <= i < |ds| => GridBlock(ds[i], i, counter + i))
  }

  /** The two rectangles do not overlap. */
  predicate Disjoint(a: Block, b: Block) {
    a.x + a.width <= b.x || b.x + b.width <= a.x || a.y + a.height <= b.y || b.y + b.height <= a.y
  }

  /** Grid cells are four to a row, 250 apart across and 200 apart down, and
      a block is 200 by 150, so blocks at different indices never overlap. */
  lemma GridNoOverlap(ds: seq<BlockData>, counter: nat, i: nat, j: nat)
    requires i < |ds| && j < |ds| && i != j
    ensures Disjoint(GridBlocks(ds, counter)[i], GridBlocks(ds, counter)[j])
  {
    var bs := GridBlocks(ds, counter);
    assert bs[i].width == bs[j].width == BlockWidth && bs[i].height == bs[j].height == BlockHeight;
    if i / Columns == j / Columns {
      assert i % Columns != j % Columns;
      assert bs[i].x + BlockWidth <= bs[j].x || bs[j].x + BlockWidth <= bs[i].x;
    } else {
      assert i / Columns < j / Columns ==> bs[i].y + BlockHeight <= bs[j].y;
      assert j / Columns < i / Columns ==> bs[j].y + BlockHeight <= bs[i].y;
    }
  }

  // ----------------------------------------------------- tree placement

  /** Where `parseCapabilities`/`parseComponents` put one node. */
  datatype Placement<A> = Placement(node: Node<A>, level: nat, x: int, y: int, serial: nat)

  /** The recursive placement: the node at `index` among its siblings goes to
      (startX + level * 50, startY + index * 200) and takes the next serial;
      its children follow at once, with startX + 300, its own y and
      level + 1. */
  function Placements<A>(ns: seq<Node<A>>, startX: int, startY: int, level: nat, serial: nat): seq<Placement<A>>
    decreases ns
  {
    if ns == [] then []
    else
      [Placement(ns[0], level, startX + level * LevelIndent, startY, serial)]
      + Placements(ns[0].children, startX + LevelShift, startY, level + 1, serial + 1)
      + Placements(ns[1..], startX, startY + RowStride, level, serial + Size(ns[0]))
  }

  lemma {:induction false} PlacementsLength<A>(ns: seq<Node<A>>, startX: int, startY: int, level: nat, serial: nat)
    ensures |Placements(ns, startX, startY, level, serial)| == Count(ns)
    decreases ns
  {
    if ns != [] {
      PlacementsLength(ns[0].children, startX + LevelShift, startY, level + 1, serial + 1);
      PlacementsLength(ns[1..], startX, startY + RowStride, level, serial + Size(ns[0]));
    }
  }

  /** Placing two sibling lists one after the other: the second list starts
      |a| rows lower and |Count(a)| serials later. */
  lemma {:induction false} PlacementsAppend<A>(a: seq<Node<A>>, b: seq<Node<A>>, startX: int, startY: int, level: nat, serial: nat)
    ensures Placements(a + b, startX, startY, level, serial) ==
      Placements(a, startX, startY, level, serial)
      + Placements(b, startX, startY + |a| * RowStride, level, serial + Count(a))
    decreases a
  {
    if a == [] {
      assert a + b == b;
    } else {
      assert (a + b)[0] == a[0];
      assert (a + b)[1..] == a[1..] + b;
      PlacementsAppend(a[1..], b, startX, startY + RowStride, level, serial + Size(a[0]));
    }
  }

  /** One more sibling at the end of the list. */
  lemma PlacementsSnoc<A>(ns: seq<Node<A>>, n: Node<A>, startX: int, startY: int, level: nat, serial: nat)
    ensures Placements(ns + [n], startX, startY, level, serial) ==
      Placements(ns, startX, startY, level, serial)
      + [Placement(n, level, startX + level * LevelIndent, startY + |ns| * RowStride, serial + Count(ns))]
      + Placements(n.children, startX + LevelShift, startY + |ns| * RowStride, level + 1, serial + Count(ns) + 1)
  {
    PlacementsAppend(ns, [n], startX, startY, level, serial);
    assert [n][1..] == [];
  }

  /** Serials are consecutive in placement order, levels never go above the
      starting level, the indentation is 300 per level handed down plus 50
      per level, and no block is placed above the starting row. */
  ghost predicate Geometry<A>(ps: seq<Placement<A>>, startX: int, startY: int, level: nat, serial: nat) {
    forall j :: 0 <= j < |ps| ==>
      && ps[j].serial == serial + j
      && ps[j].level >= level
      && ps[j].x == startX + (ps[j].level - level) * LevelShift + ps[j].level * LevelIndent
      && ps[j].y >= startY
  }

  lemma {:induction false} PlacementsGeometry<A>(ns: seq<Node<A>>, startX: int, startY: int, level: nat, serial: nat)
    ensures Geometry(Placements(ns, startX, startY, level, serial), startX, startY, level, serial)
    decreases ns
  {
    if ns != [] {
      var n := ns[0];
      var kids := Placements(n.children, startX + LevelShift, startY, level + 1, serial + 1);
      var rest := Placements(ns[1..], startX, startY + RowStride, level, serial + Size(n));
      PlacementsGeometry(n.children, startX + LevelShift, startY, level + 1, serial + 1);
      PlacementsGeometry(ns[1..], startX, startY + RowStride, level, serial + Size(n));
      PlacementsLength(n.children, startX + LevelShift, startY, level + 1, serial + 1);
      assert Geometry(kids, startX + LevelShift, startY, level + 1, serial + 1);
      assert Geometry(rest, startX, startY + RowStride, level, serial + Size(n));
      var ps := Placements(ns, startX, startY, level, serial);
      assert ps == [Placement(n, level, startX + level * LevelIndent, startY, serial)] + kids + rest;
      forall j | 0 <= j < |ps|
        ensures ps[j].serial == serial + j
        ensures ps[j].level >= level
        ensures ps[j].x == startX + (ps[j].level - level) * LevelShift + ps[j].level * LevelIndent
        ensures ps[j].y >= startY
      {
        if j == 0 {
          assert ps[j] == Placement(n, level, startX + level * LevelIndent, startY, serial);
        } else if j < 1 + |kids| {
          assert ps[j] == kids[j - 1];
        } else {
          assert ps[j] == rest[j - 1 - |kids|];
          assert Size(n) == 1 + |kids|;
        }
      }
    }
  }

  /** The i-th sibling sits right after the subtrees of the siblings before
      it, on row i; its first child (if any) comes next, one level deeper and
      on the same row as its parent. */
  lemma PlacementsAt<A>(ns: seq<Node<A>>, startX: int, startY: int, level: nat, serial: nat, i: nat)
    requires i < |ns|
    ensures var ps := Placements(ns, startX, startY, level, serial);
      var k := Count(ns[..i]);
      && k < |ps|
      && ps[k] == Placement(ns[i], level, startX + level * LevelIndent, startY + i * RowStride, serial + k)
      && (ns[i].children != [] ==>
            k + 1 < |ps| && ps[k + 1].node == ns[i].children[0]
            && ps[k + 1].y == ps[k].y && ps[k + 1].level == ps[k].level + 1)
  {
    var ps := Placements(ns, startX, startY, level, serial);
    var k := Count(ns[..i]);
    assert ns == ns[..i] + [ns[i]] + ns[i + 1..];
    PlacementsAppend(ns[..i] + [ns[i]], ns[i + 1..], startX, startY, level, serial);
    PlacementsSnoc(ns[..i], ns[i], startX, startY, level, serial);
    PlacementsLength(ns[..i], startX, startY, level, serial);
    var kids := Placements(ns[i].children, startX + LevelShift, startY + i * RowStride, level + 1, serial + k + 1);
    if ns[i].children != [] {
      assert kids[0].node == ns[i].children[0] && kids[0].y == startY + i * RowStride;
      assert ps[k + 1] == kids[0];
    }
  }

  /** The nodes a placement visits, with their levels. */
  function Walk<A>(ps: seq<Placement<A>>): (vs: seq<Visit<A>>)
    ensures |vs| == |ps| && forall j :: 0 <= j < |ps| ==> vs[j] == Visit(ps[j].node.attrs, ps[j].level)
  {
    seq(|ps|, j requires 0 <= j < |ps| => Visit(ps[j].node.attrs, ps[j].level))
  }

  /** The block view places nodes in exactly the order, and at exactly the
      levels, of the parser's pre-order walk. */
  lemma {:induction false} PlacementsFollowPreorder<A>(ns: seq<Node<A>>, startX: int, startY: int, level: nat, serial: nat)
    ensures Walk(Placements(ns, startX, startY, level, serial)) == Preorder(ns, level)
    decreases ns
  {
    if ns != [] {
      var n := ns[0];
      var kids := Placements(n.children, startX + LevelShift, startY, level + 1, serial + 1);
      var rest := Placements(ns[1..], startX, startY + RowStride, level, serial + Size(n));
      PlacementsFollowPreorder(n.children, startX + LevelShift, startY, level + 1, serial + 1);
      PlacementsFollowPreorder(ns[1..], startX, startY + RowStride, level, serial + Size(n));
      var here := [Placement(n, level, startX + level * LevelIndent, startY, serial)];
      assert Walk(here + kids + rest) == Walk(here) + Walk(kids) + Walk(rest);
    }
  }

  // ------------------------------------------------------------ relations

  /** A capability's relations: each product tagged 'product', then each
      process tagged 'process', in source order. */
  function CapabilityRelations(a: CapabilityAttrs): (rs: seq<Relation>)
    ensures var ps, qs := a.products.GetOr([]), a.processes.GetOr([]);
      && |rs| == |ps| + |qs|
      && (forall i :: 0 <= i < |ps| ==> rs[i] == ProductRef(ps[i]))
      && (forall i :: 0 <= i < |qs| ==> rs[|ps| + i] == ProcessRef(qs[i]))
  {
    var ps, qs := a.products.GetOr([]), a.processes.GetOr([]);
    seq(|ps|, i requires 0 <= i < |ps| => ProductRef(ps[i]))
    + seq(|qs|, i requires 0 <= i < |qs| => ProcessRef(qs[i]))
  }

  function CapabilityBlock(p: Placement<CapabilityAttrs>): Block {
    Block(BlockId(p.serial), CapabilityData(p.node), p.x, p.y, BlockWidth, BlockHeight,
          CapabilityRelations(p.node.attrs))
  }

  function ComponentBlock(p: Placement<ComponentAttrs>): Block {
    Block(BlockId(p.serial), ComponentData(p.node), p.x, p.y, BlockWidth, BlockHeight, [])
  }

  /** The blocks made for a capability placement, in placement order. */
  function CapabilityBlocks(ps: seq<Placement<CapabilityAttrs>>): (bs: seq<Block>)
    ensures |bs| == |ps| && forall j :: 0 <= j < |ps| ==> bs[j] == CapabilityBlock(ps[j])
  {
    seq(|ps|, j requires 0 <= j < |ps| => CapabilityBlock(ps[j]))
  }

  /** The blocks made for a component placement, in placement order. */
  function ComponentBlocks(ps: seq<Placement<ComponentAttrs>>): (bs: seq<Block>)
    ensures |bs| == |ps| && forall j :: 0 <= j < |ps| ==> bs[j] == ComponentBlock(ps[j])
  {
    seq(|ps|, j requires 0 <= j < |ps| => ComponentBlock(ps[j]))
  }

  // ---------------------------------------------------- what parseData adds

  function ProductBlocksData(data: Data): seq<BlockData> {
    var ps := data.products.GetOr([]);
    seq(|ps|, i requires 0 <= i < |ps| => ProductData(ps[i]))
  }

  function TeamBlocksData(data: Data): seq<BlockData> {
    var ts := data.teams.GetOr([]);
    seq(|ts|, i requires 0 <= i < |ts| => TeamData(ts[i]))
  }

  function PipelineBlocksData(data: Data): seq<BlockData> {
    var ps := data.pipelines.GetOr([]);
    seq(|ps|, i requires 0 <= i < |ps| => PipelineData(ps[i]))
  }

  /** The components `parseData` lays out for an architecture payload: those
      of `softwareSystem` only (the `'software-system'` key is not read here,
      and the system itself gets no block). */
  function ArchitectureComponents(data: Data): seq<Component> {
    match data.softwareSystem
    case Some(sys) => sys.children
    case None => []
  }

  /** The blocks `parseData(data, kind)` appends when the counter stands at
      `counter`; an unknown kind adds nothing. */
  function NewBlocks(data: Data, kind: string, counter: nat): seq<Block> {
    match kind
    case "products" => GridBlocks(ProductBlocksData(data), counter)
    case "teams" => GridBlocks(TeamBlocksData(data), counter)
    case "capabilities" =>
      CapabilityBlocks(Placements(data.capabilities.GetOr([]), Origin, Origin, 0, counter))
    case "architecture" =>
      ComponentBlocks(Placements(ArchitectureComponents(data), Origin, Origin, 0, counter))
    case "pipelines" => GridBlocks(PipelineBlocksData(data), counter)
    case _ => []
  }

  /** Blocks made for a capability tree: the i-th block holds the i-th node of
      the pre-order walk, is numbered counter + i, sits at x = 100 + 350 * its
      level and no higher than the first row, and carries that capability's
      tagged relations. */
  lemma CapabilityLayout(caps: seq<Capability>, counter: nat)
    ensures var ps := Placements(caps, Origin, Origin, 0, counter);
      var bs := CapabilityBlocks(ps);
      var walk := Preorder(caps, 0);
      && |bs| == |walk| == Count(caps)
      && forall j :: 0 <= j < |bs| ==>
           && bs[j].id == BlockId(counter + j)
           && bs[j].data == CapabilityData(ps[j].node)
           && ps[j].node.attrs == walk[j].attrs
           && bs[j].x == Origin + walk[j].depth * (LevelShift + LevelIndent)
           && bs[j].y >= Origin
           && bs[j].relations == CapabilityRelations(walk[j].attrs)
  {
    var ps := Placements(caps, Origin, Origin, 0, counter);
    PlacementsGeometry(caps, Origin, Origin, 0, counter);
    PlacementsFollowPreorder(caps, Origin, Origin, 0, counter);
    PlacementsLength(caps, Origin, Origin, 0, counter);
    assert forall j :: 0 <= j < |ps| ==> Walk(ps)[j] == Preorder(caps, 0)[j];
  }

  // ------------------------------------------------------ relation lookup

  /** The test `findBlockByRelation` applies to each block. */
  predicate Matches(b: Block, r: Relation) {
    match r
    case ProductRef(t) =>
      TypeOf(b) == "product" && (b.data.product.id == Some(t) || b.data.product.name == Some(t))
    case ProcessRef(t) =>
      TypeOf(b) == "team" && b.data.team.processes.Some? && t in b.data.team.processes.value
    case Untagged(_) => false
  }

  /** `findBlockByRelation`: the position of the first block, in list order,
      that the relation matches. */
  function FindBlockByRelation(bs: seq<Block>, r: Relation): (k: Option<nat>)
    ensures k.Some? ==> k.value < |bs| && Matches(bs[k.value], r)
    ensures k.Some? ==> forall j :: 0 <= j < k.value ==> !Matches(bs[j], r)
    ensures k.None? ==> forall j :: 0 <= j < |bs| ==> !Matches(bs[j], r)
  {
    if bs == [] then None
    else if Matches(bs[0], r) then Some(0)
    else match FindBlockByRelation(bs[1..], r)
      case None => None
      case Some(k) => Some(k + 1)
  }

  /** A line drawn from one block to another. */
  datatype Edge = Edge(source: string, target: string)

  /** The lines drawn for one source block's relations, in order: one per
      relation whose target is found, none for the others. */
  function RelationEdges(bs: seq<Block>, source: Block, rels: seq<Relation>): seq<Edge>
    decreases |rels|
  {
    if rels == [] then []
    else
      RelationEdges(bs, source, rels[..|rels| - 1])
      + match FindBlockByRelation(bs, rels[|rels| - 1])
        case None => []
        case Some(k) => [Edge(source.id, bs[k].id)]
  }

  function EdgesFrom(bs: seq<Block>, sources: seq<Block>): seq<Edge>
    decreases |sources|
  {
    if sources == [] then []
    else EdgesFrom(bs, sources[..|sources| - 1])
         + RelationEdges(bs, sources[|sources| - 1], sources[|sources| - 1].relations)
  }

  /** The lines of the relation pass of `renderRelations`. */
  function Edges(bs: seq<Block>): seq<Edge> {
    EdgesFrom(bs, bs)
  }

  /** `e` is the line drawn for relation `r` of `source`: the relation
      resolves, and the line ends at the block it resolves to. */
  predicate DrawnFor(bs: seq<Block>, source: Block, r: Relation, e: Edge) {
    var found := FindBlockByRelation(bs, r);
    found.Some? && e == Edge(source.id, bs[found.value].id)
  }

  /** Every line joins a block to the first block matching one of its
      relations. */
  lemma {:induction false} RelationEdgesSound(bs: seq<Block>, source: Block, rels: seq<Relation>)
    ensures forall e :: e in RelationEdges(bs, source, rels) ==> exists r :: r in rels && DrawnFor(bs, source, r, e)
    decreases |rels|
  {
    if rels != [] {
      var init, last := rels[..|rels| - 1], rels[|rels| - 1];
      RelationEdgesSound(bs, source, init);
      forall e | e in RelationEdges(bs, source, rels)
        ensures exists r :: r in rels && DrawnFor(bs, source, r, e)
      {
        if e in RelationEdges(bs, source, init) {
          var r :| r in init && DrawnFor(bs, source, r, e);
          assert r in rels;
        } else {
          assert last in rels && DrawnFor(bs, source, last, e);
        }
      }
    }
  }

  /** Every relation whose target is found gets its line. */
  lemma {:induction false} RelationEdgesComplete(bs: seq<Block>, source: Block, rels: seq<Relation>, i: nat)
    requires i < |rels| && FindBlockByRelation(bs, rels[i]).Some?
    ensures Edge(source.id, bs[FindBlockByRelation(bs, rels[i]).value].id) in RelationEdges(bs, source, rels)
    decreases |rels|
  {
    if i < |rels| - 1 {
      assert rels[..|rels| - 1][i] == rels[i];
      RelationEdgesComplete(bs, source, rels[..|rels| - 1], i);
    }
  }

  /** Lines come only from resolved relations of the source blocks. */
  lemma {:induction false} EdgesSound(bs: seq<Block>, sources: seq<Block>)
    ensures forall e :: e in EdgesFrom(bs, sources) ==>
      exists i, r :: 0 <= i < |sources| && r in sources[i].relations && DrawnFor(bs, sources[i], r, e)
    decreases |sources|
  {
    if sources != [] {
      var init, last := sources[..|sources| - 1], sources[|sources| - 1];
      EdgesSound(bs, init);
      RelationEdgesSound(bs, last, last.relations);
      forall e | e in EdgesFrom(bs, sources)
        ensures exists i, r :: 0 <= i < |sources| && r in sources[i].relations && DrawnFor(bs, sources[i], r, e)
      {
        if e in EdgesFrom(bs, init) {
          var i, r :| 0 <= i < |init| && r in init[i].relations && DrawnFor(bs, init[i], r, e);
          assert init[i] == sources[i];
        } else {
          var r :| r in last.relations && DrawnFor(bs, last, r, e);
          assert |sources| - 1 < |sources| && sources[|sources| - 1] == last;
        }
      }
    }
  }

  /** Every resolved relation of every source block is drawn. */
  lemma {:induction false} EdgesComplete(bs: seq<Block>, sources: seq<Block>, i: nat, j: nat)
    requires i < |sources| && j < |sources[i].relations|
    requires FindBlockByRelation(bs, sources[i].relations[j]).Some?
    ensures Edge(sources[i].id, bs[FindBlockByRelation(bs, sources[i].relations[j]).value].id) in EdgesFrom(bs, sources)
    decreases |sources|
  {
    var init, last := sources[..|sources| - 1], sources[|sources| - 1];
    if i < |init| {
      assert init[i] == sources[i];
      EdgesComplete(bs, init, i, j);
    } else {
      RelationEdgesComplete(bs, last, last.relations, j);
    }
  }

  /** The positions in `rels` of the relations whose target is found. */
  ghost function Resolved(bs: seq<Block>, rels: seq<Relation>): set<nat> {
    set j: nat | j < |rels| && FindBlockByRelation(bs, rels[j]).Some?
  }

  lemma ResolvedSnoc(bs: seq<Block>, rels: seq<Relation>, r: Relation)
    ensures Resolved(bs, rels + [r]) ==
      Resolved(bs, rels) + (if FindBlockByRelation(bs, r).Some? then {|rels|} else {})
    ensures |rels| !in Resolved(bs, rels)
  {
    var all := rels + [r];
    assert forall j :: 0 <= j < |rels| ==> all[j] == rels[j];
    assert all[|rels|] == r;
  }

  /** One block draws exactly as many lines as it has resolved relations:
      no line is drawn twice and none is drawn for an unresolved one. */
  lemma {:induction false} RelationEdgesCount(bs: seq<Block>, source: Block, rels: seq<Relation>)
    ensures |RelationEdges(bs, source, rels)| == |Resolved(bs, rels)|
    decreases |rels|
  {
    if rels != [] {
      var init, last := rels[..|rels| - 1], rels[|rels| - 1];
      assert rels == init + [last];
      RelationEdgesCount(bs, source, init);
      ResolvedSnoc(bs, init, last);
    }
  }

  /** The lines of the first m relations begin the lines of all of them. */
  lemma {:induction false} RelationEdgesPrefix(bs: seq<Block>, source: Block, rels: seq<Relation>, m: nat)
    requires m <= |rels|
    ensures RelationEdges(bs, source, rels[..m]) <= RelationEdges(bs, source, rels)
    decreases |rels|
  {
    if m < |rels| {
      var init := rels[..|rels| - 1];
      assert init[..m] == rels[..m];
      RelationEdgesPrefix(bs, source, init, m);
    } else {
      assert rels[..m] == rels;
    }
  }

  /** Lines are drawn in relation order: the line of the j-th relation, when
      it resolves, comes right after the lines of the resolved relations
      before it. */
  lemma RelationEdgesOrder(bs: seq<Block>, source: Block, rels: seq<Relation>, j: nat)
    requires j < |rels| && FindBlockByRelation(bs, rels[j]).Some?
    ensures |Resolved(bs, rels[..j])| < |RelationEdges(bs, source, rels)|
    ensures RelationEdges(bs, source, rels)[|Resolved(bs, rels[..j])|] ==
      Edge(source.id, bs[FindBlockByRelation(bs, rels[j]).value].id)
  {
    var upTo := rels[..j + 1];
    assert upTo[..j] == rels[..j] && upTo[j] == rels[j];
    RelationEdgesCount(bs, source, rels[..j]);
    RelationEdgesPrefix(bs, source, rels, j + 1);
  }

  /** The number of resolved (block, relation) pairs, block by block. */
  ghost function ResolvedCount(bs: seq<Block>, sources: seq<Block>): nat
    decreases |sources|
  {
    if sources == [] then 0
    else |Resolved(bs, sources[0].relations)| + ResolvedCount(bs, sources[1..])
  }

  lemma {:induction false} ResolvedCountSnoc(bs: seq<Block>, sources: seq<Block>, s: Block)
    ensures ResolvedCount(bs, sources + [s]) == ResolvedCount(bs, sources) + |Resolved(bs, s.relations)|
    decreases |sources|
  {
    if sources == [] {
      assert [] + [s] == [s] && [s][1..] == [];
    } else {
      assert (sources + [s])[1..] == sources[1..] + [s];
      ResolvedCountSnoc(bs, sources[1..], s);
    }
  }

  /** The relation pass draws exactly one line per resolved (block,
      relation) pair. */
  lemma {:induction false} EdgesCount(bs: seq<Block>, sources: seq<Block>)
    ensures |EdgesFrom(bs, sources)| == ResolvedCount(bs, sources)
    decreases |sources|
  {
    if sources != [] {
      var init, last := sources[..|sources| - 1], sources[|sources| - 1];
      assert sources == init + [last];
      EdgesCount(bs, init);
      RelationEdgesCount(bs, last, last.relations);
      ResolvedCountSnoc(bs, init, last);
    }
  }

  /** The lines of the first m source blocks begin the lines of all of them. */
  lemma {:induction false} EdgesPrefix(bs: seq<Block>, sources: seq<Block>, m: nat)
    requires m <= |sources|
    ensures EdgesFrom(bs, sources[..m]) <= EdgesFrom(bs, sources)
    decreases |sources|
  {
    if m < |sources| {
      var init := sources[..|sources| - 1];
      assert init[..m] == sources[..m];
      EdgesPrefix(bs, init, m);
    } else {
      assert sources[..m] == sources;
    }
  }

  /** Lines are drawn block by block and, within a block, relation by
      relation: the line of relation j of block i sits after the lines of
      the blocks before i and of the resolved relations of block i before
      j. */
  lemma EdgesOrder(bs: seq<Block>, sources: seq<Block>, i: nat, j: nat)
    requires i < |sources| && j < |sources[i].relations|
    requires FindBlockByRelation(bs, sources[i].relations[j]).Some?
    ensures ResolvedCount(bs, sources[..i]) + |Resolved(bs, sources[i].relations[..j])| < |EdgesFrom(bs, sources)|
    ensures EdgesFrom(bs, sources)[ResolvedCount(bs, sources[..i]) + |Resolved(bs, sources[i].relations[..j])|] ==
      Edge(sources[i].id, bs[FindBlockByRelation(bs, sources[i].relations[j]).value].id)
  {
    var upTo := sources[..i + 1];
    assert upTo[..i] == sources[..i] && upTo[i] == sources[i];
    EdgesCount(bs, sources[..i]);
    RelationEdgesOrder(bs, sources[i], sources[i].relations, j);
    EdgesPrefix(bs, sources, i + 1);
  }

  /** An untagged relation never resolves, so the raw lists that product and
      team blocks carry never produce a line. */
  lemma {:induction false} UntaggedDrawNothing(bs: seq<Block>, source: Block, rels: seq<Relation>)
    requires forall i :: 0 <= i < |rels| ==> rels[i].Untagged?
    ensures RelationEdges(bs, source, rels) == []
    decreases |rels|
  {
    if rels != [] {
      UntaggedDrawNothing(bs, source, rels[..|rels| - 1]);
      assert FindBlockByRelation(bs, rels[|rels| - 1]).None?;
    }
  }

  /** Within one diagram, which holds blocks of one kind only, no relation
      ever resolves: capability relations look for product and team blocks,
      which a capabilities diagram does not have, and every other kind
      carries untagged relations or none. */
  lemma OneKindDrawsNothing(data: Data, kind: string, counter: nat)
    ensures Edges(NewBlocks(data, kind, counter)) == []
  {
    var bs := NewBlocks(data, kind, counter);
    forall i, r, k | 0 <= i < |bs| && 0 <= k < |bs| && r in bs[i].relations
      ensures !Matches(bs[k], r)
    {
      OneKindNoMatch(data, kind, counter, i, r, k);
    }
    NoMatchNoEdges(bs);
  }

  /** A block list in which no relation matches any block draws no line. */
  lemma NoMatchNoEdges(bs: seq<Block>)
    requires forall i, r, k :: 0 <= i < |bs| && 0 <= k < |bs| && r in bs[i].relations ==> !Matches(bs[k], r)
    ensures Edges(bs) == []
  {
    forall i, j | 0 <= i < |bs| && 0 <= j < |bs[i].relations|
      ensures FindBlockByRelation(bs, bs[i].relations[j]).None?
    {
    }
    UnresolvedDrawNothing(bs, bs);
  }

  /** Source blocks none of whose relations resolve draw no line. */
  lemma {:induction false} UnresolvedDrawNothing(bs: seq<Block>, sources: seq<Block>)
    requires forall i, j :: 0 <= i < |sources| && 0 <= j < |sources[i].relations| ==>
      FindBlockByRelation(bs, sources[i].relations[j]).None?
    ensures EdgesFrom(bs, sources) == []
    decreases |sources|
  {
    if sources != [] {
      var init, last := sources[..|sources| - 1], sources[|sources| - 1];
      assert forall i :: 0 <= i < |init| ==> init[i] == sources[i];
      UnresolvedDrawNothing(bs, init);
      UnresolvedRelationsDrawNothing(bs, last, last.relations);
    }
  }

  lemma {:induction false} UnresolvedRelationsDrawNothing(bs: seq<Block>, source: Block, rels: seq<Relation>)
    requires forall j :: 0 <= j < |rels| ==> FindBlockByRelation(bs, rels[j]).None?
    ensures RelationEdges(bs, source, rels) == []
    decreases |rels|
  {
    if rels != [] {
      UnresolvedRelationsDrawNothing(bs, source, rels[..|rels| - 1]);
    }
  }

  /** The step of the lemma above: a relation of a block in a one-kind
      diagram never matches another block of that diagram. */
  lemma OneKindNoMatch(data: Data, kind: string, counter: nat, i: nat, r: Relation, k: nat)
    requires var bs := NewBlocks(data, kind, counter); i < |bs| && k < |bs| && r in bs[i].relations
    ensures !Matches(NewBlocks(data, kind, counter)[k], r)
  {
    var bs := NewBlocks(data, kind, counter);
    if kind == "capabilities" {
      assert bs[k].data.CapabilityData?;
    } else if kind == "products" || kind == "teams" || kind == "pipelines" {
      assert r.Untagged?;
    }
  }

  /** When a product block and a capability naming that product share one
      block list, exactly one line is drawn, from the capability to the
      product. */
  lemma ProductReferenceDrawsOneLine(product: ProductEntry, cap: Capability, target: string)
    requires product.id == Some(target)
    requires CapabilityRelations(cap.attrs) == [ProductRef(target)]
    ensures var bs := [Block(BlockId(0), ProductData(product), 100, 100, BlockWidth, BlockHeight, []),
                       Block(BlockId(1), CapabilityData(cap), 350, 100, BlockWidth, BlockHeight, [ProductRef(target)])];
      Edges(bs) == [Edge(BlockId(1), BlockId(0))]
  {
    var bs := [Block(BlockId(0), ProductData(product), 100, 100, BlockWidth, BlockHeight, []),
               Block(BlockId(1), CapabilityData(cap), 350, 100, BlockWidth, BlockHeight, [ProductRef(target)])];
    assert FindBlockByRelation(bs, ProductRef(target)) == Some(0);
    assert bs[..1] == [bs[0]] && bs[..1][..0] == [] && bs[..2] == bs;
    assert [ProductRef(target)][..0] == [];
    assert EdgesFrom(bs, []) == [];
    assert RelationEdges(bs, bs[0], []) == [];
    assert EdgesFrom(bs, bs[..1]) == [];
    assert RelationEdges(bs, bs[1], [ProductRef(target)]) == [Edge(BlockId(1), BlockId(0))];
    assert EdgesFrom(bs, bs) == EdgesFrom(bs, bs[..1]) + RelationEdges(bs, bs[1], bs[1].relations);
  }

  // ------------------------------------------------------ moving a block

  /** Position of the first block with the given id (`blocks.find`). */
  function IndexOfId(bs: seq<Block>, id: string): (k: Option<nat>)
    ensures k.Some? ==> k.value < |bs| && bs[k.value].id == id
    ensures k.Some? ==> forall j :: 0 <= j < k.value ==> bs[j].id != id
    ensures k.None? ==> forall j :: 0 <= j < |bs| ==> bs[j].id != id
  {
    if bs == [] then None
    else if bs[0].id == id then Some(0)
    else match IndexOfId(bs[1..], id)
      case None => None
      case Some(k) => Some(k + 1)
  }

  /** `updateBlockPosition`: the block with the given id gets the new x and y. */
  function Moved(bs: seq<Block>, id: string, x: int, y: int): seq<Block> {
    match IndexOfId(bs, id)
    case None => bs
    case Some(k) => bs[k := bs[k].(x := x, y := y)]
  }

  /** Only x and y of the block with that id change; every other block and
      every other field stays as it was, and an unknown id changes nothing. */
  lemma MovedFrame(bs: seq<Block>, id: string, x: int, y: int)
    requires DistinctIds(bs)
    ensures var ms := Moved(bs, id, x, y);
      && |ms| == |bs|
      && (forall i :: 0 <= i < |bs| && bs[i].id != id ==> ms[i] == bs[i])
      && (forall i :: 0 <= i < |bs| && bs[i].id == id ==> ms[i] == bs[i].(x := x, y := y))
      && ((forall i :: 0 <= i < |bs| ==> bs[i].id != id) ==> ms == bs)
  {
  }

  /** `Math.max(0, v)`: where a dragged block may be dropped. */
  function DragClamp(v: int): (r: nat)
    ensures r >= v
    ensures r == v || r == 0
  {
    if v < 0 then 0 else v
  }

  predicate OnCanvas(bs: seq<Block>) {
    forall i :: 0 <= i < |bs| ==> bs[i].x >= 0 && bs[i].y >= 0
  }

  /** Dropping a block at a clamped position keeps every block off the
      negative coordinates. */
  lemma ClampedMoveStaysOnCanvas(bs: seq<Block>, id: string, left: int, top: int)
    requires OnCanvas(bs)
    ensures OnCanvas(Moved(bs, id, DragClamp(left), DragClamp(top)))
  {
  }

  /** Moving a block changes no line: lookups depend on ids and data only,
      and lines are redrawn from the new positions. */
  lemma {:induction false} MovedKeepsEdges(bs: seq<Block>, id: string, x: int, y: int)
    ensures Edges(Moved(bs, id, x, y)) == Edges(bs)
  {
    var ms := Moved(bs, id, x, y);
    SameShapeSameEdges(bs, ms, bs, ms);
  }

  /** Two lists that differ only in positions. */
  ghost predicate SameShape(a: seq<Block>, b: seq<Block>) {
    |a| == |b| && forall i :: 0 <= i < |a| ==> a[i].id == b[i].id && a[i].data == b[i].data && a[i].relations == b[i].relations
  }

  lemma {:induction false} SameShapeSameFind(a: seq<Block>, b: seq<Block>, r: Relation)
    requires SameShape(a, b)
    ensures FindBlockByRelation(a, r) == FindBlockByRelation(b, r)
    decreases |a|
  {
    if a != [] && !Matches(a[0], r) {
      SameShapeSameFind(a[1..], b[1..], r);
    }
  }

  lemma {:induction false} SameShapeSameEdges(a: seq<Block>, b: seq<Block>, sa: seq<Block>, sb: seq<Block>)
    requires SameShape(a, b) && SameShape(sa, sb)
    ensures EdgesFrom(a, sa) == EdgesFrom(b, sb)
    decreases |sa|
  {
    if sa != [] {
      var n := |sa| - 1;
      SameShapeSameEdges(a, b, sa[..n], sb[..n]);
      SameShapeSameRelationEdges(a, b, sa[n], sb[n], sa[n].relations);
    }
  }

  lemma {:induction false} SameShapeSameRelationEdges(a: seq<Block>, b: seq<Block>, s: Block, t: Block, rels: seq<Relation>)
    requires SameShape(a, b) && s.id == t.id
    ensures RelationEdges(a, s, rels) == RelationEdges(b, t, rels)
    decreases |rels|
  {
    if rels != [] {
      SameShapeSameRelationEdges(a, b, s, t, rels[..|rels| - 1]);
      SameShapeSameFind(a, b, rels[|rels| - 1]);
    }
  }

  // ------------------------------------------------------------ drill-down

  /** `block.data.id` (only products and pipelines carry one). */
  function IdValue(d: BlockData): Value {
    match d
    case ProductData(p) => AsValue(p.id)
    case PipelineData(m) => Get(m, "id")
    case _ => Undefined
  }

  /** `block.data.name` */
  function NameValue(d: BlockData): Value {
    match d
    case CapabilityData(c) => AsValue(c.attrs.name)
    case ProductData(p) => AsValue(p.name)
    case TeamData(t) => AsValue(t.name)
    case ComponentData(c) => AsValue(c.attrs.name)
    case PipelineData(m) => Get(m, "name")
  }

  /** `block.data.id || block.data.name || block.id` */
  function DrillDownKey(b: Block): (key: Value)
    ensures Truthy(IdValue(b.data)) ==> key == IdValue(b.data)
    ensures !Truthy(IdValue(b.data)) && Truthy(NameValue(b.data)) ==> key == NameValue(b.data)
    ensures !Truthy(IdValue(b.data)) && !Truthy(NameValue(b.data)) ==> key == Str(b.id)
    ensures b.id != "" ==> Truthy(key)
  {
    if Truthy(IdValue(b.data)) then IdValue(b.data)
    else if Truthy(NameValue(b.data)) then NameValue(b.data)
    else Str(b.id)
  }

  /** `${nextPageBase || ''}/${encodeURIComponent(key)}`; `encode` stands for
      the browser's string conversion and percent-encoding. */
  function DrillDownUrl(nextPageBase: Option<string>, b: Block, encode: Value -> string): (url: string)
    ensures var base := if Present(nextPageBase) then nextPageBase.value else "";
      && |url| == |base| + 1 + |encode(DrillDownKey(b))|
      && url[..|base|] == base
      && url[|base|] == '/'
      && url[|base| + 1..] == encode(DrillDownKey(b))
  {
    var base := if Present(nextPageBase) then nextPageBase.value else "";
    base + "/" + encode(DrillDownKey(b))
  }

  /** Placing the siblings up to and including the i-th: the placements of
      the earlier siblings' subtrees (Count(ns[..i]) of them), the i-th
      sibling on row i, then its subtree. */
  lemma PlacementsStep<A>(ns: seq<Node<A>>, i: nat, startX: int, startY: int, level: nat, serial: nat)
    requires i < |ns|
    ensures |Placements(ns[..i], startX, startY, level, serial)| == Count(ns[..i])
    ensures Placements(ns[..i + 1], startX, startY, level, serial) ==
      Placements(ns[..i], startX, startY, level, serial)
      + [Placement(ns[i], level, startX + level * LevelIndent, startY + i * RowStride, serial + Count(ns[..i]))]
      + Placements(ns[i].children, startX + LevelShift, startY + i * RowStride, level + 1, serial + Count(ns[..i]) + 1)
  {
    assert ns[..i + 1] == ns[..i] + [ns[i]];
    PlacementsLength(ns[..i], startX, startY, level, serial);
    PlacementsSnoc(ns[..i], ns[i], startX, startY, level, serial);
  }

  /** Building blocks distributes over concatenated placements. */
  lemma CapabilityBlocksAppend(a: seq<Placement<CapabilityAttrs>>, b: seq<Placement<CapabilityAttrs>>)
    ensures CapabilityBlocks(a + b) == CapabilityBlocks(a) + CapabilityBlocks(b)
  {
  }

  /** As above, for components. */
  lemma ComponentBlocksAppend(a: seq<Placement<ComponentAttrs>>, b: seq<Placement<ComponentAttrs>>)
    ensures ComponentBlocks(a + b) == ComponentBlocks(a) + ComponentBlocks(b)
  {
  }

  /** One iteration of `parseCapabilities`: the blocks so far, the block of
      the i-th capability, then the blocks of its subtree, are the blocks of
      the first i + 1 capabilities. */
  lemma CapabilityStep(prefix: seq<Block>, caps: seq<Capability>, i: nat, startX: int, startY: int, level: nat,
                       start: nat, serial: nat, block: Block)
    requires i < |caps| && serial == start + Count(caps[..i])
    requires block == CapabilityBlock(Placement(caps[i], level, startX + level * LevelIndent, startY + i * RowStride, serial))
    ensures prefix + CapabilityBlocks(Placements(caps[..i], startX, startY, level, start)) + [block]
            + CapabilityBlocks(Placements(caps[i].children, startX + LevelShift, startY + i * RowStride, level + 1, serial + 1))
            == prefix + CapabilityBlocks(Placements(caps[..i + 1], startX, startY, level, start))
  {
    var prev := Placements(caps[..i], startX, startY, level, start);
    var here := Placement(caps[i], level, startX + level * LevelIndent, startY + i * RowStride, serial);
    var below := Placements(caps[i].children, startX + LevelShift, startY + i * RowStride, level + 1, serial + 1);
    calc {
      prefix + CapabilityBlocks(prev) + [block] + CapabilityBlocks(below);
      == { assert CapabilityBlocks([here]) == [block]; }
      prefix + (CapabilityBlocks(prev) + CapabilityBlocks([here]) + CapabilityBlocks(below));
      == { CapabilityBlocksAppend(prev, [here]); CapabilityBlocksAppend(prev + [here], below); }
      prefix + CapabilityBlocks(prev + [here] + below);
      == { PlacementsStep(caps, i, startX, startY, level, start); }
      prefix + CapabilityBlocks(Placements(caps[..i + 1], startX, startY, level, start));
    }
  }

  /** One iteration of `parseComponents`, as above. */
  lemma ComponentStep(prefix: seq<Block>, comps: seq<Component>, i: nat, startX: int, startY: int, level: nat,
                      start: nat, serial: nat, block: Block)
    requires i < |comps| && serial == start + Count(comps[..i])
    requires block == ComponentBlock(Placement(comps[i], level, startX + level * LevelIndent, startY + i * RowStride, serial))
    ensures prefix + ComponentBlocks(Placements(comps[..i], startX, startY, level, start)) + [block]
            + ComponentBlocks(Placements(comps[i].children, startX + LevelShift, startY + i * RowStride, level + 1, serial + 1))
            == prefix + ComponentBlocks(Placements(comps[..i + 1], startX, startY, level, start))
  {
    var prev := Placements(comps[..i], startX, startY, level, start);
    var here := Placement(comps[i], level, startX + level * LevelIndent, startY + i * RowStride, serial);
    var below := Placements(comps[i].children, startX + LevelShift, startY + i * RowStride, level + 1, serial + 1);
    calc {
      prefix + ComponentBlocks(prev) + [block] + ComponentBlocks(below);
      == { assert ComponentBlocks([here]) == [block]; }
      prefix + (ComponentBlocks(prev) + ComponentBlocks([here]) + ComponentBlocks(below));
      == { ComponentBlocksAppend(prev, [here]); ComponentBlocksAppend(prev + [here], below); }
      prefix + ComponentBlocks(prev + [here] + below);
      == { PlacementsStep(comps, i, startX, startY, level, start); }
      prefix + ComponentBlocks(Placements(comps[..i + 1], startX, startY, level, start));
    }
  }

  /** Capability blocks placed from serial |bs| on continue the numbering
      of bs. */
  lemma CapabilityBlocksNumbered(bs: seq<Block>, caps: seq<Capability>, startX: int, startY: int, level: nat)
    requires NumberedFromZero(bs)
    ensures NumberedFromZero(bs + CapabilityBlocks(Placements(caps, startX, startY, level, |bs|)))
  {
    var ps := Placements(caps, startX, startY, level, |bs|);
    PlacementsGeometry(caps, startX, startY, level, |bs|);
    var all := bs + CapabilityBlocks(ps);
    forall i | |bs| <= i < |all|
      ensures all[i].id == BlockId(i)
    {
      assert all[i] == CapabilityBlock(ps[i - |bs|]);
    }
  }

  /** Component blocks placed from serial |bs| on continue the numbering
      of bs. */
  lemma ComponentBlocksNumbered(bs: seq<Block>, comps: seq<Component>, startX: int, startY: int, level: nat)
    requires NumberedFromZero(bs)
    ensures NumberedFromZero(bs + ComponentBlocks(Placements(comps, startX, startY, level, |bs|)))
  {
    var ps := Placements(comps, startX, startY, level, |bs|);
    PlacementsGeometry(comps, startX, startY, level, |bs|);
    var all := bs + ComponentBlocks(ps);
    forall i | |bs| <= i < |all|
      ensures all[i].id == BlockId(i)
    {
      assert all[i] == ComponentBlock(ps[i - |bs|]);
    }
  }

  /** The two conditional pushes of `parseCapabilities` that fill a
      capability block's relations. */
  method TagRelations(a: CapabilityAttrs) returns (relations: seq<Relation>)
    ensures relations == CapabilityRelations(a)
  {
    relations := [];
    var products := a.products.GetOr([]);
    if |products| > 0 {
      relations := relations + seq(|products|, i requires 0 <= i < |products| => ProductRef(products[i]));
    }
    var processes := a.processes.GetOr([]);
    if |processes| > 0 {
      relations := relations + seq(|processes|, i requires 0 <= i < |processes| => ProcessRef(processes[i]));
    }
  }

  // ------------------------------------------------------------ the system

  class BlockSystem {
    var blocks: seq<Block>
    var blockIdCounter: nat

    /** The counter has handed out exactly one id per block, in order. */
    ghost predicate Valid()
      reads this
    {
      blockIdCounter == |blocks| && NumberedFromZero(blocks)
    }

    constructor ()
      ensures Valid() && blocks == []
    {
      blocks := [];
      blockIdCounter := 0;
    }

    /** The three `forEach` loops over a flat list (products, teams,
        pipelines): each entry gets the next id and its grid cell. */
    method PlaceInGrid(items: seq<BlockData>)
      requires Valid()
      modifies this
      ensures Valid()
      ensures blocks == old(blocks) + GridBlocks(items, old(blockIdCounter))
    {
      var start := blockIdCounter;
      for index := 0 to |items|
        invariant Valid()
        invariant blockIdCounter == start + index
        invariant blocks == old(blocks) + GridBlocks(items[..index], start)
      {
        var item := items[index];
        var block := Block(BlockId(blockIdCounter), item,
                           Origin + (index % Columns) * ColumnStride,
                           Origin + (index / Columns) * RowStride,
                           BlockWidth, BlockHeight, GridRelations(item));
        blockIdCounter := blockIdCounter + 1;
        blocks := blocks + [block];
        assert GridBlocks(items[..index + 1], start) == GridBlocks(items[..index], start) + [block];
      }
      assert items[..|items|] == items;
    }

    /** `parseCapabilities(capabilities, startX, startY, level)`. */
    method ParseCapabilities(caps: seq<Capability>, startX: int, startY: int, level: nat)
      requires blockIdCounter == |blocks|
      modifies this
      ensures blockIdCounter == |blocks|
      ensures blocks == old(blocks) + CapabilityBlocks(Placements(caps, startX, startY, level, old(blockIdCounter)))
      decreases caps
    {
      ghost var start := blockIdCounter;
      for index := 0 to |caps|
        invariant blockIdCounter == |blocks|
        invariant blocks == old(blocks) + CapabilityBlocks(Placements(caps[..index], startX, startY, level, start))
      {
        var cap := caps[index];
        PlacementsLength(caps[..index], startX, startY, level, start);
        var relations := TagRelations(cap.attrs);
        var block := Block(BlockId(blockIdCounter), CapabilityData(cap), startX + level * LevelIndent,
                           startY + index * RowStride, BlockWidth, BlockHeight, relations);
        CapabilityStep(old(blocks), caps, index, startX, startY, level, start, blockIdCounter, block);
        blocks := blocks + [block];
        blockIdCounter := blockIdCounter + 1;
        if |cap.children| > 0 {
          ParseCapabilities(cap.children, startX + LevelShift, startY + index * RowStride, level + 1);
        }
      }
      assert caps[..|caps|] == caps;
    }

    /** `parseComponents(components, startX, startY, level)`. */
    method ParseComponents(comps: seq<Component>, startX: int, startY: int, level: nat)
      requires blockIdCounter == |blocks|
      modifies this
      ensures blockIdCounter == |blocks|
      ensures blocks == old(blocks) + ComponentBlocks(Placements(comps, startX, startY, level, old(blockIdCounter)))
      decreases comps
    {
      ghost var start := blockIdCounter;
      for index := 0 to |comps|
        invariant blockIdCounter == |blocks|
        invariant blocks == old(blocks) + ComponentBlocks(Placements(comps[..index], startX, startY, level, start))
      {
        var comp := comps[index];
        PlacementsLength(comps[..index], startX, startY, level, start);
        var block := Block(BlockId(blockIdCounter), ComponentData(comp), startX + level * LevelIndent,
                           startY + index * RowStride, BlockWidth, BlockHeight, []);
        ComponentStep(old(blocks), comps, index, startX, startY, level, start, blockIdCounter, block);
        blocks := blocks + [block];
        blockIdCounter := blockIdCounter + 1;
        if |comp.children| > 0 {
          ParseComponents(comp.children, startX + LevelShift, startY + index * RowStride, level + 1);
        }
      }
      assert comps[..|comps|] == comps;
    }

    /** `parseData(data, type)`: appends the blocks of one payload. */
    method ParseData(data: Data, kind: string)
      requires Valid()
      modifies this
      ensures Valid()
      ensures blocks == old(blocks) + NewBlocks(data, kind, old(blockIdCounter))
    {
      match kind {
        case "products" =>
          PlaceInGrid(ProductBlocksData(data));
        case "teams" =>
          PlaceInGrid(TeamBlocksData(data));
        case "capabilities" =>
          ParseCapabilities(data.capabilities.GetOr([]), Origin, Origin, 0);
          CapabilityBlocksNumbered(old(blocks), data.capabilities.GetOr([]), Origin, Origin, 0);
        case "architecture" =>
          if data.softwareSystem.Some? {
            ParseComponents(data.softwareSystem.value.children, Origin, Origin, 0);
            ComponentBlocksNumbered(old(blocks), data.softwareSystem.value.children, Origin, Origin, 0);
          }
        case "pipelines" =>
          PlaceInGrid(PipelineBlocksData(data));
        case _ =>
      }
    }

    /** The relation pass of `renderRelations`: for each block, for each of
        its relations, one line when the target is found. */
    method RenderRelations() returns (lines: seq<Edge>)
      ensures lines == Edges(blocks)
    {
      lines := [];
      for i := 0 to |blocks|
        invariant lines == EdgesFrom(blocks, blocks[..i])
      {
        var block := blocks[i];
        assert blocks[..i + 1][..i] == blocks[..i];
        if |block.relations| > 0 {
          for j := 0 to |block.relations|
            invariant lines == EdgesFrom(blocks, blocks[..i]) + RelationEdges(blocks, block, block.relations[..j])
          {
            assert block.relations[..j + 1][..j] == block.relations[..j];
            var target := FindBlockByRelation(blocks, block.relations[j]);
            if target.Some? {
              lines := lines + [Edge(block.id, blocks[target.value].id)];
            }
          }
          assert block.relations[..|block.relations|] == block.relations;
        }
      }
      assert blocks[..|blocks|] == blocks;
    }

    /** `updateBlockPosition`: the block with that id takes the new position. */
    method UpdateBlockPosition(id: string, left: int, top: int)
      requires Valid()
      modifies this
      ensures Valid()
      ensures blocks == Moved(old(blocks), id, left, top)
    {
      var found := IndexOfId(blocks, id);
      if found.Some? {
        var k := found.value;
        blocks := blocks[k := blocks[k].(x := left, y := top)];
      }
    }
  }
}
