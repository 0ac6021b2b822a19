/** The domain parser: five per-kind parsers that turn a payload into a flat
    list of records, and the dispatcher `Parse` that picks one by kind. */
module BlockParser {
  import opened Json
  import opened Tree
  import opened Payload

  /** One flat record. Its `dataType` is the constructor, except for a
      pipeline record, which keeps whatever `dataType` its source carries. */
  datatype Item =
    | CapabilityItem(
        typeName: string,
        name: Option<string>,
        description: string,
        products: seq<string>,
        processes: seq<string>,
        depth: nat)
    | ProductItem(id: Option<string>, name: Option<string>, description: string)
    | TeamItem(name: Option<string>, description: string, processes: seq<string>)
    | ArchitectureItem(typeName: string, name: Option<string>, description: string, depth: nat)
    | PipelineItem(fields: map<string, Value>)

  const DefaultCapabilityType := "capability"
  const SystemType := "software-system"
  const ComponentType := "component"

  /** The record of one capability met at `v.depth`: an absent description
      becomes '' (an empty one stays ''), absent product and process lists
      become [], and a falsy type becomes 'capability'. */
  function CapabilityRecord(v: Visit<CapabilityAttrs>): (r: Item)
    ensures r.CapabilityItem? && r.depth == v.depth && r.name == v.attrs.name
    ensures r.description == "" <==> v.attrs.description in {None, Some("")}
    ensures v.attrs.description.Some? ==> r.description == v.attrs.description.value
    ensures r.typeName != ""
    ensures Present(v.attrs.typeName) ==> r.typeName == v.attrs.typeName.value
    ensures !Present(v.attrs.typeName) ==> r.typeName == DefaultCapabilityType
    ensures v.attrs.products.Some? ==> r.products == v.attrs.products.value
    ensures v.attrs.products.None? ==> r.products == []
    ensures v.attrs.processes.Some? ==> r.processes == v.attrs.processes.value
    ensures v.attrs.processes.None? ==> r.processes == []
  {
    var a := v.attrs;
    CapabilityItem(
      typeName := if Present(a.typeName) then a.typeName.value else DefaultCapabilityType,
      name := a.name,
      description := a.description.GetOr(""),
      products := a.products.GetOr([]),
      processes := a.processes.GetOr([]),
      depth := v.depth)
  }

  /** The record of a system or component node with the given type. */
  function ArchitectureRecord(a: ComponentAttrs, typeName: string, depth: nat): Item {
    ArchitectureItem(typeName, a.name, a.description.GetOr(""), depth)
  }

  function ComponentRecord(v: Visit<ComponentAttrs>): Item {
    ArchitectureRecord(v.attrs, ComponentType, v.depth)
  }

  /** The records of a walk, one per visited node, in walk order. */
  function Records<A>(vs: seq<Visit<A>>, record: Visit<A> -> Item): (items: seq<Item>)
    ensures |items| == |vs|
    ensures forall j :: 0 <= j < |vs| ==> items[j] == record(vs[j])
  {
    seq(|vs|, j requires 0 <= j < |vs| => record(vs[j]))
  }

  lemma RecordsAppend<A>(a: seq<Visit<A>>, b: seq<Visit<A>>, record: Visit<A> -> Item)
    ensures Records(a + b, record) == Records(a, record) + Records(b, record)
  {
  }

  /** What `parseCapabilities(caps, depth)` returns. */
  function CapabilityItems(caps: seq<Capability>, depth: nat): seq<Item> {
    Records(Preorder(caps, depth), CapabilityRecord)
  }

  /** `parseCapabilities`: a loop over the capabilities that pushes each
      one's record and then the records of its nested capabilities. */
  method ParseCapabilities(caps: seq<Capability>, depth: nat) returns (items: seq<Item>)
    ensures items == CapabilityItems(caps, depth)
    decreases caps
  {
    items := [];
    for i := 0 to |caps|
      invariant items == CapabilityItems(caps[..i], depth)
    {
      var cap := caps[i];
      items := items + [CapabilityRecord(Visit(cap.attrs, depth))];
      var nested := [];
      if |cap.children| > 0 {
        nested := ParseCapabilities(cap.children, depth + 1);
      }
      items := items + nested;
      CapabilityItemsStep(caps, i, depth);
    }
    assert caps[..|caps|] == caps;
  }

  /** One iteration of `parseCapabilities`: the records of the first i + 1
      capabilities are those of the first i, then the i-th capability's own
      record, then its subtree's records one level deeper. */
  lemma CapabilityItemsStep(caps: seq<Capability>, i: nat, depth: nat)
    requires i < |caps|
    ensures CapabilityItems(caps[..i + 1], depth) ==
      CapabilityItems(caps[..i], depth) + [CapabilityRecord(Visit(caps[i].attrs, depth))]
      + CapabilityItems(caps[i].children, depth + 1)
  {
    var before, here, kids := Preorder(caps[..i], depth), [Visit(caps[i].attrs, depth)], Preorder(caps[i].children, depth + 1);
    assert caps[..i + 1] == caps[..i] + [caps[i]];
    PreorderSnoc(caps[..i], caps[i], depth);
    RecordsAppend(before, here, CapabilityRecord);
    RecordsAppend(before + here, kids, CapabilityRecord);
  }

  /** The flattened capabilities are a pre-order walk: one record per node;
      the i-th root's record sits after the records of the roots before it,
      at the roots' depth, and is immediately followed by the records of its
      own subtree one level deeper. */
  lemma CapabilitiesPreorder(caps: seq<Capability>, depth: nat, i: nat)
    requires i < |caps|
    ensures |CapabilityItems(caps, depth)| == Count(caps)
    ensures CapabilityItems(caps, depth) ==
      CapabilityItems(caps[..i], depth) + [CapabilityRecord(Visit(caps[i].attrs, depth))]
      + CapabilityItems(caps[i].children, depth + 1) + CapabilityItems(caps[i + 1..], depth)
    ensures |CapabilityItems(caps[..i], depth)| == Count(caps[..i])
  {
    PreorderLength(caps, depth);
    var before, kids, after := Preorder(caps[..i], depth), Preorder(caps[i].children, depth + 1), Preorder(caps[i + 1..], depth);
    var here := [Visit(caps[i].attrs, depth)];
    calc {
      CapabilityItems(caps, depth);
      == { PreorderAt(caps, depth, i); }
      Records(before + here + kids + after, CapabilityRecord);
      == { RecordsAppend(before + here + kids, after, CapabilityRecord);
           RecordsAppend(before + here, kids, CapabilityRecord);
           RecordsAppend(before, here, CapabilityRecord); }
      Records(before, CapabilityRecord) + Records(here, CapabilityRecord)
      + Records(kids, CapabilityRecord) + Records(after, CapabilityRecord);
      == { assert Records(here, CapabilityRecord) == [CapabilityRecord(Visit(caps[i].attrs, depth))]; }
      CapabilityItems(caps[..i], depth) + [CapabilityRecord(Visit(caps[i].attrs, depth))]
      + CapabilityItems(caps[i].children, depth + 1) + CapabilityItems(caps[i + 1..], depth);
    }
    PreorderAt(caps, depth, i);
  }

  /** Depths in the flattened capabilities: the first record is a root at
      `depth`, no record is shallower, each record is at most one level
      deeper than the one before it, and every deeper record has an earlier
      record exactly one level up (its parent). */
  lemma CapabilitiesDepths(caps: seq<Capability>, depth: nat)
    ensures var items := CapabilityItems(caps, depth);
      && (|items| > 0 ==> items[0].depth == depth)
      && (forall j :: 0 <= j < |items| ==> items[j].depth >= depth)
      && (forall j :: 0 < j < |items| ==> items[j].depth <= items[j - 1].depth + 1)
      && (forall j :: 0 <= j < |items| && items[j].depth > depth ==>
            exists k :: 0 <= k < j && items[k].depth == items[j].depth - 1)
  {
    var vs := Preorder(caps, depth);
    var items := CapabilityItems(caps, depth);
    var ds := Depths(vs);
    PreorderWellNested(caps, depth);
    assert forall j :: 0 <= j < |items| ==> items[j].depth == ds[j];
    forall j | 0 <= j < |items| && items[j].depth > depth
      ensures exists k :: 0 <= k < j && items[k].depth == items[j].depth - 1
    {
      ParentBefore(ds, depth, j);
    }
  }

  /** The product list of a payload, `[]` when absent. */
  function ProductsOf(data: Data): seq<ProductEntry> {
    data.products.GetOr([])
  }

  /** `parseProducts`: one record per product, in order, each built from its
      own entry only. */
  function ParseProducts(data: Data): (r: seq<Item>)
    ensures |r| == |ProductsOf(data)|
    ensures forall i :: 0 <= i < |r| ==>
      var p := ProductsOf(data)[i];
      r[i] == ProductItem(p.id, p.name, p.description.GetOr(""))
  {
    var ps := ProductsOf(data);
    seq(|ps|, i requires 0 <= i < |ps| => ProductItem(ps[i].id, ps[i].name, ps[i].description.GetOr("")))
  }

  function TeamsOf(data: Data): seq<TeamEntry> {
    data.teams.GetOr([])
  }

  /** `parseTeams`: one record per team, in order, each built from its own
      entry only. */
  function ParseTeams(data: Data): (r: seq<Item>)
    ensures |r| == |TeamsOf(data)|
    ensures forall i :: 0 <= i < |r| ==>
      var t := TeamsOf(data)[i];
      r[i] == TeamItem(t.name, t.description.GetOr(""), t.processes.GetOr([]))
  {
    var ts := TeamsOf(data);
    seq(|ts|, i requires 0 <= i < |ts| => TeamItem(ts[i].name, ts[i].description.GetOr(""), ts[i].processes.GetOr([])))
  }

  /** `{ dataType: 'pipeline', name: p.name, description: p.description ?? '', ...p }`:
      the defaults are written first and every own property of the pipeline
      then overrides them, so a default survives only where the pipeline
      lacks that key. */
  function PipelineRecord(p: PipelineEntry): (fields: map<string, Value>)
    ensures fields.Keys == p.Keys + {"dataType", "name", "description"}
    ensures forall k :: k in p ==> fields[k] == p[k]
    ensures "dataType" !in p ==> fields["dataType"] == Str("pipeline")
    ensures "name" !in p ==> fields["name"] == Undefined
    ensures "description" !in p ==> fields["description"] == Str("")
  {
    map["dataType" := Str("pipeline"), "name" := Get(p, "name"),
        "description" := Coalesce(Get(p, "description"), Str(""))] + p
  }

  function PipelinesOf(data: Data): seq<PipelineEntry> {
    data.pipelines.GetOr([])
  }

  /** `parsePipelines`: one record per pipeline, in order. */
  function ParsePipelines(data: Data): (r: seq<Item>)
    ensures |r| == |PipelinesOf(data)|
    ensures forall i :: 0 <= i < |r| ==> r[i] == PipelineItem(PipelineRecord(PipelinesOf(data)[i]))
  {
    var ps := PipelinesOf(data);
    seq(|ps|, i requires 0 <= i < |ps| => PipelineItem(PipelineRecord(ps[i])))
  }

  /** `data.softwareSystem ?? data['software-system']`. */
  function SystemOf(data: Data): Option<Component> {
    match data.softwareSystem
    case Some(s) => Some(s)
    case None => data.softwareSystemAlias
  }

  /** What `parseArchitecture(data, depth)` returns. */
  function ArchitectureItems(data: Data, depth: nat): seq<Item> {
    match SystemOf(data)
    case None => []
    case Some(sys) =>
      [ArchitectureRecord(sys.attrs, SystemType, depth)]
      + Records(Preorder(sys.children, depth + 1), ComponentRecord)
  }

  /** `parseArchitectureNode`: the node's record, then a loop over its
      children that appends each child's records. */
  method ParseArchitectureNode(node: Component, depth: nat) returns (items: seq<Item>)
    ensures items == Records(Preorder([node], depth), ComponentRecord)
    decreases node
  {
    items := [ComponentRecord(Visit(node.attrs, depth))];
    var children := node.children;
    for i := 0 to |children|
      invariant items == [ComponentRecord(Visit(node.attrs, depth))]
                         + Records(Preorder(children[..i], depth + 1), ComponentRecord)
    {
      var nested := ParseArchitectureNode(children[i], depth + 1);
      assert children[..i + 1] == children[..i] + [children[i]];
      PreorderAppend(children[..i], [children[i]], depth + 1);
      RecordsAppend(Preorder(children[..i], depth + 1), Preorder([children[i]], depth + 1), ComponentRecord);
      items := items + nested;
    }
    assert children[..|children|] == children;
    assert Preorder([node], depth) == [Visit(node.attrs, depth)] + Preorder(children, depth + 1) + Preorder([node][1..], depth);
    assert [node][1..] == [];
    RecordsAppend([Visit(node.attrs, depth)], Preorder(children, depth + 1), ComponentRecord);
  }

  /** `parseArchitecture`: no system gives []; otherwise the system's record,
      then each component's records one level deeper. */
  method ParseArchitecture(data: Data, depth: nat) returns (items: seq<Item>)
    ensures items == ArchitectureItems(data, depth)
  {
    var system := SystemOf(data);
    if system.None? {
      return [];
    }
    var sys := system.value;
    items := [ArchitectureRecord(sys.attrs, SystemType, depth)];
    var components := sys.children;
    for i := 0 to |components|
      invariant items == [ArchitectureRecord(sys.attrs, SystemType, depth)]
                         + Records(Preorder(components[..i], depth + 1), ComponentRecord)
    {
      var nested := ParseArchitectureNode(components[i], depth + 1);
      assert components[..i + 1] == components[..i] + [components[i]];
      PreorderAppend(components[..i], [components[i]], depth + 1);
      RecordsAppend(Preorder(components[..i], depth + 1), Preorder([components[i]], depth + 1), ComponentRecord);
      items := items + nested;
    }
    assert components[..|components|] == components;
  }

  /** The flattened architecture: empty exactly when there is no system;
      otherwise one record per node, the system first with type
      'software-system' at `depth`, then only components, all deeper, with
      the same names and depths as a pre-order walk from the system. */
  lemma ArchitectureShape(data: Data, depth: nat)
    ensures ArchitectureItems(data, depth) == [] <==> SystemOf(data).None?
    ensures SystemOf(data).Some? ==>
      var sys := SystemOf(data).value;
      var items := ArchitectureItems(data, depth);
      var walk := Preorder([sys], depth);
      && |items| == Size(sys) == |walk|
      && items[0].typeName == SystemType && items[0].depth == depth
      && (forall j :: 1 <= j < |items| ==> items[j].typeName == ComponentType && items[j].depth > depth)
      && (forall j :: 0 <= j < |items| ==> items[j].depth == walk[j].depth && items[j].name == walk[j].attrs.name)
  {
    if SystemOf(data).Some? {
      var sys := SystemOf(data).value;
      var items := ArchitectureItems(data, depth);
      var kids := Preorder(sys.children, depth + 1);
      var walk := Preorder([sys], depth);
      assert [sys][0] == sys && [sys][1..] == [];
      assert Preorder([sys][1..], depth) == [];
      assert walk == [Visit(sys.attrs, depth)] + kids;
      PreorderLength([sys], depth);
      assert Count([sys]) == Size(sys) + Count([sys][1..]);
      PreorderWellNested(sys.children, depth + 1);
      assert forall j :: 0 <= j < |kids| ==> Depths(kids)[j] == kids[j].depth;
    }
  }

  predicate IsKnownKind(kind: string) {
    kind in {"capabilities", "products", "teams", "architecture", "pipelines"}
  }

  /** `BlockParser.parse`: null data gives [] whatever the kind; each known
      kind goes to its parser; any other kind is an error, never an empty
      result. */
  method Parse(data: Option<Data>, kind: string) returns (r: Result<seq<Item>, string>)
    ensures data.None? ==> r == Ok([])
    ensures r.Err? <==> data.Some? && !IsKnownKind(kind)
    ensures r.Err? ==> r.error == "Invalid type: " + kind
    ensures data.Some? && kind == "capabilities" ==>
      r == Ok(CapabilityItems(data.value.capabilities.GetOr([]), 0))
    ensures data.Some? && kind == "products" ==> r == Ok(ParseProducts(data.value))
    ensures data.Some? && kind == "teams" ==> r == Ok(ParseTeams(data.value))
    ensures data.Some? && kind == "architecture" ==> r == Ok(ArchitectureItems(data.value, 0))
    ensures data.Some? && kind == "pipelines" ==> r == Ok(ParsePipelines(data.value))
  {
    if data.None? {
      return Ok([]);
    }
    var d := data.value;
    var items: seq<Item>;
    match kind {
      case "capabilities" =>
        items := ParseCapabilities(d.capabilities.GetOr([]), 0);
      case "products" =>
        items := ParseProducts(d);
      case "teams" =>
        items := ParseTeams(d);
      case "architecture" =>
        items := ParseArchitecture(d, 0);
      case "pipelines" =>
        items := ParsePipelines(d);
      case _ =>
        return Err("Invalid type: " + kind);
    }
    return Ok(items);
  }
}
