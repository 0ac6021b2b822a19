/** The input payloads the diagram engine receives, one shape per diagram
    kind. Field names follow the JSON keys; an optional field is `None` when
    the key is absent or holds null. */
module Payload {
  import opened Json
  import opened Tree

  /** `{ name, description?, type?, products?, processes?, capabilities? }`;
      the nested `capabilities` are the node's children. */
  datatype CapabilityAttrs = CapabilityAttrs(
    name: Option<string>,
    description: Option<string>,
    typeName: Option<string>,
    products: Option<seq<string>>,
    processes: Option<seq<string>>)

  type Capability = Node<CapabilityAttrs>

  /** `{ name, description?, components? }`: the software system and each of
      its components share this shape; nested `components` are children. */
  datatype ComponentAttrs = ComponentAttrs(name: Option<string>, description: Option<string>)

  type Component = Node<ComponentAttrs>

  /** `{ id, name, description? }`; the block view also reads a `products`
      list from a product entry when one is present. */
  datatype ProductEntry = ProductEntry(
    id: Option<string>,
    name: Option<string>,
    description: Option<string>,
    products: Option<seq<string>>)

  /** `{ name, description?, processes? }` */
  datatype TeamEntry = TeamEntry(
    name: Option<string>,
    description: Option<string>,
    processes: Option<seq<string>>)

  /** A pipeline is kept as its object of own properties, because the parser
      copies every one of them into its record. */
  type PipelineEntry = map<string, Value>

  /** The root object; `softwareSystemAlias` is the `'software-system'` key. */
  datatype Data = Data(
    capabilities: Option<seq<Capability>>,
    products: Option<seq<ProductEntry>>,
    teams: Option<seq<TeamEntry>>,
    softwareSystem: Option<Component>,
    softwareSystemAlias: Option<Component>,
    pipelines: Option<seq<PipelineEntry>>)
}
