/** The SVG container classes: a rounded rectangle with a name label and an
    optional description label, built from bounds and attributes, and the
    per-kind attribute validation the subclass constructors run. */
module BlockContainers {
  import opened Json

  const BlockDefaultWidth := 220
  const BlockDefaultHeight := 72

  /** Labels are inset 12 from the left edge; the name sits 24 below the top
      edge and the description 44 below it. */
  const LabelInset := 12
  const NameBaseline := 24
  const DescriptionBaseline := 44

  /** A name longer than 28 is cut to 25 characters plus an ellipsis; a
      description longer than 32 to 29 plus an ellipsis. */
  const NameLimit := 28
  const NameKeep := 25
  const DescriptionLimit := 32
  const DescriptionKeep := 29
  const Ellipsis := '…'

  const NameRequired := "Name is required"
  const DescriptionRequired := "Description is required"
  const IdRequired := "ID is required"
  /** Reading a property of `undefined` attributes throws a TypeError. */
  const MissingAttributes := "TypeError: attributes is undefined"

  /** `{ x, y, width?, height? }`; an absent or null size is `None`. */
  datatype Bounds = Bounds(x: int, y: int, width: Option<int>, height: Option<int>)

  datatype Attributes = Attributes(name: Option<string>, description: Option<string>, id: Option<string>)

  /** The five subclasses; each fixes which attributes are required. */
  datatype Kind = Capabilities | Products | Teams | Pipelines | Architecture

  datatype Container = Container(kind: Kind, x: int, y: int, width: int, height: int, attributes: Option<Attributes>)

  /** What `render` appends to the SVG: the rectangle, then text labels. */
  datatype Shape =
    | Rect(rx: int, ry: int, rwidth: int, rheight: int)
    | Text(tx: int, ty: int, text: string)

  // ------------------------------------------------------------ truncation

  /** `s.length > limit ? s.slice(0, keep) + '…' : s`. */
  function Truncate(s: string, limit: nat, keep: nat): (r: string)
    requires keep < limit
    ensures |s| <= limit ==> r == s
    ensures |s| > limit ==> |r| == keep + 1 && r[..keep] == s[..keep] && r[keep] == Ellipsis
  {
    if |s| > limit then s[..keep] + [Ellipsis] else s
  }

  /** A truncated label never exceeds the limit, and is never longer than
      the text it came from. */
  lemma TruncateBound(s: string, limit: nat, keep: nat)
    requires keep < limit
    ensures |Truncate(s, limit, keep)| <= limit
    ensures |Truncate(s, limit, keep)| <= |s|
  {
  }

  /** Truncating a label a second time changes nothing. */
  lemma TruncateIdempotent(s: string, limit: nat, keep: nat)
    requires keep < limit
    ensures Truncate(Truncate(s, limit, keep), limit, keep) == Truncate(s, limit, keep)
  {
    TruncateBound(s, limit, keep);
  }

  function NameText(name: string): (t: string)
    ensures |t| <= NameLimit
  {
    Truncate(name, NameLimit, NameKeep)
  }

  function DescriptionText(description: string): (t: string)
    ensures |t| <= DescriptionLimit
  {
    Truncate(description, DescriptionLimit, DescriptionKeep)
  }

  // ------------------------------------------------------------- creation

  /** The constructor of the base class: position from the bounds, size from
      the bounds unless absent (`??`, so an explicit 0 is kept). */
  function Construct(kind: Kind, bounds: Bounds, attributes: Option<Attributes>): (c: Container)
    ensures c.kind == kind && c.x == bounds.x && c.y == bounds.y && c.attributes == attributes
    ensures bounds.width.None? ==> c.width == BlockDefaultWidth
    ensures bounds.width.Some? ==> c.width == bounds.width.value
    ensures bounds.height.None? ==> c.height == BlockDefaultHeight
    ensures bounds.height.Some? ==> c.height == bounds.height.value
  {
    Container(kind, bounds.x, bounds.y, bounds.width.GetOr(BlockDefaultWidth),
              bounds.height.GetOr(BlockDefaultHeight), attributes)
  }

  /** An attribute a kind may require. */
  datatype Field = Name | Description | Id

  function FieldValue(a: Attributes, f: Field): Option<string> {
    match f
    case Name => a.name
    case Description => a.description
    case Id => a.id
  }

  function Message(f: Field): string {
    match f
    case Name => NameRequired
    case Description => DescriptionRequired
    case Id => IdRequired
  }

  /** The attributes each subclass requires, in the order it checks them. */
  function RequiredFields(kind: Kind): seq<Field> {
    match kind
    case Capabilities => [Name, Description]
    case Products => [Name, Description, Id]
    case Teams => [Name]
    case Pipelines => [Name]
    case Architecture => [Name]
  }

  /** `validateAttributes` of each subclass: the message of the first
      required attribute that is falsy, or `None` when all are present. */
  function Validate(kind: Kind, attributes: Option<Attributes>): (error: Option<string>)
    ensures attributes.None? ==> error == Some(MissingAttributes)
    ensures attributes.Some? ==>
      (error.None? <==> forall f :: f in RequiredFields(kind) ==> Present(FieldValue(attributes.value, f)))
    ensures attributes.Some? && error.Some? ==>
      exists i :: 0 <= i < |RequiredFields(kind)|
        && error.value == Message(RequiredFields(kind)[i])
        && !Present(FieldValue(attributes.value, RequiredFields(kind)[i]))
        && forall j :: 0 <= j < i ==> Present(FieldValue(attributes.value, RequiredFields(kind)[j]))
  {
    match attributes
    case None => Some(MissingAttributes)
    case Some(a) => FirstMissing(a, RequiredFields(kind))
  }

  /** The position of the first listed attribute that is falsy, or the
      list's length when all are truthy. */
  function FirstMissingIndex(a: Attributes, fields: seq<Field>): (i: nat)
    ensures i <= |fields|
    ensures forall j :: 0 <= j < i ==> Present(FieldValue(a, fields[j]))
    ensures i < |fields| ==> !Present(FieldValue(a, fields[i]))
  {
    if fields == [] || !Present(FieldValue(a, fields[0])) then 0
    else 1 + FirstMissingIndex(a, fields[1..])
  }

  /** The check sequence over the required attributes, in order: the
      message of the first falsy one. */
  function FirstMissing(a: Attributes, fields: seq<Field>): (error: Option<string>)
    ensures error.None? <==> forall f :: f in fields ==> Present(FieldValue(a, f))
    ensures error.Some? ==>
      exists i :: 0 <= i < |fields|
        && error.value == Message(fields[i])
        && !Present(FieldValue(a, fields[i]))
        && forall j :: 0 <= j < i ==> Present(FieldValue(a, fields[j]))
  {
    var i := FirstMissingIndex(a, fields);
    if i == |fields| then None else Some(Message(fields[i]))
  }

  /** A missing name is always the error reported, whatever the kind. */
  lemma NameCheckedFirst(kind: Kind, a: Attributes)
    requires !Present(a.name)
    ensures Validate(kind, Some(a)) == Some(NameRequired)
  {
  }

  /** Products need an id as well as a name and a description; a product
      that has both but no id is rejected with the id message. */
  lemma ProductsNeedId(a: Attributes)
    requires Present(a.name) && Present(a.description) && !Present(a.id)
    ensures Validate(Products, Some(a)) == Some(IdRequired)
    ensures Validate(Capabilities, Some(a)).None?
  {
    var fields := RequiredFields(Products);
    assert fields[1..] == [Description, Id] && fields[1..][1..] == [Id];
    assert FirstMissing(a, [Id]) == Some(IdRequired);
    assert FirstMissing(a, [Description, Id]) == FirstMissing(a, [Id]);
    assert FirstMissing(a, fields) == FirstMissing(a, [Description, Id]);
  }

  /** `new Capabilities(bounds, attributes)` and its siblings: construct,
      then validate, throwing the validation message. */
  function Create(kind: Kind, bounds: Bounds, attributes: Option<Attributes>): (r: Result<Container, string>)
    ensures r.Err? <==> Validate(kind, attributes).Some?
    ensures r.Err? ==> r.error == Validate(kind, attributes).value
    ensures r.Ok? ==> r.value == Construct(kind, bounds, attributes)
  {
    match Validate(kind, attributes)
    case Some(message) => Err(message)
    case None => Ok(Construct(kind, bounds, attributes))
  }

  /** `getAttributes()`: every subclass but Teams defines it; on a Teams
      container the call fails because the method does not exist. */
  function GetAttributes(c: Container): (r: Result<Option<Attributes>, string>)
    ensures c.kind == Teams <==> r.Err?
    ensures r.Ok? ==> r.value == c.attributes
  {
    if c.kind == Teams then Err("TypeError: getAttributes is not a function")
    else Ok(c.attributes)
  }

  // ---------------------------------------------------------------- render

  /** `attributes?.name ?? ''` */
  function NameOf(c: Container): string {
    match c.attributes
    case Some(a) => a.name.GetOr("")
    case None => ""
  }

  /** `attributes?.description ?? ''` */
  function DescriptionOf(c: Container): string {
    match c.attributes
    case Some(a) => a.description.GetOr("")
    case None => ""
  }

  /** `render(svg)`: the rectangle at the container's bounds, the name label
      (possibly empty) anchored at (x + 12, y + 24), and a description label
      at (x + 12, y + 44) only when the description is non-empty. */
  function Render(c: Container): (shapes: seq<Shape>)
    ensures |shapes| == (if DescriptionOf(c) != "" then 3 else 2)
    ensures shapes[0] == Rect(c.x, c.y, c.width, c.height)
    ensures shapes[1] == Text(c.x + LabelInset, c.y + NameBaseline, NameText(NameOf(c)))
    ensures |shapes| == 3 ==>
      shapes[2] == Text(c.x + LabelInset, c.y + DescriptionBaseline, DescriptionText(DescriptionOf(c)))
    ensures forall i :: 1 <= i < |shapes| ==> shapes[i].Text? && shapes[i].tx == c.x + LabelInset
  {
    var rect := Rect(c.x, c.y, c.width, c.height);
    var name := Text(c.x + LabelInset, c.y + NameBaseline, NameText(NameOf(c)));
    var description := DescriptionOf(c);
    if description != "" then
      [rect, name, Text(c.x + LabelInset, c.y + DescriptionBaseline, DescriptionText(description))]
    else [rect, name]
  }

  /** Every container that validation lets through renders its description:
      kinds that require one always get the third label. */
  lemma CreatedWithDescriptionRendersIt(kind: Kind, bounds: Bounds, a: Attributes)
    requires kind == Capabilities || kind == Products
    requires Create(kind, bounds, Some(a)).Ok?
    ensures |Render(Create(kind, bounds, Some(a)).value)| == 3
  {
    assert Description in RequiredFields(kind);
  }

  /** The labels never run past the limits, whatever the attributes. */
  lemma LabelsWithinLimits(c: Container)
    ensures forall i :: 1 <= i < |Render(c)| ==> |Render(c)[i].text| <= DescriptionLimit
  {
  }
}
