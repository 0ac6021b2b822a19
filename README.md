# Block diagram engine — a verified Dafny model

This project models the browser-side diagram engine of a small web app that
draws organisational metadata (capabilities, products, teams, pipelines,
software architecture) as block diagrams. The model covers three parts:

* **The domain parser** (`block_parser.dfy`, module `BlockParser`). Five
  per-kind parsers flatten a JSON payload into a list of records:
  * capability and architecture trees are walked depth-first in pre-order,
    and each record gets its depth;
  * products, teams and pipelines are mapped element by element;
  * absent optional fields get their defaults.

  `Parse` dispatches on the kind and rejects any unknown kind.
* **The block system** (`block_system.dfy`, module `BlockSystem`). Class
  `BlockSystem` holds the list of blocks and the id counter.
  * `ParseData` appends one payload's blocks: a four-column grid for flat
    kinds, and an indented recursive placement for trees.
  * `RenderRelations` resolves each block's relations with the first-match
    lookup `FindBlockByRelation`.
  * `UpdateBlockPosition` commits a drag.
  * Two pure rules complete it: the drag clamp and the drill-down key and
    URL.
* **The typed containers** (`block_containers.dfy`, module
  `BlockContainers`):
  * the base constructor's bounds defaults (220×72);
  * the label texts and their anchors;
  * name and description truncation;
  * the per-kind attribute validation that the subclass constructors run.

Shared pieces:

* `json.dfy` (module `Json`) holds `Option`, `Result`, the JavaScript value
  model with its truthiness, and the `??` operator.
* `tree.dfy` (module `Tree`) holds the generic recursive node, the node
  count, and the pre-order walk with its depth lemmas.
* `payload.dfy` (module `Payload`) holds the input shapes.

In three places the model follows the code where a reader might expect otherwise:

* The block system's architecture path reads only `softwareSystem`. The
  parser also falls back to the `'software-system'` key.
* Relation lines carry source and target only, with no relation kind.
* The grid always has four columns, whatever the viewport width.

Properties proved beyond the single-call contracts:

* The block view walks trees in exactly the parser's pre-order, and a
  block's level equals the record's depth (`PlacementsFollowPreorder`).
* Block ids are pairwise distinct (`NumberedIdsDistinct`).
* Grid cells never overlap (`GridNoOverlap`).
* Lines are exactly the resolved relations (`EdgesSound`, `EdgesComplete`).
* Moving a block keeps the same (source, target) pairs, in the same order
  (`MovedKeepsEdges`). The drawn lines themselves do move with the block;
  their geometry is left out (see below).
* Exactly one line is drawn per resolved (block, relation) pair, in block
  order and then relation order (`EdgesCount`, `EdgesOrder`).
* A diagram built from one payload kind draws no line at all
  (`OneKindDrawsNothing`). Capability relations look for product and team
  blocks, which a capabilities diagram never contains. Product and team
  blocks carry untagged relation strings, which never match.

## Model

| member | source | states |
|---|---|---|
| BlockParser.CapabilityRecord | webserver/static/js/block-parser.js:16-24 | the record keeps name and depth; a present description is kept and an absent one gives '', so it is '' exactly when absent or empty; a present type is kept and a falsy one gives 'capability'; absent product/process lists give [] and present ones are kept |
| BlockParser.ParseCapabilities | webserver/static/js/block-parser.js:12-31 | the loop returns exactly the records of the pre-order walk of the capabilities from the given depth |
| BlockParser.CapabilitiesPreorder | webserver/static/js/block-parser.js:12-31 | one record per node; the i-th root's record follows the records of the earlier roots' subtrees and is immediately followed by its own subtree one level deeper, then the later roots |
| BlockParser.CapabilitiesDepths | webserver/static/js/block-parser.js:12-27 | the first record is at the root depth, none is shallower, each is at most one deeper than its predecessor, and every deeper record has an earlier record exactly one level up |
| Tree.PreorderLength | webserver/static/js/block-parser.js:12-31 | the walk visits every node exactly once |
| Tree.PreorderAppend | webserver/static/js/block-parser.js:15-29 | walking two sibling lists in turn is walking their concatenation |
| Tree.PreorderAt | webserver/static/js/block-parser.js:15-29 | the i-th root sits after the walk of the earlier roots and right before its own subtree |
| Tree.PreorderWellNested | webserver/static/js/block-parser.js:23-27 | every walk's depth profile starts at the root depth, never goes above it, and deepens by at most one per step |
| Tree.ParentBefore | webserver/static/js/block-parser.js:23-27 | every entry below the roots has an earlier entry exactly one level shallower |
| BlockParser.ParseProducts | webserver/static/js/block-parser.js:38-47 | one record per product in input order, each from its own entry only, description defaulting to ''; an absent list gives [] |
| BlockParser.ParseTeams | webserver/static/js/block-parser.js:54-63 | one record per team in input order, description defaulting to '' and processes to []; an absent list gives [] |
| BlockParser.PipelineRecord | webserver/static/js/block-parser.js:120-125 | the record's keys are the pipeline's keys plus the three defaults; every own key of the pipeline wins; a default survives only where the pipeline lacks that key |
| BlockParser.ParsePipelines | webserver/static/js/block-parser.js:117-126 | one record per pipeline in input order; an absent list gives [] |
| BlockParser.ParseArchitectureNode | webserver/static/js/block-parser.js:96-112 | the node's component record followed by the records of its children's subtrees: exactly the pre-order walk of that node |
| BlockParser.ParseArchitecture | webserver/static/js/block-parser.js:71-94 | no system (after the fallback to the 'software-system' key) gives []; otherwise the system's record and then each component subtree one level deeper |
| BlockParser.ArchitectureShape | webserver/static/js/block-parser.js:71-112 | empty exactly when there is no system; otherwise one record per node, the system first at the given depth, then only deeper components, with names and depths of the pre-order walk |
| BlockParser.Parse | webserver/static/js/block-parser.js:137-160 | null data gives []; each known kind gives its parser's result; an error is returned exactly for an unknown kind on non-null data, with message 'Invalid type: ' + kind |
| BlockSystem.DecimalInjective | webserver/static/js/block-system.js:34 | different counter values print as different numerals |
| BlockSystem.BlockIdInjective | webserver/static/js/block-system.js:34 | different counter values give different `block-n` ids |
| BlockSystem.NumberedIdsDistinct | webserver/static/js/block-system.js:9 | blocks numbered by the counter have pairwise distinct ids |
| BlockSystem.Untag | webserver/static/js/block-system.js:41 | a raw product or process list becomes untagged relations, one per string, in order |
| BlockSystem.GridBlocks | webserver/static/js/block-system.js:32-43 | the i-th entry of a flat list becomes a 200×150 block in column i mod 4 and row i div 4, numbered counter + i |
| BlockSystem.GridNoOverlap | webserver/static/js/block-system.js:37-40 | grid blocks at different indices never overlap |
| BlockSystem.PlacementsLength | webserver/static/js/block-system.js:90-118 | the recursive placement places each node exactly once |
| BlockSystem.PlacementsAppend | webserver/static/js/block-system.js:91-97 | a later sibling list starts one row lower per earlier sibling and continues their serials |
| BlockSystem.PlacementsSnoc | webserver/static/js/block-system.js:91-116 | an extra last sibling is placed on the next row, then its subtree one level deeper on that row |
| BlockSystem.PlacementsGeometry | webserver/static/js/block-system.js:93-97 | serials are consecutive in placement order; levels never go above the start; x is the start plus 300 per handed-down level plus 50 per level; no node is above the start row |
| BlockSystem.PlacementsAt | webserver/static/js/block-system.js:91-116 | the i-th sibling is on row i right after the earlier siblings' subtrees; its first child comes next, one level deeper and on the same row |
| BlockSystem.PlacementsFollowPreorder | webserver/static/js/block-system.js:90-118 | the placement visits the nodes in exactly the parser's pre-order, with level equal to depth |
| BlockSystem.CapabilityRelations | webserver/static/js/block-system.js:100-109 | a capability's relations are its products tagged product, then its processes tagged process, in source order |
| BlockSystem.TagRelations | webserver/static/js/block-system.js:103-109 | the two conditional pushes build exactly the tagged relation list |
| BlockSystem.CapabilityLayout | webserver/static/js/block-system.js:62-64 | for a capabilities payload, block j holds the j-th node of the pre-order walk, is `block-(counter+j)`, sits at x = 100 + 350·depth and y ≥ 100, and carries that capability's tagged relations |
| BlockSystem.CapabilityBlocksNumbered | webserver/static/js/block-system.js:93 | capability blocks placed from the current counter continue the numbering |
| BlockSystem.ComponentBlocksNumbered | webserver/static/js/block-system.js:123 | component blocks placed from the current counter continue the numbering |
| BlockSystem.TypeOf | webserver/static/js/block-system.js:35 | each kind of block carries its own type tag: 'product' exactly for product blocks, 'team' exactly for team blocks, 'capability' exactly for capability blocks |
| BlockSystem.FindBlockByRelation | webserver/static/js/block-system.js:208-219 | returns the first block in list order that the relation matches, and nothing exactly when no block matches |
| BlockSystem.RelationEdgesSound | webserver/static/js/block-system.js:198-203 | every line drawn for one block comes from one of its relations and ends at that relation's first match |
| BlockSystem.RelationEdgesComplete | webserver/static/js/block-system.js:198-203 | every relation of a block whose target is found gets its line |
| BlockSystem.EdgesSound | webserver/static/js/block-system.js:196-205 | every line joins a block to the first match of one of its relations |
| BlockSystem.EdgesComplete | webserver/static/js/block-system.js:196-205 | every resolved (block, relation) pair is drawn |
| BlockSystem.RelationEdgesCount | webserver/static/js/block-system.js:198-203 | one block draws exactly as many lines as it has relations whose target is found |
| BlockSystem.RelationEdgesPrefix | webserver/static/js/block-system.js:198-203 | the lines of a block's first m relations are drawn before those of the rest |
| BlockSystem.RelationEdgesOrder | webserver/static/js/block-system.js:198-203 | the line of a resolved relation sits right after the lines of the resolved relations before it |
| BlockSystem.EdgesCount | webserver/static/js/block-system.js:196-205 | the relation pass draws exactly one line per resolved (block, relation) pair |
| BlockSystem.EdgesPrefix | webserver/static/js/block-system.js:196-205 | the lines of the first m blocks are drawn before those of the rest |
| BlockSystem.EdgesOrder | webserver/static/js/block-system.js:196-205 | the line of relation j of block i sits after the lines of all earlier blocks and of block i's earlier resolved relations |
| BlockSystem.UntaggedDrawNothing | webserver/static/js/block-system.js:211-217 | untagged relations never produce a line |
| BlockSystem.UnresolvedDrawNothing | webserver/static/js/block-system.js:196-205 | blocks none of whose relations resolve draw nothing; unresolved relations are skipped without error |
| BlockSystem.UnresolvedRelationsDrawNothing | webserver/static/js/block-system.js:198-203 | one block's unresolved relations produce no line |
| BlockSystem.NoMatchNoEdges | webserver/static/js/block-system.js:196-219 | if no relation matches any block, no line is drawn |
| BlockSystem.OneKindNoMatch | webserver/static/js/block-system.js:26-88 | in a diagram built from one payload kind, no relation matches any block |
| BlockSystem.OneKindDrawsNothing | webserver/static/js/block-system.js:26-88 | a diagram built from one payload kind draws no relation line |
| BlockSystem.ProductReferenceDrawsOneLine | webserver/static/js/block-system.js:196-219 | a capability referencing a product id that is present in the same list yields exactly one line, capability to product |
| BlockSystem.IndexOfId | webserver/static/js/block-system.js:309 | the position of the first block with that id, and nothing exactly when no block has it |
| BlockSystem.MovedFrame | webserver/static/js/block-system.js:308-314 | with distinct ids only the block with that id changes, and only its x and y; an unknown id changes nothing |
| BlockSystem.DragClamp | webserver/static/js/block-system.js:297-298 | the dropped coordinate is max(0, v) |
| BlockSystem.ClampedMoveStaysOnCanvas | webserver/static/js/block-system.js:297-298 | committing a clamped drag keeps every block at non-negative coordinates |
| BlockSystem.MovedKeepsEdges | webserver/static/js/block-system.js:282-288 | moving a block leaves the set and order of lines unchanged |
| BlockSystem.SameShapeSameFind | webserver/static/js/block-system.js:208-219 | relation lookup depends on ids and data only, never on positions |
| BlockSystem.SameShapeSameEdges | webserver/static/js/block-system.js:196-205 | the lines depend on ids, data and relations only |
| BlockSystem.SameShapeSameRelationEdges | webserver/static/js/block-system.js:198-203 | one block's lines depend on ids, data and relations only |
| BlockSystem.DrillDownKey | webserver/static/js/block-system.js:319 | the key is data.id if truthy, else data.name if truthy, else the block id; it is truthy whenever the block id is non-empty |
| BlockSystem.DrillDownUrl | webserver/static/js/block-system.js:318-320 | the URL is the base (or '' when absent or empty), then '/', then the encoded key |
| BlockSystem.BlockSystem.constructor | webserver/static/js/block-system.js:3-12 | an empty block list with the counter at 0 |
| BlockSystem.BlockSystem.PlaceInGrid | webserver/static/js/block-system.js:32-43 | appends exactly the grid blocks of the list, numbered from the counter, and keeps ids numbered in creation order |
| BlockSystem.BlockSystem.ParseCapabilities | webserver/static/js/block-system.js:90-118 | appends exactly the capability blocks of the recursive placement, numbered from the counter |
| BlockSystem.BlockSystem.ParseComponents | webserver/static/js/block-system.js:120-140 | appends exactly the component blocks of the recursive placement, numbered from the counter |
| BlockSystem.BlockSystem.ParseData | webserver/static/js/block-system.js:26-88 | appends exactly the blocks of the payload for the given kind (none for an unknown kind, none for architecture without softwareSystem), keeping ids numbered in creation order |
| BlockSystem.BlockSystem.RenderRelations | webserver/static/js/block-system.js:196-205 | the nested loops produce exactly the lines of the relation pass |
| BlockSystem.BlockSystem.UpdateBlockPosition | webserver/static/js/block-system.js:308-314 | the new block list is the old one with the block of that id moved; ids stay numbered |
| BlockContainers.Truncate | webserver/static/js/block-containers.js:38 | text up to the limit is unchanged; longer text becomes its first `keep` characters followed by an ellipsis |
| BlockContainers.TruncateBound | webserver/static/js/block-containers.js:38 | a truncated label is never longer than the limit or than the original |
| BlockContainers.TruncateIdempotent | webserver/static/js/block-containers.js:38 | truncating twice equals truncating once |
| BlockContainers.NameText | webserver/static/js/block-containers.js:38 | a name label has at most 28 characters |
| BlockContainers.DescriptionText | webserver/static/js/block-containers.js:48 | a description label has at most 32 characters |
| BlockContainers.Construct | webserver/static/js/block-containers.js:5-11 | x and y are copied; an absent width or height gives 220 or 72, and a given one (0 included) is kept |
| BlockContainers.Validate | webserver/static/js/block-containers.js:65-72 | missing attributes give a type error; otherwise validation passes exactly when every required attribute is truthy, else it reports the first falsy one in check order |
| BlockContainers.FirstMissingIndex | webserver/static/js/block-containers.js:90-102 | the position of the first falsy attribute in check order, every earlier one being truthy, or the list's length when all are truthy |
| BlockContainers.FirstMissing | webserver/static/js/block-containers.js:90-102 | no error exactly when all listed attributes are truthy; otherwise the message of the first falsy one, all earlier ones being truthy |
| BlockContainers.NameCheckedFirst | webserver/static/js/block-containers.js:66-68 | a falsy name is always reported as 'Name is required', whatever the kind |
| BlockContainers.ProductsNeedId | webserver/static/js/block-containers.js:90-102 | a product with name and description but no id fails with 'ID is required'; the same attributes pass for a capability |
| BlockContainers.Create | webserver/static/js/block-containers.js:58-63 | construction fails exactly when validation fails, with its message; otherwise it yields the constructed container |
| BlockContainers.GetAttributes | webserver/static/js/block-containers.js:74-76 | every kind but Teams returns its attributes; on Teams the call fails |
| BlockContainers.Render | webserver/static/js/block-containers.js:17-51 | the rectangle at the bounds; the name label at (x+12, y+24), '' when absent; a description label at (x+12, y+44) exactly when the description is non-empty |
| BlockContainers.CreatedWithDescriptionRendersIt | webserver/static/js/block-containers.js:41-50 | every capability or product container that passes validation renders its description label |
| BlockContainers.LabelsWithinLimits | webserver/static/js/block-containers.js:38-48 | no rendered label is longer than 32 characters |

## Left out

- The SVG and DOM work is not modelled: `renderBlocks`, element creation in `drawRelation`, the arrowhead marker, rectangle styling in `render`, and clearing the surface. Only the shapes' positions and texts are modelled.
- Line geometry from `getBoundingClientRect` is not modelled. It is floating-point on-screen measurement, so a line is identified by its source and target ids. After a drag the pairs stay the same, but the drawn line moves with the block.
- The text of the `TypeError` raised for absent attributes and for `getAttributes` on a Teams container depends on the browser engine. It also differs for null and undefined attributes. The model uses one fixed message for each.
- Event wiring is not modelled: drag start, drag over, resize and click listeners. The clamp and the commit are modelled as `DragClamp` and `UpdateBlockPosition`. The pixel string that `parseInt` reads back is taken to be an integer argument.
- `init` is not modelled, because it reads the page's global payload and kind. The constructor gives the empty state that `parseData` then fills.
- The navigation itself (`window.location` assignment) is not modelled.
- DrillDownUrl: `encodeURIComponent` and the string conversion before it are a function parameter `encode`, since their percent-encoding is a browser library call. `window.nextPageBase` is an optional string parameter.
- JavaScript strings count UTF-16 code units. The model counts Dafny characters, so surrogate pairs are not reproduced.
- Numbers are integers. Fractional bounds and positions are not modelled.
- A value of the wrong JSON type is not modelled: a non-array where a list is expected, or a non-string name, description, id or type. Payload fields are typed, and an absent or null field is `None`. An absent child list and an empty one behave alike in the source, so tree children are a plain list.
- Blocks are values held in a sequence, so aliasing of block objects is not modelled. `UpdateBlockPosition` replaces the block at its index.
- The drag state fields `relations`, `selectedBlock`, `draggedBlock` and `offset` are not modelled. Only the listeners use them.
- `webserver/static/js/canvas.js` is not part of this model. It is fetch and DOM glue.
- The Go web server is not part of this model. It only routes requests and loads files.
