# Campaign flowchart editor: graph model, connection derivation and path geometry

This project models the core of a small React flowchart editor (card-wizard-react-ui). In that editor a marketing campaign is a list of *cards*:
- one trigger;
- conditions, which have `yes`/`no` branches;
- actions and emails, which have a `next` list.

On every change, the editor derives an ordered list of *connection records* from the card list. A record is either of two things:
- a resolved link from one card's anchor to another card's top centre;
- a dangling *stub* ending in an add button.

It draws those records in two ways:
- as a canvas polyline;
- as absolutely positioned DOM boxes, dots, add buttons and yes/no markers.

The editing handlers are add, remove and drag. They rewrite the card list. Each card runs a small drag gesture state machine.

The model has one Dafny module per concern:

- `FlowTypes`: cards, records, JavaScript truthiness of optional ids, `Array.prototype.find`, and the graph invariants. The invariants are referential integrity, unique positive ids and no double references.
- `SeqUtil`: the "for each element, push its records" pattern, written as a concatenating map, with its algebra.
- `Derivation`: the derivation loop, which is the same in all three flowchart components.
  - It is written as a method `DeriveConnections` with nested loops, proved against the function `Derive`.
  - `Derive` is proved sound: every record is explained by a card and names an existing target.
  - It is proved complete: every open relation gives a stub, and every resolvable relation gives a link.
  - It is proved to respect the order of cards, then `next` entries, then `yes`, then `no`.
  - It counts stubs exactly.
- `GraphEdits`: the handlers as functions from the old card list to the new one. Proved about them:
  - what changes and what does not;
  - the freshness of the new id;
  - preservation of the graph invariants;
  - the `else if` quirk of removal.
- `Widgets`, `CanvasPaths`, `Segments`: the two renderers.
  - `drawConnections` is a loop proved against `CanvasPath`.
  - `renderConnections` is a loop proved against `Render`.
  - The canvas overlay (dots, add buttons, markers) is proved to be exactly the DOM render with its line boxes removed.
- `CardGesture`: `FlowchartCard` is a class holding `isDragging` and `dragOffset`. Its mouse handlers are methods that return the callbacks they fire. A whole press–moves–release gesture is proved to report positions that never jump and that follow the pointer.
- `FlowchartData`: the initial graph constant. Proved about it:
  - its ids are exactly 1..9;
  - it has a single trigger and the expected shape, and it is well formed;
  - its derivation has exactly eleven records, written out with their coordinates.
- `EditAndDerive`: how the editing handlers and derivation fit together.
  - A new card contributes stubs.
  - Dragging never changes which links exist.
  - Every add button belongs to an open relation, and using it turns that stub into a link to the new card.
  - Removing a just-added card undoes the add.
  - Three end-to-end runs are proved: derive, add under a `yes`, remove again.

Code that appears in more than one component is modelled once and cited at one copy:
- The derivation is cited at `CanvasFlowchart.jsx:24-107`. The same loop is at `Flowchart.jsx:21-105` and `Flowchart.tsx:19-103`.
- The selector-driven add handler is cited at `CanvasFlowchart.jsx:191-235`. The same handler is at `Flowchart.jsx:146-190`. The typed handler at `Flowchart.tsx:109-160` differs only in taking the kind from the relation, and is modelled as `AddCardByRelation`.
- The DOM render is cited at `Flowchart.jsx:231-333`. `Flowchart.tsx:163-265` computes the same boxes, dots and markers. Its add button calls the typed handler without a kind, `handleAddCard(conn.from, conn.type, conn.toPos)` (`Flowchart.tsx:187`), where `Flowchart.jsx:255` passes the kind chosen in the selector.

`CanvasFlowchart.jsx` has no DOM line boxes. It draws the lines on a canvas (`drawConnections`, 121-158) and renders only dots, add buttons and markers over it (322-353). These are modelled as `CanvasPath` and `Overlay`.

## Model

| member | source | states |
|---|---|---|
| FlowTypes.Find | src/components/CanvasFlowchart.jsx:31 | the card found is in the list and has the sought id; nothing is found exactly when no card has that id |
| FlowTypes.FindFirst | src/components/CanvasFlowchart.jsx:31 | the lookup returns the first card carrying the id, whatever cards with that id come later |
| FlowTypes.FindAt | src/components/CanvasFlowchart.jsx:58 | with unique ids, looking up a card's id finds that very card |
| FlowTypes.PresentIsTruthy | src/components/CanvasFlowchart.jsx:57 | when the graph has integrity and positive ids, the truthiness test on `yes`/`no` coincides with the field being present |
| Derivation.DeriveConnections | src/components/CanvasFlowchart.jsx:24-107 | the push loop over the cards yields exactly `Derive(nodes)` |
| Derivation.PushNodeConnections | src/components/CanvasFlowchart.jsx:27-106 | one card's step appends that card's records: `next` ones, then `yes`, then `no` |
| Derivation.PushNextTargets | src/components/CanvasFlowchart.jsx:29-42 | the inner loop appends one link per `next` entry that names a card, in list order |
| Derivation.PushBranch | src/components/CanvasFlowchart.jsx:57-80 | the branch step appends the link when the field is truthy and resolves, a stub for a condition card without it, nothing otherwise |
| Derivation.NodeConnectionSound | src/components/CanvasFlowchart.jsx:29-106 | every record of a card starts at that card's anchor for its relation; a stub belongs to an open relation; a link goes to an existing card the relation names and ends at that card's top centre |
| Derivation.NodeConnectionComplete | src/components/CanvasFlowchart.jsx:29-106 | an open relation yields its stub; a relation naming an existing card yields the link to it |
| Derivation.DeriveSound | src/components/CanvasFlowchart.jsx:24-107 | every derived record is explained by some card; every non-stub record's target is the id of a card in the list |
| Derivation.DeriveComplete | src/components/CanvasFlowchart.jsx:24-107 | every open relation of every card gives a stub, and every resolvable relation gives a link, in the derived list |
| Derivation.NextTargetsOrder | src/components/CanvasFlowchart.jsx:30-42 | `next` links are non-stub `next` records from the card, and their targets are the resolving entries in list order (unresolved ids emit nothing) |
| Derivation.NextTargetsNoEndpoint | src/components/CanvasFlowchart.jsx:30-42 | a non-empty `next` list never yields a stub |
| Derivation.NextConnectionsShape | src/components/CanvasFlowchart.jsx:29-54 | an absent `next` yields nothing; an empty one yields one stub from (x+150, y+60) to (x+150, y+120) with no target; a non-empty one yields only links, to the resolving entries |
| Derivation.BranchConnectionsShape | src/components/CanvasFlowchart.jsx:57-106 | a falsy branch yields a stub exactly on condition cards, and nothing on any other card; a truthy branch yields the link when its id resolves, and nothing otherwise |
| Derivation.NodeEndpointCount | src/components/CanvasFlowchart.jsx:43-106 | a card's stubs number one per empty `next` plus one per missing branch of a condition card |
| Derivation.NodeConnectionsOrder | src/components/CanvasFlowchart.jsx:27-107 | within a card the records come in the order `next`, `yes`, `no` |
| Derivation.DeriveOrder | src/components/CanvasFlowchart.jsx:27-107 | the records of the first k cards, followed by card k's records, are a prefix of the derived list (card order) |
| Derivation.SingleNextRecords | src/components/CanvasFlowchart.jsx:29-42 | a non-condition card whose `next` is one resolving id yields exactly the one link to that card |
| Derivation.BranchPairRecords | src/components/CanvasFlowchart.jsx:57-94 | a card without `next` whose `yes` and `no` resolve yields exactly the `yes` link, then the `no` link |
| Derivation.LeafStubRecords | src/components/CanvasFlowchart.jsx:43-53 | a non-condition card with an empty `next` and no branches yields exactly its `next` stub |
| GraphEdits.HandleDragOnlyMoves | src/components/Flowchart.jsx:121-138 | drag keeps the count, the order and every field but the position; only cards with the dragged id get the new position; the id set is unchanged |
| GraphEdits.HandleDragLastWriteWins | src/components/Flowchart.jsx:121-138 | two drags of the same card equal the last one alone; repeating a drag is idempotent |
| GraphEdits.HandleDragWellformed | src/components/CanvasFlowchart.jsx:166-183 | a drag preserves the graph invariant |
| GraphEdits.MaxId | src/components/CanvasFlowchart.jsx:193 | `Math.max` of the ids: an id of some card, and at least every id |
| GraphEdits.FreshId | src/components/CanvasFlowchart.jsx:193 | the new id is strictly greater than every existing id, so it is unused |
| GraphEdits.AddCardAppendsFresh | src/components/CanvasFlowchart.jsx:193-205 | the list grows by one; the new card comes last; its id exceeds every old id; it has the chosen kind, position (x-150, y+20), an empty `next` and no branches |
| GraphEdits.AddCardWiresSource | src/components/CanvasFlowchart.jsx:208-228 | cards other than the source are unchanged; the source gets the new id appended to `next` (an absent list counts as empty) or has `yes`/`no` overwritten, and nothing else changes; an unknown source leaves every old card unchanged |
| GraphEdits.WireReferences | src/components/CanvasFlowchart.jsx:208-228 | wiring adds exactly one new reference, to the new id |
| GraphEdits.AddCardIntegrity | src/components/Flowchart.jsx:148-189 | if every reference resolves before an add, every reference resolves afterwards |
| GraphEdits.AddCardWellformed | src/components/CanvasFlowchart.jsx:191-235 | an add preserves the graph invariant (integrity, unique positive ids, no double references) |
| GraphEdits.AddCardIds | src/components/CanvasFlowchart.jsx:193-205 | an add keeps ids unique and positive |
| GraphEdits.AddCardByRelationKind | src/components/Flowchart.tsx:109-130 | the typed handler makes an `action` card ("New action card") under `next` and an `email` card ("New email card") under `yes`/`no`, never a trigger or condition; the id is the maximum plus one |
| GraphEdits.Without | src/components/CanvasFlowchart.jsx:254 | the filtered `next` list holds exactly the other ids, with every occurrence of the removed id gone and all other counts kept |
| GraphEdits.WithoutAppend | src/components/CanvasFlowchart.jsx:254 | filtering a concatenation filters each part, so the kept ids keep their order |
| GraphEdits.WithoutSingle | src/components/CanvasFlowchart.jsx:254 | a single id is kept exactly when it is not the removed one |
| GraphEdits.WithoutAbsent | src/components/CanvasFlowchart.jsx:254 | filtering an id the list does not hold returns the list unchanged |
| GraphEdits.Survivors | src/components/CanvasFlowchart.jsx:248 | the kept cards are exactly those with another id |
| GraphEdits.SurvivorsAppend | src/components/CanvasFlowchart.jsx:248 | filtering a concatenation of card lists filters each part, so survivors keep their order |
| GraphEdits.SurvivorsSingle | src/components/CanvasFlowchart.jsx:248 | a single card survives exactly when its id is not the removed one |
| GraphEdits.SurvivorsAll | src/components/CanvasFlowchart.jsx:248 | when no card has the removed id, every card survives, in place |
| GraphEdits.RemoveCardCount | src/components/CanvasFlowchart.jsx:247-266 | with unique ids, removing a present id leaves exactly one card fewer |
| GraphEdits.StripReferenceEffect | src/components/CanvasFlowchart.jsx:249-266 | stripping keeps identity and every other reference; the removed id survives only when the card named it through two fields (the `else if` clears one) |
| GraphEdits.StripReferenceNext | src/components/CanvasFlowchart.jsx:250-255 | a survivor's `next` is the old list filtered: the removed id's occurrences are gone and the other ids keep their order and counts |
| GraphEdits.RemoveCardShape | src/components/CanvasFlowchart.jsx:247-266 | the result has one card per survivor, each the stripped survivor at the same position; no card with the removed id remains; each `next` is the survivor's list filtered |
| GraphEdits.SurvivorsUnique | src/components/CanvasFlowchart.jsx:248 | filtering keeps ids unique |
| GraphEdits.RemoveCardAbsent | src/components/Flowchart.jsx:202-221 | removing an id that no card has and no card names changes nothing |
| GraphEdits.RemoveCardIntegrity | src/components/Flowchart.jsx:202-221 | on a graph with integrity, removal leaves every remaining reference resolving when no surviving card names the removed id through two fields |
| GraphEdits.RemoveCardBreaksIntegrity | src/components/CanvasFlowchart.jsx:249-266 | the converse: a surviving card that names the removed id through two fields keeps a reference to a card that is gone |
| GraphEdits.RemoveCardKeeps | src/components/CanvasFlowchart.jsx:247-248 | every other id is still present after removal |
| GraphEdits.WithoutDistinct | src/components/CanvasFlowchart.jsx:254 | filtering a list without repeats gives a list without repeats |
| GraphEdits.StripReferenceNoDouble | src/components/CanvasFlowchart.jsx:249-266 | stripping keeps a card free of double references |
| GraphEdits.RemoveCardCards | src/components/CanvasFlowchart.jsx:247-266 | every card after removal keeps its survivor's id, positive, and has no double references |
| GraphEdits.RemoveCardWellformed | src/components/CanvasFlowchart.jsx:238-273 | a removal preserves the graph invariant |
| GraphEdits.RemoveCardLeavesSecondBranch | src/components/CanvasFlowchart.jsx:250-264 | a condition whose `yes` and `no` both name the removed card keeps its `no`, and the result has lost integrity |
| CanvasPaths.DrawConnections | src/components/CanvasFlowchart.jsx:121-158 | the drawing loop traces one path per record, in order, each `CanvasPath` of its record |
| CanvasPaths.CanvasPathGeometry | src/components/CanvasFlowchart.jsx:136-154 | a link's path has four axis-aligned vertices: from, (from.x, midY), (to.x, midY), to, with equal vertical halves; a stub's path is from, to |
| CanvasPaths.StubPathSlant | src/components/CanvasFlowchart.jsx:151-154 | a derived stub's path drops 60 and shifts 0, -50 or +50; it is axis-aligned exactly for `next` |
| CanvasPaths.DerivedPathJoinsCards | src/components/CanvasFlowchart.jsx:139-150 | every derived link's path runs from its source card's anchor to its target card's top centre, turning at half the height difference |
| CanvasPaths.OverlayContents | src/components/CanvasFlowchart.jsx:322-353 | a stub gets only its add button; a link gets its two dots; a marker appears exactly on `yes`/`no` links and carries that branch |
| Segments.RenderConnections | src/components/Flowchart.jsx:231-333 | the element loop yields exactly `Render(conns)` |
| Segments.PushStub | src/components/Flowchart.jsx:236-258 | a stub pushes its vertical box and its add button |
| Segments.PushLink | src/components/Flowchart.jsx:264-329 | a link pushes down, across if needed, up, two dots, then its marker |
| Segments.LinkBoxesMeet | src/components/Flowchart.jsx:264-300 | the down box starts at the source anchor; the up box sits in the target column; both are |dy|/2 high and the up box starts where the down box ends |
| Segments.AcrossWhenColumnsDiffer | src/components/Flowchart.jsx:276-288 | a horizontal box exists exactly when the columns differ; it lies at the down box's foot and spans from the left column to the right one |
| Segments.UpReachesTargetIffBelow | src/components/Flowchart.jsx:290-300 | the up box ends at the target exactly when the target is not above the source; then the boxes trace the canvas path |
| Segments.MarkerPlacement | src/components/Flowchart.jsx:310-329 | a marker exists exactly for `yes`/`no` links, at (from.x-30, from.y+\|dy\|/4), halfway down the down box |
| Segments.StubElements | src/components/Flowchart.jsx:236-258 | a stub renders one vertical box at from, \|dy\| high, plus the add button at its end |
| Segments.DerivedStubBox | src/components/Flowchart.jsx:236-247 | a derived stub's box is 60 high, and it ends at its button exactly for `next` |
| Segments.OverlayIsRenderWithoutLines | src/components/CanvasFlowchart.jsx:322-353 | the canvas overlay is the DOM render with its line boxes removed |
| Segments.OverlayOfIsNonLines | src/components/CanvasFlowchart.jsx:322-353 | the same, for one record |
| CardGesture.NoJump | src/components/FlowchartCard.jsx:60-82 | at the press point the reported position is the card box minus the container origin |
| CardGesture.FollowsPointer | src/components/FlowchartCard.jsx:77-87 | a pointer displacement (dx, dy) moves the reported position by exactly (dx, dy) |
| CardGesture.FlowchartCard.constructor | src/components/FlowchartCard.jsx:15-18 | a card starts idle with offset (0, 0) |
| CardGesture.FlowchartCard.ClickRemove | src/components/FlowchartCard.jsx:50-55 | the remove control exists only with `onRemove` on a non-trigger card, and clicking it calls `onRemove(card.id)` |
| CardGesture.FlowchartCard.MouseDown | src/components/FlowchartCard.jsx:57-75 | on a trigger nothing changes and nothing is called; otherwise the offset is captured, dragging starts and `onDragStart(id)` is called |
| CardGesture.FlowchartCard.MouseMove | src/components/FlowchartCard.jsx:77-87 | while not dragging nothing is called; while dragging, `onDrag(id, pointer - container - offset)`; the offset is not touched |
| CardGesture.FlowchartCard.MouseUp | src/components/FlowchartCard.jsx:89-99 | dragging stops, the offset is kept, and `onDragEnd(id)` is called |
| CardGesture.DragGesture | src/components/FlowchartCard.jsx:57-99 | a whole gesture on a trigger calls nothing; on another card it calls start, one drag per move at box - container + pointer displacement, then end |
| FlowchartData.InitialIds | src/data/flowchartData.ts:5-70 | nine cards with ids exactly 1..9 in order, unique and positive |
| FlowchartData.InitialTrigger | src/data/flowchartData.ts:6-12 | exactly one card is a trigger, and it is card 1 |
| FlowchartData.InitialShape | src/data/flowchartData.ts:13-75 | cards 2 and 3 are conditions with both branches and no `next`; every other card has `next` and no branches; the stored connection list is empty |
| FlowchartData.InitialWellformed | src/data/flowchartData.ts:5-70 | every reference names an existing card; the graph invariant holds |
| FlowchartData.InitialDerivation | src/data/flowchartData.ts:5-70 | derivation yields eleven records, written out with coordinates: eight links, then the `next` stubs of cards 7, 8 and 9 |
| EditAndDerive.AddedCardRecords | src/components/CanvasFlowchart.jsx:196-205 | a new card contributes its `next` stub, plus `yes`/`no` stubs when the selector chose a condition |
| EditAndDerive.AddedByRelationRecords | src/components/Flowchart.tsx:114-130 | a card added by the typed handler contributes exactly one record: its `next` stub, ending 140 below the anchor |
| EditAndDerive.DragKeepsLinks | src/components/Flowchart.jsx:121-138 | after a drag the derived records have the same sources, targets, relations and stub flags, in the same order |
| EditAndDerive.DragCardLinks | src/components/Flowchart.jsx:121-138 | the same, card by card |
| EditAndDerive.ButtonsSitOnStubs | src/components/Flowchart.jsx:249-257 | every rendered add button belongs to an open relation of a listed card and sits at that relation's stub tip |
| EditAndDerive.WireCloses | src/components/CanvasFlowchart.jsx:208-228 | after wiring a positive id the relation names it and is no longer open |
| EditAndDerive.AddAtStub | src/components/CanvasFlowchart.jsx:191-235 | adding through a stub's button closes the stub and derives a link from that card to the new card, whose top centre is 20 below the button |
| EditAndDerive.StripUndoesWire | src/components/CanvasFlowchart.jsx:249-266 | stripping a fresh id from a field it was wired into gives the card back |
| EditAndDerive.RemoveUndoesAdd | src/components/CanvasFlowchart.jsx:191-273 | removing the card an add created restores the old list, when the source's relation was unset |
| EditAndDerive.RemoveUndoesWires | src/components/CanvasFlowchart.jsx:191-273 | the same for any list with the add's shape: the old cards with the source wired to a fresh id, then a card with that id |
| EditAndDerive.StartDerivation | src/components/CanvasFlowchart.jsx:24-107 | a trigger leading to a condition without branches derives one link and the condition's two stubs |
| EditAndDerive.AddUnderYesGraph | src/components/CanvasFlowchart.jsx:191-235 | adding an email under that condition's `yes` appends card 3 at (anchor.x-150, anchor.y+20) and sets `yes` to 3 |
| EditAndDerive.YesBranchRecords | src/components/CanvasFlowchart.jsx:24-107 | such a graph derives link, `yes` link, `no` stub, then the new card's stub |
| EditAndDerive.AddUnderYesDerivation | src/components/CanvasFlowchart.jsx:24-107 | after that add the `yes` stub is replaced by a link to card 3 and the `no` stub remains |
| EditAndDerive.RemoveAgain | src/components/CanvasFlowchart.jsx:238-273 | removing card 3 again gives back the starting graph |

## Left out

- React machinery is left out: state hooks, effect scheduling, `setFlowchartData` batching, the `onDataChange` notification and the `connections` state. The handlers are functions from the old card list to the new one, and derivation is a function of the card list.
- The canvas context calls (`getContext`, `clearRect`, `stroke`, styling), the canvas size state and the window-resize listener are left out. Only the vertex list of each path is modelled.
- The React `key`/`id` strings of records and elements are left out. They are a function of source, relation and target, and nothing reads them.
- The styling of cards, dots, lines, buttons and markers is left out, along with the card-type selector popover. The selector is modelled as a `kind` parameter that may be any of the four kinds, trigger included.
- Event-listener registration is left out. `DragGesture` assumes that the document listeners see the updated `isDragging` after the press, which sidesteps the stale-closure question. `getBoundingClientRect` results are plain inputs.
- `draggingCardId` and the z-index it drives are presentation only and are left out.
- The unused `referencingNodes` filter in the remove handler is left out.
- `MaxId`: `Math.max` over an empty card list (which gives -Infinity) is excluded by requiring a non-empty list.
- Coordinates are integers and arithmetic is exact. Halves and quarters are `real`. JavaScript floating point is not modelled.
- The handlers reject nothing. No check rejects an unknown source, `yes`/`no` on a non-condition card, or overwriting a set branch, so a branch add overwrites silently. Removal does not protect the trigger and does not reject an unknown id. An add under an unknown source appends a card that nothing names. Trigger protection lives only in the card's UI: there is no remove control and no drag.
- `CardGesture.FlowchartCard.MouseUp` keeps the captured offset. The code writes the offset only on press, so the stale value is never read.
- `GraphEdits.RemoveCardIntegrity`: integrity after a removal is not promised in general. The `else if` chain clears one field per card, so a surviving card that names the removed id through two fields keeps a dangling reference. `RemoveCardBreaksIntegrity` proves this in general, and `RemoveCardLeavesSecondBranch` shows one such graph.
- `CanvasPaths.DrawConnections` models drawing once the canvas exists. The early return when the canvas element is not mounted yet (`CanvasFlowchart.jsx:123`) draws nothing and is left out.
- The stored `connections` list of the graph payload is typed with the derived record type, not the stored `Connection` type with its `points`. Nothing reads the list, and the sample graph's list is empty.
- `EditAndDerive.RemoveUndoesAdd` requires the relation to have been unset. An absent `next` comes back as an empty list, and an overwritten branch comes back absent.
