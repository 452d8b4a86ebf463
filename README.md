# Overlay editing in the meme editor, modelled in Dafny

The meme editor's canvas holds an ordered list of overlays, text or image
layers drawn over a template. The list order is also the drawing order. The
canvas also holds one selection slot and the background's pinch and pan
transform. Each overlay has an item controller: it runs the drag, the inline
text edit and the duplicate and delete buttons. A style editor restyles the
selected overlay. The item and the style editor never change the list
themselves. They send `onUpdate(id, updates, action?)` messages and the canvas
applies them.

The model has four modules, one per source file:

- `OverlayModel` (overlay_model.dfy) holds the shared vocabulary. It has the
  tagged union `Overlay` (`TextOverlay` | `ImageOverlay`) and the partial
  record `Update`, whose `None` fields are absent keys. It has the `Message`
  that carries one `onUpdate` call, the style constants, JavaScript's numeric
  `||` (`Or`: the fallback wins when the value is absent or 0) and the object
  spread `{ ...o, ...u }` (`Merge`).
- `OverlayItem` (overlay_item.dfy) holds the messages an item sends and the
  class `ItemController`. The class keeps the props `overlay` and
  `isSelected` and the local `isEditing`, `translateX` and `translateY`. Its
  handlers return the message they would send.
- `StyleModal` (style_modal.dfy) holds JavaScript's `Math.round` (as
  `Floor(v + 1/2)`), the draft seeds and the class `StyleEditor`, which keeps
  the font-size and opacity drafts. Its handlers return `None` when their
  control is not on screen.
- `MemeCanvas` (meme_canvas.dfy) holds the list edits as functions on
  sequences. `Dispatch` specifies `updateOverlay`. The class `Canvas` holds
  the overlay list, the selection slot, `scale`/`savedScale` and
  `translation`/`savedTranslation`. The module also has lemmas that feed the
  item's and the style editor's messages to `Dispatch`.

Coordinates, scales and slider values are exact `real`s. The id that
`Date.now()` would give is a parameter `now`. The image picker's result is a
parameter `PickerOutcome`: it either threw, or resolved with optional assets.
Each gesture callback or tap is one method call on the current state.

Where a description of the system and the code differ, the model follows the
code:

- A drag has no clamp. The item's position is the committed position plus
  the gesture delta divided by the background scale, with no bounds.
- Images have no resize gesture and no 150×150 default size.
- The drag's start handler is empty. The item's live translation is seeded
  only when the item mounts, and `ReceiveProps` leaves it alone.
- A press on an already selected item turns `isEditing` on for an image
  overlay too. Only a text overlay then shows a text field
  (`ShowsTextInput`).
- Delete clears the selection whatever it held.
- A duplicate of a missing id is not a no-op by a separate branch. It falls
  through to the merge, and the merge of an id no overlay has changes
  nothing.

## Model

| member | source | states |
|---|---|---|
| `OverlayModel.Merge` | components/MemeCanvas/index.tsx:59 | The spread merge keeps the id and the variant. A present key of the update overwrites the field. An absent key leaves the field as it was. |
| `OverlayModel.MergeNoChange` | components/MemeCanvas/index.tsx:58-60 | Merging `{}` leaves an overlay unchanged. |
| `OverlayModel.MergeIdempotent` | components/MemeCanvas/index.tsx:58-60 | Merging the same update twice gives the same overlay as merging it once. |
| `OverlayModel.MergeLaterWins` | components/MemeCanvas/index.tsx:58-60 | A later update that sets at least the keys of an earlier one hides the earlier one entirely. For example, the last drag end decides the position. |
| `OverlayItem.ItemController.constructor` | components/OverlayItem/index.tsx:38-41 | An item mounts not editing, with its live translation equal to the committed `x`, `y`. |
| `OverlayItem.ItemController.PanUpdate` | components/OverlayItem/index.tsx:43-50 | While the item is selected, a drag update sets the live translation to the committed position plus delta / scale. It starts from the committed position, not the previous translation. While the item is not selected the gesture is disabled and nothing changes. Needs a non-zero scale. |
| `OverlayItem.ItemController.PanEnd` | components/OverlayItem/index.tsx:51-56 | A drag end sends exactly `{x: translateX, y: translateY}` for the item's id, with no action. A disabled gesture sends nothing. |
| `OverlayItem.ItemController.Press` | components/OverlayItem/index.tsx:82-87 | A press always reports the item's own id for selection. Afterwards edit mode is on exactly when the item was already selected at the press. The invariant that editing implies selected is kept. |
| `OverlayItem.ItemController.Blur` | components/OverlayItem/index.tsx:97 | Leaving the text field turns edit mode off. It does not touch the content or the translation. |
| `OverlayItem.ItemController.ReceiveProps` | components/OverlayItem/index.tsx:68-72 | A re-render that deselects the item forces edit mode off. Otherwise edit mode is kept. The live translation is not reseeded. |
| `OverlayItem.ItemController.ChangeText` | components/OverlayItem/index.tsx:74-76 | While the text field is shown, each keystroke sends the new text verbatim as `{content}`, with no action and no local buffer. |
| `OverlayItem.ItemController.PressDuplicate` | components/OverlayItem/index.tsx:124-133 | The duplicate button exists only while the item is selected. It sends `{x: translateX+20, y: translateY+20}` with `'duplicate'`. |
| `OverlayItem.ItemController.PressDelete` | components/OverlayItem/index.tsx:140-142 | The delete button exists only while the item is selected. It sends `{}` with `'delete'`. |
| `StyleModal.Round` | components/StyleModal/index.tsx:68 | `Math.round(v)` is the integer r with r - 1/2 <= v < r + 1/2. |
| `StyleModal.RoundedFontSizeInRange` | components/StyleModal/index.tsx:62-68 | For a slider value in [10, 50], the rounded size is in [10, 50]. |
| `StyleModal.SeedFontSize` | components/StyleModal/index.tsx:15 | The font-size draft seed is never 0. It is the stored size of a text overlay when that size is truthy, and 20 otherwise (no overlay, an image overlay, or size absent or 0). |
| `StyleModal.SeedOpacity` | components/StyleModal/index.tsx:16 | The opacity draft seed is never 0. It is the stored opacity of an image overlay when that opacity is truthy, and 1 otherwise. |
| `StyleModal.ZeroOpacitySeedsAsOne` | components/StyleModal/index.tsx:16 | An image stored with opacity 0 seeds the opacity draft as 1. |
| `StyleModal.StyleEditor.constructor` | components/StyleModal/index.tsx:15-16 | Mounting seeds the font-size and opacity drafts from the overlay of the first render. |
| `StyleModal.StyleEditor.ReceiveOverlay` | components/StyleModal/index.tsx:9-16 | As written: a later selection changes the overlay prop and leaves both drafts as they were. Drafts change only when a slider moves. |
| `StyleModal.StyleEditor.ReceiveOverlayReseeded` | components/StyleModal/index.tsx:15-16 | Corrected: a later selection reseeds both drafts from the newly selected overlay. |
| `StyleModal.StaleDraftAfterSelection` | components/StyleModal/index.tsx:15-16 | Concrete case: the editor is mounted with no selection and the slider is moved to 40 for one text overlay. As written, a second text overlay with no stored size then shows a draft of 40. The corrected editor shows that overlay's seed, 20. |
| `StyleModal.StyleEditor.TapColor` | components/StyleModal/index.tsx:22-24 | A colour tap, offered only for a text overlay, sends `{textColor: c}` for the selected id with no action. `c` is the tapped one of the five palette constants. With no overlay nothing is sent. |
| `StyleModal.StyleEditor.TapFontStyle` | components/StyleModal/index.tsx:26-28 | A normal, italic or bold tap, offered only for a text overlay, sends `{fontStyle: s}` with no action. With no overlay nothing is sent. |
| `StyleModal.StyleEditor.SlideFontSize` | components/StyleModal/index.tsx:62-67 | Moving the font-size slider changes only the font-size draft. |
| `StyleModal.StyleEditor.ReleaseFontSize` | components/StyleModal/index.tsx:68 | Releasing the font-size slider sends `{fontSize: round(v)}` with no action. For v in [10, 50] that size is an integer in [10, 50]. It is offered only for a text overlay. |
| `StyleModal.StyleEditor.SlideOpacity` | components/StyleModal/index.tsx:105-111 | Moving the opacity slider changes only the opacity draft. |
| `StyleModal.StyleEditor.ReleaseOpacity` | components/StyleModal/index.tsx:112 | Releasing the opacity slider sends the unrounded `{opacity: v}` with no action. It is offered only for an image overlay. |
| `MemeCanvas.PickedUri` | components/MemeCanvas/index.tsx:113-118 | A picked URI exists only when the picker resolved with a first asset whose URI is present. That URI is then non-empty. A thrown picker call, a cancel or an empty URI gives none. |
| `MemeCanvas.Filter` | components/MemeCanvas/index.tsx:40 | A filter keeps exactly the elements that pass the test and never grows the list. |
| `MemeCanvas.FilterConcat` | components/MemeCanvas/index.tsx:107 | Filtering distributes over concatenation, so the survivors keep their relative order. |
| `MemeCanvas.FilterKeepsAll` | components/MemeCanvas/index.tsx:40 | A filter that every element passes returns its input unchanged. |
| `MemeCanvas.FilterIdempotent` | components/MemeCanvas/index.tsx:106-109 | Filtering twice is filtering once, so a second background press removes nothing more. |
| `MemeCanvas.WithoutId` | components/MemeCanvas/index.tsx:40 | The delete filter keeps exactly the overlays whose id differs. |
| `MemeCanvas.WithoutIdKeepsOrder` | components/MemeCanvas/index.tsx:40 | The delete filter of a concatenation is the concatenation of the filtered parts, so survivors keep their order and their repeats. |
| `MemeCanvas.Purged` | components/MemeCanvas/index.tsx:107 | The background filter keeps exactly the overlays with non-empty content, text and image alike. |
| `MemeCanvas.PurgedKeepsOrder` | components/MemeCanvas/index.tsx:107 | Purging a concatenation is purging each part and concatenating, so survivors keep their order and their repeats. |
| `MemeCanvas.PurgedKeepsNonEmpty` | components/MemeCanvas/index.tsx:107 | When no overlay has empty content, a background press keeps the whole list. |
| `MemeCanvas.FirstIndex` | components/MemeCanvas/index.tsx:45 | `find` stops at the first overlay with the id, or runs past the end when none has it. |
| `MemeCanvas.Find` | components/MemeCanvas/index.tsx:154 | The lookup finds nothing exactly when no overlay has the id. Otherwise it gives the first overlay in list order with that id: no earlier overlay has it. |
| `MemeCanvas.MergeInto` | components/MemeCanvas/index.tsx:58-60 | The map keeps the length. Each overlay with the id becomes its merge with the update, and every other overlay is kept. |
| `MemeCanvas.DuplicateOf` | components/MemeCanvas/index.tsx:47-52 | The copy has the new id and the source's variant. Its `x` is `updates.x` if truthy, else `source.x + 20`, and likewise `y`. Resetting those three fields gives back the source. |
| `MemeCanvas.Dispatch` | components/MemeCanvas/index.tsx:38-61 | `updateOverlay` grows the list by one exactly when it duplicates an id that is present, and never by more. Only delete can shrink it. Every overlay afterwards has an id that was already live or the fresh id. The selection afterwards is cleared, kept, or the new copy with the fresh id. |
| `MemeCanvas.DeleteRemovesEveryMatch` | components/MemeCanvas/index.tsx:39-43 | Delete removes every overlay with the id and keeps every other one. It ignores the update and clears the selection even if another overlay was selected. With no match the list is unchanged. For every split of the list into two parts, the result is the filtered first part followed by the filtered second part, so the survivors keep their order. |
| `MemeCanvas.DuplicateAppendsCopy` | components/MemeCanvas/index.tsx:44-55 | Duplicate of a present id appends one copy of the first match. The earlier overlays are untouched and the length grows by 1. The copy has the new id, truthy-or-plus-20 coordinates and every other field of the source, and it is selected. |
| `MemeCanvas.MergeRewritesOnlyMatches` | components/MemeCanvas/index.tsx:44-60 | With no action, or as a duplicate of a missing id, an update keeps length, order, ids and variants. It merges only into overlays with the id and does not refresh the selection snapshot. |
| `MemeCanvas.DuplicateOfMissingIsNoOp` | components/MemeCanvas/index.tsx:44-60 | A duplicate of an id no overlay has leaves the list and the selection unchanged. |
| `MemeCanvas.FilterKeepsIdsDistinct` | components/MemeCanvas/index.tsx:40 | Filtering a list with distinct ids keeps them distinct. |
| `MemeCanvas.AppendKeepsIdsDistinct` | components/MemeCanvas/index.tsx:34 | Appending an overlay whose id is not yet live keeps the ids distinct. |
| `MemeCanvas.DispatchKeepsIdsDistinct` | components/MemeCanvas/index.tsx:38-61 | If the ids are distinct and the fresh id is not live, every `updateOverlay` keeps the ids distinct. |
| `MemeCanvas.SameMillisecondCollides` | components/MemeCanvas/index.tsx:28 | Two text overlays created with the same timestamp id make the ids not distinct. Uniqueness is therefore not guaranteed. |
| `MemeCanvas.AtMostOneHighlighted` | components/MemeCanvas/index.tsx:153 | With distinct ids, the selection slot marks at most one listed overlay as selected. |
| `MemeCanvas.ItemDragEndCommits` | components/OverlayItem/index.tsx:51-56 | A drag-end message sets `x`, `y` of every overlay with the id to the live translation. It leaves every other overlay, the length and the selection unchanged. |
| `MemeCanvas.DragMovesByScaledDelta` | components/OverlayItem/index.tsx:47-56 | A drag by delta (dx, dy) at non-zero background scale s moves the committed position of that overlay by (dx/s, dy/s). |
| `MemeCanvas.ItemDuplicateLanding` | components/OverlayItem/index.tsx:124-133 | The duplicate button's copy lands at translation + 20 on each axis. On an axis where that sum is 0 it lands at the source's coordinate + 20 instead. The copy is appended and selected. |
| `MemeCanvas.ItemDeleteRemoves` | components/OverlayItem/index.tsx:140-142 | The delete button's message removes every overlay with the item's id and clears the selection. |
| `MemeCanvas.ItemTextChangeCommits` | components/OverlayItem/index.tsx:74-76 | A keystroke's message sets the content of every overlay with the id to the new text verbatim. The selection is unchanged. |
| `MemeCanvas.StyleMessageMerges` | components/StyleModal/types.ts:8 | A message with no action, which is every style-editor message, takes the merge path. It keeps the set of ids and the selection snapshot. |
| `MemeCanvas.FontSizeCommitInRange` | components/StyleModal/index.tsx:68 | After a font-size commit from the slider range, every text overlay with the id stores an integer size in [10, 50]. |
| `MemeCanvas.Canvas.constructor` | components/MemeCanvas/index.tsx:15-66 | The canvas starts with no overlays, no selection, scale 1 and translation (0, 0), both current and saved. |
| `MemeCanvas.Canvas.AddTextOverlay` | components/MemeCanvas/index.tsx:26-36 | Adding text appends exactly `{text, "Tap to edit", 20, 50}` with the given id after the earlier overlays, and selects it. |
| `MemeCanvas.Canvas.AddImageOverlay` | components/MemeCanvas/index.tsx:111-132 | Adding an image appends an image overlay at (20, 50) and selects it only when a non-empty URI was picked. Otherwise the list and the selection are unchanged. |
| `MemeCanvas.Canvas.UpdateOverlay` | components/MemeCanvas/index.tsx:38-61 | The new list and selection are `Dispatch` of the old ones and the message. |
| `MemeCanvas.Canvas.HandleBackgroundPress` | components/MemeCanvas/index.tsx:106-109 | A background press leaves the overlays with non-empty content and clears the selection. |
| `MemeCanvas.Canvas.Select` | components/MemeCanvas/index.tsx:154 | The selection slot becomes the first overlay with the id, or none. It replaces whatever the slot held. |
| `MemeCanvas.Canvas.PinchUpdate` | components/MemeCanvas/index.tsx:69-73 | With no selection, `scale` becomes `savedScale` × factor. With a selection nothing changes. No other state is touched. |
| `MemeCanvas.Canvas.PinchEnd` | components/MemeCanvas/index.tsx:74-78 | With no selection, `savedScale` becomes `scale`. With a selection nothing changes. |
| `MemeCanvas.Canvas.PanUpdate` | components/MemeCanvas/index.tsx:81-89 | With no selection, `translation` becomes `savedTranslation` + delta. With a selection nothing changes. |
| `MemeCanvas.Canvas.PanEnd` | components/MemeCanvas/index.tsx:90-94 | With no selection, `savedTranslation` becomes `translation`. With a selection nothing changes. |

## Left out

- Rendering: the animated transforms, the modal, the image and text views, the keyboard-avoiding layout and every style sheet. The fixed font size the item draws with means `textColor`, `fontSize` and `fontStyle` are stored but not drawn.
- The style editor's `visible` flag and `onClose`, and the canvas's Style button that opens the editor: these are visibility only. The editor's handlers are modelled as if it is shown.
- `canvasLayout` and its layout handler: the canvas measures it, but no modelled behaviour uses it.
- Update has no `id` or `type` keys: no caller sends them. A key the overlay's variant does not have (such as `opacity` on a text overlay) is dropped by `Merge`. The JavaScript spread would add it as a stray key that no code of the core reads. That can only happen when a text and an image overlay share an id.
- Ids: `Date.now()` is the parameter `now`, and the model does not claim it is fresh. `DispatchKeepsIdsDistinct` assumes it is; `SameMillisecondCollides` shows what happens when it is not.
- The image picker's own UI, its `await` and the `console.error` diagnostic: the call is the parameter `PickerOutcome`. A throw or a cancel leaves the state as it was.
- Gesture-framework semantics: worklet threads, `runOnJS`, shared-value threading, stale closures and the simultaneous composition of pinch and pan. Each callback is one sequential call on the current state.
- Floating point: IEEE rounding of the scale, of the division by it, of `Math.round` and of `toFixed`, and NaN truthiness. Values are exact reals, and the drag division requires a non-zero scale.
- The opacity slider's 0.01 step: the release value is taken as given.
- Navigation, the template list and the editor screen: routing glue with no logic.

## Findings

| source | as written | input that shows it | evidently intended | confidence | as-written member | corrected member |
|---|---|---|---|---|---|---|
| components/StyleModal/index.tsx:15-16 | The font-size and opacity drafts come from `useState` initialisers. These run only on the first render, and the canvas mounts the editor while the selection is still null (components/MemeCanvas/index.tsx:179-184), so the drafts start at 20 and 1 and afterwards change only when a slider moves. They never follow the selection. | Add two text overlays. Select the first and move the font-size slider to 40. Select the second, which has no stored size: its slider shows 40, not 20. Likewise, set one image to opacity 0.5 and then select a second image with no stored opacity: its slider shows 0.50, not 1.00. | The drafts start from the selected overlay's stored values whenever the selection changes. | not executed; high (standard `useState` semantics, read from the code) | `StyleModal.StyleEditor.ReceiveOverlay`, `StyleModal.StaleDraftAfterSelection` | `StyleModal.StyleEditor.ReceiveOverlayReseeded` |
