/**
 * The canvas controller: the ordered overlay list (its order is the
 * z-order), a single selection slot holding a snapshot of an overlay, and
 * the background pinch and pan gestures. The list edits are functions on
 * sequences; the `Canvas` class holds the state and its handlers.
 */
module MemeCanvas {
  import opened OverlayModel
  import OverlayItem
  import StyleModal

  const InitialX: real := 20.0
  const InitialY: real := 50.0
  const PlaceholderText: string := "Tap to edit"
  /** The shift a duplicate gets on an axis for which no truthy position was sent. */
  const DuplicateShift: real := 20.0

  datatype Point = Point(x: real, y: real)

  /** The two state slots `updateOverlay` writes. */
  datatype CanvasState = CanvasState(overlays: seq<Overlay>, selected: Option<Overlay>)

  // ---------------------------------------------------------------------------
  // Creation

  function NewTextOverlay(id: string): Overlay {
    TextOverlay(id, InitialX, InitialY, PlaceholderText, None, None, None)
  }

  function NewImageOverlay(id: string, uri: string): Overlay {
    ImageOverlay(id, InitialX, InitialY, uri, None, None, None)
  }

  datatype Asset = Asset(uri: Option<string>)

  /** What the image library call gives back: it throws, or resolves with optional assets. */
  datatype PickerOutcome = PickerThrew | PickerResolved(assets: Option<seq<Asset>>)

  /** `result.assets && result.assets[0]?.uri`, when truthy. */
  function PickedUri(p: PickerOutcome): (r: Option<string>)
    ensures r.Some? ==> |r.value| > 0
    ensures r.Some? ==> p.PickerResolved? && p.assets.Some? && |p.assets.value| > 0
                        && p.assets.value[0].uri == r
    ensures (p.PickerResolved? && p.assets.Some? && |p.assets.value| > 0
             && p.assets.value[0].uri.Some? && |p.assets.value[0].uri.value| > 0) ==> r.Some?
  {
    match p
    case PickerThrew => None
    case PickerResolved(assets) =>
      if assets.Some? && |assets.value| > 0 && assets.value[0].uri.Some? && |assets.value[0].uri.value| > 0
      then assets.value[0].uri
      else None
  }

  // ---------------------------------------------------------------------------
  // Filtering

  function Filter<T(!new)>(s: seq<T>, keep: T -> bool): (r: seq<T>)
    ensures |r| <= |s|
    ensures forall t :: t in r <==> t in s && keep(t)
  {
    if s == [] then [] else (if keep(s[0]) then [s[0]] else []) + Filter(s[1..], keep)
  }

  /** Filtering distributes over concatenation, so survivors keep their order. */
  lemma {:induction false} FilterConcat<T(!new)>(a: seq<T>, b: seq<T>, keep: T -> bool)
    ensures Filter(a + b, keep) == Filter(a, keep) + Filter(b, keep)
  {
    if a == [] {
      assert a + b == b;
    } else {
      assert (a + b)[0] == a[0];
      assert (a + b)[1..] == a[1..] + b;
      FilterConcat(a[1..], b, keep);
    }
  }

  /** A filter that drops nothing returns its input. */
  lemma {:induction false} FilterKeepsAll<T(!new)>(s: seq<T>, keep: T -> bool)
    requires forall i :: 0 <= i < |s| ==> keep(s[i])
    ensures Filter(s, keep) == s
  {
    if s != [] {
      FilterKeepsAll(s[1..], keep);
    }
  }

  /** Filtering twice by the same test is filtering once. */
  lemma {:induction false} FilterIdempotent<T(!new)>(s: seq<T>, keep: T -> bool)
    ensures Filter(Filter(s, keep), keep) == Filter(s, keep)
  {
    var r := Filter(s, keep);
    forall i | 0 <= i < |r| ensures keep(r[i]) {
      assert r[i] in r;
    }
    FilterKeepsAll(r, keep);
  }

  /** `overlays.filter(o => o.id !== id)` */
  function WithoutId(os: seq<Overlay>, id: string): (r: seq<Overlay>)
    ensures forall o :: o in r <==> o in os && o.id != id
  {
    Filter(os, (o: Overlay) => o.id != id)
  }

  /** `overlays.filter(o => o.content.length !== 0)`, for text and image overlays alike. */
  function Purged(os: seq<Overlay>): (r: seq<Overlay>)
    ensures forall o :: o in r <==> o in os && |o.content| != 0
  {
    Filter(os, (o: Overlay) => |o.content| != 0)
  }

  /** Delete keeps the survivors in their order, repeats included. */
  lemma WithoutIdKeepsOrder(a: seq<Overlay>, b: seq<Overlay>, id: string)
    ensures WithoutId(a + b, id) == WithoutId(a, id) + WithoutId(b, id)
  {
    FilterConcat(a, b, (o: Overlay) => o.id != id);
  }

  /** A background press keeps the survivors in their order, repeats included. */
  lemma PurgedKeepsOrder(a: seq<Overlay>, b: seq<Overlay>)
    ensures Purged(a + b) == Purged(a) + Purged(b)
  {
    FilterConcat(a, b, (o: Overlay) => |o.content| != 0);
  }

  /** A list with no empty content survives a background press whole. */
  lemma PurgedKeepsNonEmpty(os: seq<Overlay>)
    requires forall i :: 0 <= i < |os| ==> |os[i].content| != 0
    ensures Purged(os) == os
  {
    FilterKeepsAll(os, (o: Overlay) => |o.content| != 0);
  }

  // ---------------------------------------------------------------------------
  // Lookup and merge

  /** The index `find` stops at: the first overlay with `id`, or `|os|` when there is none. */
  function FirstIndex(os: seq<Overlay>, id: string): (k: nat)
    ensures k <= |os|
    ensures forall j :: 0 <= j < k ==> os[j].id != id
    ensures k < |os| ==> os[k].id == id
  {
    if os == [] then 0 else if os[0].id == id then 0 else 1 + FirstIndex(os[1..], id)
  }

  /** `overlays.find(o => o.id === id)` */
  function Find(os: seq<Overlay>, id: string): (r: Option<Overlay>)
    ensures r.None? <==> forall i :: 0 <= i < |os| ==> os[i].id != id
    ensures r.Some? ==> r.value in os && r.value.id == id
    ensures r.Some? ==> exists k :: 0 <= k < |os| && os[k] == r.value && forall j :: 0 <= j < k ==> os[j].id != id
  {
    var k := FirstIndex(os, id);
    if k < |os| then Some(os[k]) else None
  }

  /** `overlays.map(o => o.id === id ? { ...o, ...u } : o)` */
  function MergeInto(os: seq<Overlay>, id: string, u: Update): (r: seq<Overlay>)
    ensures |r| == |os|
    ensures forall i :: 0 <= i < |os| ==> r[i] == (if os[i].id == id then Merge(os[i], u) else os[i])
  {
    if os == [] then []
    else [if os[0].id == id then Merge(os[0], u) else os[0]] + MergeInto(os[1..], id, u)
  }

  /** The copy `{ ...src, id: now, x: u.x || src.x + 20, y: u.y || src.y + 20 }`. */
  function DuplicateOf(src: Overlay, now: string, u: Update): (c: Overlay)
    ensures c.id == now && c.TextOverlay? == src.TextOverlay?
    ensures c.x == (if Truthy(u.x) then u.x.value else src.x + DuplicateShift)
    ensures c.y == (if Truthy(u.y) then u.y.value else src.y + DuplicateShift)
    ensures c.(id := src.id, x := src.x, y := src.y) == src
  {
    src.(id := now, x := Or(u.x, src.x + DuplicateShift), y := Or(u.y, src.y + DuplicateShift))
  }

  /** `updateOverlay(id, updates, action)` on the list and the selection slot. */
  function Dispatch(s: CanvasState, m: Message, now: string): (r: CanvasState)
    ensures |r.overlays| == |s.overlays| + 1 <==>
              m.action == Some(Duplicate) && exists i :: 0 <= i < |s.overlays| && s.overlays[i].id == m.id
    ensures |r.overlays| <= |s.overlays| + 1
    ensures m.action != Some(Delete) ==> |s.overlays| <= |r.overlays|
    ensures forall o :: o in r.overlays ==> o.id in Ids(s.overlays) || o.id == now
    ensures r.selected.None? || r.selected == s.selected
            || (r.selected.value.id == now && r.selected.value in r.overlays)
  {
    if m.action == Some(Delete) then
      CanvasState(WithoutId(s.overlays, m.id), None)
    else if m.action == Some(Duplicate) && Find(s.overlays, m.id).Some? then
      var c := DuplicateOf(Find(s.overlays, m.id).value, now, m.updates);
      CanvasState(s.overlays + [c], Some(c))
    else
      CanvasState(MergeInto(s.overlays, m.id, m.updates), s.selected)
  }

  /** An item is drawn as selected when its id is the id of the selection snapshot. */
  predicate IsSelectedIn(sel: Option<Overlay>, o: Overlay) {
    sel.Some? && sel.value.id == o.id
  }

  // ---------------------------------------------------------------------------
  // Properties of updateOverlay

  /**
   * Delete drops every overlay with the id, keeps every other one, ignores
   * the partial record and clears the selection whatever it held.
   */
  lemma DeleteRemovesEveryMatch(s: CanvasState, id: string, u: Update, now: string)
    ensures var r := Dispatch(s, Message(id, u, Some(Delete)), now);
      && r.selected.None?
      && |r.overlays| <= |s.overlays|
      && (forall o :: o in r.overlays <==> o in s.overlays && o.id != id)
      && ((forall i :: 0 <= i < |s.overlays| ==> s.overlays[i].id != id) ==> r.overlays == s.overlays)
      && (forall a, b :: s.overlays == a + b ==> r.overlays == WithoutId(a, id) + WithoutId(b, id))
  {
    forall a, b | s.overlays == a + b
      ensures WithoutId(s.overlays, id) == WithoutId(a, id) + WithoutId(b, id)
    {
      WithoutIdKeepsOrder(a, b, id);
    }
    if forall i :: 0 <= i < |s.overlays| ==> s.overlays[i].id != id {
      FilterKeepsAll(s.overlays, (o: Overlay) => o.id != id);
    }
  }

  /**
   * Duplicate of a present id appends one copy of the first match: a new id,
   * a truthy sent coordinate or else the source's plus 20, every other field
   * the source's. The earlier overlays are untouched and the copy is selected.
   */
  lemma DuplicateAppendsCopy(s: CanvasState, id: string, u: Update, now: string)
    requires exists i :: 0 <= i < |s.overlays| && s.overlays[i].id == id
    ensures var r := Dispatch(s, Message(id, u, Some(Duplicate)), now);
      var k := FirstIndex(s.overlays, id);
      && k < |s.overlays|
      && (forall j :: 0 <= j < k ==> s.overlays[j].id != id)
      && |r.overlays| == |s.overlays| + 1
      && r.overlays[..|s.overlays|] == s.overlays
      && r.selected == Some(r.overlays[|s.overlays|])
      && var c, src := r.overlays[|s.overlays|], s.overlays[k];
         && c.id == now
         && c.x == (if Truthy(u.x) then u.x.value else src.x + DuplicateShift)
         && c.y == (if Truthy(u.y) then u.y.value else src.y + DuplicateShift)
         && c.(id := src.id, x := src.x, y := src.y) == src
  {
  }

  /**
   * The merge path, taken with no action and by a duplicate of a missing id,
   * keeps length, order, ids and variants, rewrites only the overlays with
   * the id, and leaves the selection snapshot as it was.
   */
  lemma MergeRewritesOnlyMatches(s: CanvasState, id: string, u: Update, action: Option<Action>, now: string)
    requires action.None? || (action == Some(Duplicate) && forall i :: 0 <= i < |s.overlays| ==> s.overlays[i].id != id)
    ensures var r := Dispatch(s, Message(id, u, action), now);
      && r.selected == s.selected
      && |r.overlays| == |s.overlays|
      && (forall i :: 0 <= i < |s.overlays| ==>
            r.overlays[i].id == s.overlays[i].id && r.overlays[i].TextOverlay? == s.overlays[i].TextOverlay?)
      && (forall i :: 0 <= i < |s.overlays| && s.overlays[i].id != id ==> r.overlays[i] == s.overlays[i])
      && (forall i :: 0 <= i < |s.overlays| && s.overlays[i].id == id ==> r.overlays[i] == Merge(s.overlays[i], u))
  {
  }

  /** A duplicate of an id that no overlay has changes nothing at all. */
  lemma DuplicateOfMissingIsNoOp(s: CanvasState, id: string, u: Update, now: string)
    requires forall i :: 0 <= i < |s.overlays| ==> s.overlays[i].id != id
    ensures Dispatch(s, Message(id, u, Some(Duplicate)), now) == s
  {
  }

  // ---------------------------------------------------------------------------
  // Ids

  /** No two overlays share an id. Nothing in the canvas enforces it. */
  predicate IdsDistinct(os: seq<Overlay>) {
    forall i, j :: 0 <= i < j < |os| ==> os[i].id != os[j].id
  }

  function Ids(os: seq<Overlay>): set<string> {
    set o | o in os :: o.id
  }

  lemma {:induction false} FilterKeepsIdsDistinct(os: seq<Overlay>, keep: Overlay -> bool)
    requires IdsDistinct(os)
    ensures IdsDistinct(Filter(os, keep))
  {
    if os != [] {
      var rest := Filter(os[1..], keep);
      FilterKeepsIdsDistinct(os[1..], keep);
      forall o | o in rest ensures o.id != os[0].id {
        assert o in os[1..];
        var j :| 0 <= j < |os[1..]| && os[1..][j] == o;
        assert os[j + 1] == o;
      }
    }
  }

  /**
   * Given distinct ids and a fresh id that no live overlay has, every
   * `updateOverlay` keeps the ids distinct; creation does too.
   */
  lemma DispatchKeepsIdsDistinct(s: CanvasState, m: Message, now: string)
    requires IdsDistinct(s.overlays) && now !in Ids(s.overlays)
    ensures IdsDistinct(Dispatch(s, m, now).overlays)
  {
    var os := s.overlays;
    if m.action == Some(Delete) {
      FilterKeepsIdsDistinct(os, (o: Overlay) => o.id != m.id);
    } else if m.action == Some(Duplicate) && Find(os, m.id).Some? {
      AppendKeepsIdsDistinct(os, DuplicateOf(Find(os, m.id).value, now, m.updates));
    }
  }

  lemma AppendKeepsIdsDistinct(os: seq<Overlay>, o: Overlay)
    requires IdsDistinct(os) && o.id !in Ids(os)
    ensures IdsDistinct(os + [o])
  {
  }

  /** Two creations in the same millisecond collide: the ids are not distinct. */
  lemma SameMillisecondCollides(os: seq<Overlay>, now: string)
    ensures !IdsDistinct(os + [NewTextOverlay(now)] + [NewTextOverlay(now)])
  {
    var t := os + [NewTextOverlay(now)] + [NewTextOverlay(now)];
    assert t[|os|].id == t[|os| + 1].id;
  }

  /** With distinct ids the selection snapshot highlights at most one item. */
  lemma AtMostOneHighlighted(os: seq<Overlay>, sel: Option<Overlay>, i: nat, j: nat)
    requires IdsDistinct(os) && i < |os| && j < |os|
    requires IsSelectedIn(sel, os[i]) && IsSelectedIn(sel, os[j])
    ensures i == j
  {
  }

  // ---------------------------------------------------------------------------
  // Messages from the item and the style editor, fed to updateOverlay

  /** A drag end commits the live translation to every overlay with the id, and to no other. */
  lemma ItemDragEndCommits(s: CanvasState, id: string, tx: real, ty: real, now: string)
    ensures var r := Dispatch(s, OverlayItem.DragEndRequest(id, tx, ty), now);
      && r.selected == s.selected
      && |r.overlays| == |s.overlays|
      && (forall i :: 0 <= i < |s.overlays| && s.overlays[i].id == id ==>
            r.overlays[i] == s.overlays[i].(x := tx, y := ty))
      && (forall i :: 0 <= i < |s.overlays| && s.overlays[i].id != id ==> r.overlays[i] == s.overlays[i])
  {
  }

  /**
   * Dragging overlay `k` by a gesture delta at a non-zero background scale
   * commits the committed position plus the delta divided by that scale.
   */
  lemma DragMovesByScaledDelta(s: CanvasState, k: nat, dx: real, dy: real, scale: real, now: string)
    requires k < |s.overlays| && scale != 0.0
    ensures var o := s.overlays[k];
      var r := Dispatch(s, OverlayItem.DragEndRequest(o.id, o.x + dx / scale, o.y + dy / scale), now);
      r.overlays[k] == o.(x := o.x + dx / scale, y := o.y + dy / scale)
  {
  }

  /**
   * The item's duplicate button lands the copy at the live translation + 20,
   * except on an axis where that sum is 0: there it lands at the source's
   * committed coordinate + 20.
   */
  lemma ItemDuplicateLanding(s: CanvasState, id: string, tx: real, ty: real, now: string)
    requires exists i :: 0 <= i < |s.overlays| && s.overlays[i].id == id
    ensures var r := Dispatch(s, OverlayItem.DuplicateRequest(id, tx, ty), now);
      var src := s.overlays[FirstIndex(s.overlays, id)];
      && |r.overlays| == |s.overlays| + 1
      && var c := r.overlays[|s.overlays|];
         && c.x == (if tx + 20.0 != 0.0 then tx + 20.0 else src.x + 20.0)
         && c.y == (if ty + 20.0 != 0.0 then ty + 20.0 else src.y + 20.0)
         && r.selected == Some(c)
  {
  }

  /** The item's delete button removes every overlay with its id and clears the selection. */
  lemma ItemDeleteRemoves(s: CanvasState, id: string, now: string)
    ensures var r := Dispatch(s, OverlayItem.DeleteRequest(id), now);
      r.selected.None? && forall o :: o in r.overlays <==> o in s.overlays && o.id != id
  {
  }

  /** A keystroke sets the content of every overlay with the id to the new text verbatim. */
  lemma ItemTextChangeCommits(s: CanvasState, id: string, text: string, now: string)
    ensures var r := Dispatch(s, OverlayItem.TextChangeRequest(id, text), now);
      && r.selected == s.selected
      && |r.overlays| == |s.overlays|
      && forall i :: 0 <= i < |s.overlays| && s.overlays[i].id == id ==>
           r.overlays[i] == s.overlays[i].(content := text)
  {
  }

  /**
   * Every style-editor message has no action, so it takes the merge path:
   * same length, ids and selection; only overlays with the id change.
   */
  lemma StyleMessageMerges(s: CanvasState, m: Message, now: string)
    requires m.action.None?
    ensures var r := Dispatch(s, m, now);
      && r.selected == s.selected
      && r.overlays == MergeInto(s.overlays, m.id, m.updates)
      && Ids(r.overlays) == Ids(s.overlays)
  {
  }

  /** A font-size commit from the slider range stores an integer size in range on the text overlay. */
  lemma FontSizeCommitInRange(s: CanvasState, id: string, v: real, now: string)
    requires FontSizeMin <= v <= FontSizeMax
    ensures var r := Dispatch(s, Message(id, NoChange.(fontSize := Some(StyleModal.Round(v) as real)), None), now);
      forall i :: 0 <= i < |r.overlays| && r.overlays[i].id == id && r.overlays[i].TextOverlay? ==>
        var f := r.overlays[i].fontSize.value;
        r.overlays[i].fontSize.Some? && FontSizeMin <= f <= FontSizeMax && f == f.Floor as real
  {
    var u := NoChange.(fontSize := Some(StyleModal.Round(v) as real));
    StyleModal.RoundedFontSizeInRange(v);
    assert Dispatch(s, Message(id, u, None), now).overlays == MergeInto(s.overlays, id, u);
  }

  // ---------------------------------------------------------------------------
  // The controller

  class Canvas {
    var overlays: seq<Overlay>
    var selected: Option<Overlay>
    var scale: real
    var savedScale: real
    var translation: Point
    var savedTranslation: Point

    constructor ()
      ensures overlays == [] && selected.None?
      ensures scale == 1.0 && savedScale == 1.0
      ensures translation == Point(0.0, 0.0) && savedTranslation == Point(0.0, 0.0)
    {
      overlays := [];
      selected := None;
      scale := 1.0;
      savedScale := 1.0;
      translation := Point(0.0, 0.0);
      savedTranslation := Point(0.0, 0.0);
    }

    function State(): CanvasState
      reads this
    {
      CanvasState(overlays, selected)
    }

    /** Append "Tap to edit" at (20, 50) with the given id and select it. */
    method AddTextOverlay(now: string)
      modifies this`overlays, this`selected
      ensures overlays == old(overlays) + [NewTextOverlay(now)]
      ensures selected == Some(NewTextOverlay(now))
    {
      var o := NewTextOverlay(now);
      overlays := overlays + [o];
      selected := Some(o);
    }

    /** Append and select an image at (20, 50) only when the picker gave a non-empty URI. */
    method AddImageOverlay(now: string, result: PickerOutcome)
      modifies this`overlays, this`selected
      ensures PickedUri(result).Some? ==>
                var o := NewImageOverlay(now, PickedUri(result).value);
                overlays == old(overlays) + [o] && selected == Some(o)
      ensures PickedUri(result).None? ==> overlays == old(overlays) && selected == old(selected)
    {
      var uri := PickedUri(result);
      if uri.Some? {
        var o := NewImageOverlay(now, uri.value);
        overlays := overlays + [o];
        selected := Some(o);
      }
    }

    /** `updateOverlay(id, updates, action)`; `now` is the id a duplicate receives. */
    method UpdateOverlay(id: string, updates: Update, action: Option<Action>, now: string)
      modifies this`overlays, this`selected
      ensures State() == Dispatch(old(State()), Message(id, updates, action), now)
    {
      if action == Some(Delete) {
        overlays := WithoutId(overlays, id);
        selected := None;
        return;
      }
      if action == Some(Duplicate) {
        var source := Find(overlays, id);
        if source.Some? {
          var copy := DuplicateOf(source.value, now, updates);
          overlays := overlays + [copy];
          selected := Some(copy);
          return;
        }
      }
      overlays := MergeInto(overlays, id, updates);
    }

    /** A tap on the background purges empty overlays and clears the selection. */
    method HandleBackgroundPress()
      modifies this`overlays, this`selected
      ensures overlays == Purged(old(overlays))
      ensures selected.None?
    {
      overlays := Purged(overlays);
      selected := None;
    }

    /** `onSelect(id)`: the slot takes the first overlay with the id, or none; it replaces what it held. */
    method Select(id: string)
      modifies this`selected
      ensures selected == Find(overlays, id)
    {
      selected := Find(overlays, id);
    }

    /** Pinch update: scale from the committed scale, unless an overlay is selected. */
    method PinchUpdate(factor: real)
      modifies this`scale
      ensures scale == if selected.None? then savedScale * factor else old(scale)
    {
      if selected.None? {
        scale := savedScale * factor;
      }
    }

    /** Pinch end: commit the scale, unless an overlay is selected. */
    method PinchEnd()
      modifies this`savedScale
      ensures savedScale == if selected.None? then scale else old(savedScale)
    {
      if selected.None? {
        savedScale := scale;
      }
    }

    /** Pan update: translate from the committed translation, unless an overlay is selected. */
    method PanUpdate(dx: real, dy: real)
      modifies this`translation
      ensures translation == if selected.None?
                             then Point(savedTranslation.x + dx, savedTranslation.y + dy)
                             else old(translation)
    {
      if selected.None? {
        translation := Point(savedTranslation.x + dx, savedTranslation.y + dy);
      }
    }

    /** Pan end: commit the translation, unless an overlay is selected. */
    method PanEnd()
      modifies this`savedTranslation
      ensures savedTranslation == if selected.None? then translation else old(savedTranslation)
    {
      if selected.None? {
        savedTranslation := translation;
      }
    }
  }
}
