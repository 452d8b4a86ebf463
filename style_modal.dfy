/**
 * The style editor of the selected overlay: colour and font-style taps that
 * commit at once, and font-size and opacity sliders that keep a local draft
 * and commit on release. Every message it sends has no action.
 */
module StyleModal {
  import opened OverlayModel

  /** `Math.round`: the nearest integer, halves rounded up. */
  function Round(v: real): (r: int)
    ensures r as real - 0.5 <= v < r as real + 0.5
  {
    (v + 0.5).Floor
  }

  /** Rounding a slider value in [10, 50] gives an integer size in [10, 50]. */
  lemma RoundedFontSizeInRange(v: real)
    requires FontSizeMin <= v <= FontSizeMax
    ensures FontSizeMin <= Round(v) as real <= FontSizeMax
  {
  }

  /** `overlay?.fontSize || 20`: a stored size that is absent or 0 seeds as the default. */
  function SeedFontSize(o: Option<Overlay>): (r: real)
    ensures r != 0.0
    ensures r == FontSizeDefault || (o.Some? && o.value.TextOverlay? && o.value.fontSize == Some(r))
    ensures o.Some? && o.value.TextOverlay? && Truthy(o.value.fontSize) ==> r == o.value.fontSize.value
  {
    if o.Some? && o.value.TextOverlay? then Or(o.value.fontSize, FontSizeDefault) else FontSizeDefault
  }

  /** `overlay?.opacity || 1`: a stored opacity that is absent or 0 seeds as the default. */
  function SeedOpacity(o: Option<Overlay>): (r: real)
    ensures r != 0.0
    ensures r == OpacityDefault || (o.Some? && o.value.ImageOverlay? && o.value.opacity == Some(r))
    ensures o.Some? && o.value.ImageOverlay? && Truthy(o.value.opacity) ==> r == o.value.opacity.value
  {
    if o.Some? && o.value.ImageOverlay? then Or(o.value.opacity, OpacityDefault) else OpacityDefault
  }

  /** An image stored fully transparent seeds the opacity draft as fully opaque. */
  lemma ZeroOpacitySeedsAsOne(o: Overlay)
    requires o.ImageOverlay? && o.opacity == Some(0.0)
    ensures SeedOpacity(Some(o)) == 1.0
  {
  }

  class StyleEditor {
    // Prop: the canvas's selection snapshot.
    var overlay: Option<Overlay>
    // Local drafts.
    var fontSizeDraft: real
    var opacityDraft: real

    /** Mounting seeds both drafts from the overlay of the first render. */
    constructor (overlay: Option<Overlay>)
      ensures this.overlay == overlay
      ensures fontSizeDraft == SeedFontSize(overlay) && opacityDraft == SeedOpacity(overlay)
    {
      this.overlay := overlay;
      fontSizeDraft := SeedFontSize(overlay);
      opacityDraft := SeedOpacity(overlay);
    }

    /**
     * As written: a new selection re-renders the editor, and the drafts keep
     * the values seeded when it was first mounted.
     */
    method ReceiveOverlay(o: Option<Overlay>)
      modifies this`overlay
      ensures overlay == o
      ensures fontSizeDraft == old(fontSizeDraft) && opacityDraft == old(opacityDraft)
    {
      overlay := o;
    }

    /** Corrected: a new selection reseeds both drafts from the newly selected overlay. */
    method ReceiveOverlayReseeded(o: Option<Overlay>)
      modifies this`overlay, this`fontSizeDraft, this`opacityDraft
      ensures overlay == o
      ensures fontSizeDraft == SeedFontSize(o) && opacityDraft == SeedOpacity(o)
    {
      overlay := o;
      fontSizeDraft := SeedFontSize(o);
      opacityDraft := SeedOpacity(o);
    }

    /** Colour, font-size and font-style controls: only for a text overlay. */
    predicate ShowsTextControls()
      reads this
    {
      overlay.Some? && overlay.value.TextOverlay?
    }

    /** The opacity control: only for an image overlay. */
    predicate ShowsOpacityControl()
      reads this
    {
      overlay.Some? && overlay.value.ImageOverlay?
    }

    /** Tapping palette entry `i` commits that colour at once. */
    method TapColor(i: nat) returns (m: Option<Message>)
      requires i < |Colors|
      ensures ShowsTextControls() <==> m.Some?
      ensures m.Some? ==> m.value.id == overlay.value.id && m.value.action.None?
      ensures m.Some? ==> m.value.updates == NoChange.(textColor := Some(Colors[i]))
      ensures m.Some? ==> m.value.updates.textColor.value in Colors
    {
      if overlay.Some? && overlay.value.TextOverlay? {
        m := Some(Message(overlay.value.id, NoChange.(textColor := Some(Colors[i])), None));
      } else {
        m := None;
      }
    }

    /** Tapping the normal, italic or bold button commits that style at once. */
    method TapFontStyle(s: FontStyle) returns (m: Option<Message>)
      ensures ShowsTextControls() <==> m.Some?
      ensures m.Some? ==> m.value.id == overlay.value.id && m.value.action.None?
      ensures m.Some? ==> m.value.updates == NoChange.(fontStyle := Some(s))
    {
      if overlay.Some? && overlay.value.TextOverlay? {
        m := Some(Message(overlay.value.id, NoChange.(fontStyle := Some(s)), None));
      } else {
        m := None;
      }
    }

    /** Moving the font-size slider changes the draft and nothing else. */
    method SlideFontSize(v: real)
      modifies this`fontSizeDraft
      ensures fontSizeDraft == if ShowsTextControls() then v else old(fontSizeDraft)
    {
      if overlay.Some? && overlay.value.TextOverlay? {
        fontSizeDraft := v;
      }
    }

    /** Releasing the font-size slider commits the rounded value. */
    method ReleaseFontSize(v: real) returns (m: Option<Message>)
      ensures ShowsTextControls() <==> m.Some?
      ensures m.Some? ==> m.value.id == overlay.value.id && m.value.action.None?
      ensures m.Some? ==> m.value.updates == NoChange.(fontSize := Some(Round(v) as real))
      ensures m.Some? && FontSizeMin <= v <= FontSizeMax ==>
                var size := m.value.updates.fontSize.value;
                FontSizeMin <= size <= FontSizeMax && size == size.Floor as real
    {
      if overlay.Some? && overlay.value.TextOverlay? {
        m := Some(Message(overlay.value.id, NoChange.(fontSize := Some(Round(v) as real)), None));
        if FontSizeMin <= v <= FontSizeMax {
          RoundedFontSizeInRange(v);
        }
      } else {
        m := None;
      }
    }

    /** Moving the opacity slider changes the draft and nothing else. */
    method SlideOpacity(v: real)
      modifies this`opacityDraft
      ensures opacityDraft == if ShowsOpacityControl() then v else old(opacityDraft)
    {
      if overlay.Some? && overlay.value.ImageOverlay? {
        opacityDraft := v;
      }
    }

    /** Releasing the opacity slider commits the value unrounded. */
    method ReleaseOpacity(v: real) returns (m: Option<Message>)
      ensures ShowsOpacityControl() <==> m.Some?
      ensures m.Some? ==> m.value.id == overlay.value.id && m.value.action.None?
      ensures m.Some? ==> m.value.updates == NoChange.(opacity := Some(v))
    {
      if overlay.Some? && overlay.value.ImageOverlay? {
        m := Some(Message(overlay.value.id, NoChange.(opacity := Some(v)), None));
      } else {
        m := None;
      }
    }
  }

  /**
   * The canvas mounts the editor while nothing is selected. As written, after
   * the font-size slider is moved to 40 for one text overlay, selecting a
   * second text overlay with no stored size still shows 40; the corrected
   * editor shows that overlay's seed, 20.
   */
  method StaleDraftAfterSelection() returns (asWritten: real, corrected: real, seed: real)
    ensures seed == FontSizeDefault
    ensures asWritten == 40.0 && asWritten != seed
    ensures corrected == seed
  {
    var first := TextOverlay("1", 20.0, 50.0, "Tap to edit", None, None, None);
    var second := TextOverlay("2", 20.0, 50.0, "Tap to edit", None, None, None);
    seed := SeedFontSize(Some(second));

    var editor := new StyleEditor(None);
    editor.ReceiveOverlay(Some(first));
    editor.SlideFontSize(40.0);
    editor.ReceiveOverlay(Some(second));
    asWritten := editor.fontSizeDraft;

    var fixedEditor := new StyleEditor(None);
    fixedEditor.ReceiveOverlayReseeded(Some(first));
    fixedEditor.SlideFontSize(40.0);
    fixedEditor.ReceiveOverlayReseeded(Some(second));
    corrected := fixedEditor.fontSizeDraft;
  }
}
