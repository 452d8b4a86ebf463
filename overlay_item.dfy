/**
 * The controller of one overlay layer: its drag gesture, its edit mode and
 * the messages its controls send to the canvas.
 */
module OverlayItem {
  import opened OverlayModel

  /** The +20 the duplicate button adds to the live translation. */
  const ButtonOffset: real := 20.0

  /** Drag end: commit the live translation, with no action. */
  function DragEndRequest(id: string, tx: real, ty: real): Message {
    Message(id, NoChange.(x := Some(tx), y := Some(ty)), None)
  }

  /** Duplicate button: the live translation shifted by 20, with `'duplicate'`. */
  function DuplicateRequest(id: string, tx: real, ty: real): Message {
    Message(id, NoChange.(x := Some(tx + ButtonOffset), y := Some(ty + ButtonOffset)), Some(Duplicate))
  }

  /** Delete button: `{}` with `'delete'`. */
  function DeleteRequest(id: string): Message {
    Message(id, NoChange, Some(Delete))
  }

  /** A keystroke: the whole new text as `{content}`, with no action. */
  function TextChangeRequest(id: string, text: string): Message {
    Message(id, NoChange.(content := Some(text)), None)
  }

  class ItemController {
    // Props handed down by the canvas.
    var overlay: Overlay
    var isSelected: bool
    // Local state.
    var isEditing: bool
    var translateX: real
    var translateY: real

    /** Edit mode is only ever on for a selected item. */
    ghost predicate Valid()
      reads this
    {
      isEditing ==> isSelected
    }

    /** Mounting: not editing, live translation seeded from the committed position. */
    constructor (overlay: Overlay, isSelected: bool)
      ensures Valid()
      ensures this.overlay == overlay && this.isSelected == isSelected
      ensures !isEditing
      ensures translateX == overlay.x && translateY == overlay.y
    {
      this.overlay := overlay;
      this.isSelected := isSelected;
      isEditing := false;
      translateX := overlay.x;
      translateY := overlay.y;
    }

    /** The drag gesture is enabled exactly while the item is selected. */
    predicate PanEnabled()
      reads this
    {
      isSelected
    }

    /**
     * A drag update moves the live translation to the committed position
     * plus the gesture delta divided by the background scale; a disabled
     * gesture delivers no update.
     */
    method PanUpdate(dx: real, dy: real, scale: real)
      requires scale != 0.0
      modifies this`translateX, this`translateY
      ensures PanEnabled() ==> translateX == overlay.x + dx / scale && translateY == overlay.y + dy / scale
      ensures !PanEnabled() ==> translateX == old(translateX) && translateY == old(translateY)
    {
      if isSelected {
        translateX := overlay.x + dx / scale;
        translateY := overlay.y + dy / scale;
      }
    }

    /** A drag end sends exactly the live translation, with no action. */
    method PanEnd() returns (m: Option<Message>)
      ensures PanEnabled() <==> m.Some?
      ensures m.Some? ==> m.value.id == overlay.id && m.value.action.None?
      ensures m.Some? ==> m.value.updates == NoChange.(x := Some(translateX), y := Some(translateY))
    {
      if isSelected {
        m := Some(DragEndRequest(overlay.id, translateX, translateY));
      } else {
        m := None;
      }
    }

    /**
     * A press always selects this item's id, and enters edit mode exactly
     * when the item was already selected.
     */
    method Press() returns (selectId: string)
      requires Valid()
      modifies this`isEditing
      ensures Valid()
      ensures selectId == overlay.id
      ensures isEditing == isSelected
    {
      selectId := overlay.id;
      if isSelected {
        isEditing := true;
      }
    }

    /** Leaving the text field ends edit mode; the content is untouched. */
    method Blur()
      modifies this`isEditing
      ensures Valid()
      ensures !isEditing
    {
      isEditing := false;
    }

    /**
     * A re-render with new props. Losing the selection forces edit mode off;
     * the live translation keeps its mount-time seed.
     */
    method ReceiveProps(o: Overlay, selected: bool)
      requires o.id == overlay.id
      requires Valid()
      modifies this`overlay, this`isSelected, this`isEditing
      ensures Valid()
      ensures overlay == o && isSelected == selected
      ensures isEditing == (old(isEditing) && selected)
    {
      overlay := o;
      isSelected := selected;
      if !selected {
        isEditing := false;
      }
    }

    /** The text field is shown only for a text overlay in edit mode. */
    predicate ShowsTextInput()
      reads this
    {
      isEditing && overlay.TextOverlay?
    }

    /** Every keystroke forwards the new text verbatim, with no action. */
    method ChangeText(text: string) returns (m: Option<Message>)
      ensures ShowsTextInput() <==> m.Some?
      ensures m.Some? ==> m.value.id == overlay.id && m.value.action.None?
      ensures m.Some? ==> m.value.updates == NoChange.(content := Some(text))
    {
      if isEditing && overlay.TextOverlay? {
        m := Some(TextChangeRequest(overlay.id, text));
      } else {
        m := None;
      }
    }

    /** The duplicate button, shown while selected: live translation + 20, `'duplicate'`. */
    method PressDuplicate() returns (m: Option<Message>)
      ensures isSelected <==> m.Some?
      ensures m.Some? ==> m.value.id == overlay.id && m.value.action == Some(Duplicate)
      ensures m.Some? ==> m.value.updates == NoChange.(x := Some(translateX + 20.0), y := Some(translateY + 20.0))
    {
      if isSelected {
        m := Some(DuplicateRequest(overlay.id, translateX, translateY));
      } else {
        m := None;
      }
    }

    /** The delete button, shown while selected: `{}` with `'delete'`. */
    method PressDelete() returns (m: Option<Message>)
      ensures isSelected <==> m.Some?
      ensures m.Some? ==> m.value == Message(overlay.id, NoChange, Some(Delete))
    {
      if isSelected {
        m := Some(DeleteRequest(overlay.id));
      } else {
        m := None;
      }
    }
  }
}
