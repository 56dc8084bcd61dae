/** components/booking/Step1Selection/TimeSlotGrid.tsx: which face the slot
    grid shows, which slot is pressed, and the count above the grid. */
module TimeSlotGrid {
  import opened Types

  /** A slot button: the slot its click hands to `onSelect`, and whether it is pressed. */
  datatype SlotButton = SlotButton(slot: AvailableSlot, selected: bool)

  /** "N horario disponible" / "N horarios disponibles". */
  datatype CountLabel = CountLabel(count: nat, noun: string)

  datatype View =
    | Loading
    | ErrorShown(message: string, retryOffered: bool)
    | Empty
    | Grid(heading: CountLabel, buttons: seq<SlotButton>, summary: Option<AvailableSlot>)

  /** Both ends must match: `selectedSlot?.start_time === slot.start_time &&
      selectedSlot?.end_time === slot.end_time`. */
  predicate SameSlot(selected: Option<AvailableSlot>, slot: AvailableSlot)
  {
    selected.Some? && selected.value.startTime == slot.startTime && selected.value.endTime == slot.endTime
  }

  /** Since a slot is exactly its pair of ends, matching both ends is equality. */
  lemma SameSlotIsEquality(selected: Option<AvailableSlot>, slot: AvailableSlot)
    ensures SameSlot(selected, slot) <==> selected == Some(slot)
  {
  }

  function Label(count: nat): (heading: CountLabel)
    ensures heading.count == count
    ensures heading.noun == "horario disponible" <==> count == 1
    ensures count != 1 ==> heading.noun == "horarios disponibles"
  {
    CountLabel(count, if count == 1 then "horario disponible" else "horarios disponibles")
  }

  /** The component's output: the spinner whenever loading (whatever the
      error or the slots); else a truthy error together with the retry action;
      else the empty notice; else the count, one button per slot (pressed iff
      it equals the selection) and the summary of the selected slot. */
  function Render(slots: seq<AvailableSlot>, selected: Option<AvailableSlot>, loading: bool, error: Option<string>): (view: View)
    ensures view == Loading <==> loading
    ensures view.ErrorShown? <==> !loading && Truthy(error)
    ensures view.ErrorShown? ==> view.message == error.value && view.retryOffered
    ensures view == Empty <==> !loading && !Truthy(error) && slots == []
    ensures view.Grid? ==>
      view.heading == Label(|slots|)
      && view.summary == selected
      && |view.buttons| == |slots|
      && forall i :: 0 <= i < |slots| ==>
           view.buttons[i].slot == slots[i] && (view.buttons[i].selected <==> selected == Some(slots[i]))
  {
    if loading then Loading
    else if Truthy(error) then ErrorShown(error.value, true)
    else if |slots| == 0 then Empty
    else
      Grid(
        Label(|slots|),
        seq(|slots|, i requires 0 <= i < |slots| => SlotButton(slots[i], SameSlot(selected, slots[i]))),
        selected)
  }

  /** Nothing is pressed without a selection, and the pressed buttons are
      exactly the copies of the selected slot in the list. */
  lemma PressedAreCopiesOfSelection(slots: seq<AvailableSlot>, selected: Option<AvailableSlot>, error: Option<string>)
    ensures var view := Render(slots, selected, false, error);
      view.Grid? ==>
        (selected.None? ==> forall i :: 0 <= i < |view.buttons| ==> !view.buttons[i].selected)
        && (selected.Some? ==> ((exists i :: 0 <= i < |view.buttons| && view.buttons[i].selected) <==> selected.value in slots))
  {
    var view := Render(slots, selected, false, error);
    if view.Grid? && selected.Some? && selected.value in slots {
      var i :| 0 <= i < |slots| && slots[i] == selected.value;
      assert view.buttons[i].selected;
    }
  }
}
