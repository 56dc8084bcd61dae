/** components/booking/Step4Time.tsx: page 4 of the wizard. It asks the
    slot procedure for the chosen service, professional and date, lists the
    slots, keeps the one picked and hands it on when "Continuar" is pressed. */
module Step4Time {
  import opened Types
  import BookingHelpers
  import TimeSlotGrid
  import Step1Selection

  const ErrorMessage: string := "No hay horarios disponibles para esta fecha."

  /** The parameters of `get_available_slots`. */
  datatype SlotsRequest = SlotsRequest(professionalId: Option<string>, serviceId: string, date: string)

  /** `professional?.id`: no id for "sin preferencia"; a professional's id
      is passed as it is, even when empty. */
  function Request(service: Service, professional: Option<Professional>, date: string): (request: SlotsRequest)
    ensures request.professionalId.Some? <==> professional.Some?
    ensures professional.Some? ==> request.professionalId == Some(professional.value.id)
    ensures request.serviceId == service.id && request.date == date
  {
    SlotsRequest(if professional.Some? then Some(professional.value.id) else None, service.id, date)
  }

  /** The single-page flow sends the same professional id except for a
      professional whose id is empty, which it sends as null. */
  lemma ProfessionalIdAgreesWithSinglePage(service: Service, professional: Option<Professional>, date: string)
    ensures Request(service, professional, date).professionalId == Step1Selection.ProfessionalIdOrNull(professional)
        <==> (professional.None? || professional.value.id != "")
  {
  }

  /** The component's four state cells. */
  datatype SlotsState = SlotsState(
    slots: seq<AvailableSlot>,
    loading: bool,
    error: Option<string>,
    selectedSlot: Option<AvailableSlot>)

  function Initial(): (s: SlotsState)
    ensures s.slots == [] && s.loading && s.error.None? && s.selectedSlot.None?
  {
    SlotsState([], true, None, None)
  }

  /** The start of `fetchAvailableSlots`: spinner on, error cleared; the slots
      and the selection are kept. */
  function Started(s: SlotsState): (t: SlotsState)
    ensures t.loading && t.error.None? && t.slots == s.slots && t.selectedSlot == s.selectedSlot
  {
    s.(loading := true, error := None)
  }

  /** The end of `fetchAvailableSlots`: the rows (null read as []) or the
      fixed message with the slots kept; loading ends; the selection is kept. */
  function Finished(s: SlotsState, outcome: FetchOutcome<Option<seq<AvailableSlot>>>): (t: SlotsState)
    ensures !t.loading && t.selectedSlot == s.selectedSlot
    ensures outcome.Success? ==> t.error == s.error && t.slots == (if outcome.data.Some? then outcome.data.value else [])
    ensures outcome.Failure? ==> t.error == Some(ErrorMessage) && t.slots == s.slots
  {
    match outcome
    case Success(data) => s.(slots := if data.Some? then data.value else [], loading := false)
    case Failure => s.(error := Some(ErrorMessage), loading := false)
  }

  /** `handleSlotSelect`: only the selection changes. */
  function SlotPicked(s: SlotsState, slot: AvailableSlot): (t: SlotsState)
    ensures t.selectedSlot == Some(slot)
    ensures t.slots == s.slots && t.loading == s.loading && t.error == s.error
  {
    s.(selectedSlot := Some(slot))
  }

  /** The highlight test: the start times agree; the end time is not compared. */
  predicate IsHighlighted(selected: Option<AvailableSlot>, slot: AvailableSlot)
  {
    selected.Some? && selected.value.startTime == slot.startTime
  }

  /** The selected slot is always highlighted, as the grid of the single-page
      flow would press it; the converse fails. */
  lemma SelectionIsHighlighted(selected: Option<AvailableSlot>, slot: AvailableSlot)
    ensures TimeSlotGrid.SameSlot(selected, slot) ==> IsHighlighted(selected, slot)
    ensures selected.None? ==> !IsHighlighted(selected, slot)
  {
  }

  /** Any slot starting with the picked one but ending apart from it is
      highlighted too, while the grid presses only the picked one. */
  lemma HighlightIgnoresEndTime(picked: AvailableSlot, other: AvailableSlot)
    requires picked.startTime == other.startTime && picked.endTime != other.endTime
    ensures IsHighlighted(Some(picked), other) && !TimeSlotGrid.SameSlot(Some(picked), other)
  {
  }

  /** The duration line: `duration_minutes + (buffer_minutes || 0)`, written
      inline on this page as `Step1Service.LocalTotalDuration` is on page 1;
      both agree with `BookingHelpers.TotalDuration`. */
  function DisplayedDuration(service: Service): (minutes: int)
    ensures minutes == BookingHelpers.TotalDuration(service)
  {
    service.durationMinutes + (if service.bufferMinutes.Some? then service.bufferMinutes.value else 0)
  }

  datatype SlotButton = SlotButton(slot: AvailableSlot, highlighted: bool)

  /** The picked slot's box: the slot and the duration shown beside it. */
  datatype Summary = Summary(slot: AvailableSlot, minutes: int)

  datatype View =
    | Loading
    | ErrorWithRetry(message: string)
    | NoSlots
    | Grid(heading: TimeSlotGrid.CountLabel, buttons: seq<SlotButton>, summary: Option<Summary>, continueDisabled: bool)

  /** Spinner; then a truthy error with "Volver" and "Reintentar"; then the
      slots (count, one button per slot, the summary of the picked slot and
      the continue button, disabled exactly without a pick); else the
      "no slots" notice with "Cambiar Fecha". */
  function Render(s: SlotsState, service: Service): (view: View)
    ensures view == Loading <==> s.loading
    ensures view.ErrorWithRetry? <==> !s.loading && Truthy(s.error)
    ensures view.ErrorWithRetry? ==> view.message == s.error.value
    ensures view == NoSlots <==> !s.loading && !Truthy(s.error) && s.slots == []
    ensures view.Grid? ==>
      view.heading == TimeSlotGrid.Label(|s.slots|)
      && |view.buttons| == |s.slots|
      && (forall i :: 0 <= i < |s.slots| ==> view.buttons[i] == SlotButton(s.slots[i], IsHighlighted(s.selectedSlot, s.slots[i])))
      && (view.summary.Some? <==> s.selectedSlot.Some?)
      && (view.summary.Some? ==> view.summary.value == Summary(s.selectedSlot.value, BookingHelpers.TotalDuration(service)))
      && (view.continueDisabled <==> s.selectedSlot.None?)
  {
    if s.loading then Loading
    else if Truthy(s.error) then ErrorWithRetry(s.error.value)
    else if |s.slots| == 0 then NoSlots
    else
      Grid(
        TimeSlotGrid.Label(|s.slots|),
        seq(|s.slots|, i requires 0 <= i < |s.slots| => SlotButton(s.slots[i], IsHighlighted(s.selectedSlot, s.slots[i]))),
        if s.selectedSlot.Some? then Some(Summary(s.selectedSlot.value, DisplayedDuration(service))) else None,
        s.selectedSlot.None?)
  }

  // ---------------------------------------------------------------------------
  // The page as a state machine: its props never change while it is shown

  datatype SlotsEvent =
    | Arrive(outcome: FetchOutcome<Option<seq<AvailableSlot>>>)
    | Retry
    | Pick(slot: AvailableSlot)

  /** A response arrives only while one is awaited (the only fetches are the
      mount's and the retry's, and the retry button needs loading to be over);
      slots are picked from the grid. */
  predicate Enabled(s: SlotsState, service: Service, e: SlotsEvent)
  {
    match e
    case Arrive(_) => s.loading
    case Retry => Render(s, service).ErrorWithRetry?
    case Pick(slot) => Render(s, service).Grid? && slot in s.slots
  }

  function Apply(s: SlotsState, e: SlotsEvent): SlotsState
  {
    match e
    case Arrive(outcome) => Finished(s, outcome)
    case Retry => Started(s)
    case Pick(slot) => SlotPicked(s, slot)
  }

  /** A picked slot is one of the listed slots, shown in a grid that is not
      loading and shows no error. */
  predicate PickIsListed(s: SlotsState)
  {
    s.selectedSlot.Some? ==> !s.loading && !Truthy(s.error) && s.selectedSlot.value in s.slots
  }

  lemma ApplyKeepsPickListed(s: SlotsState, service: Service, e: SlotsEvent)
    requires PickIsListed(s) && Enabled(s, service, e)
    ensures PickIsListed(Apply(s, e))
  {
  }

  function Run(s: SlotsState, events: seq<SlotsEvent>): SlotsState
    decreases |events|
  {
    if events == [] then s else Run(Apply(s, events[0]), events[1..])
  }

  predicate EnabledTrace(s: SlotsState, service: Service, events: seq<SlotsEvent>)
    decreases |events|
  {
    events == [] || (Enabled(s, service, events[0]) && EnabledTrace(Apply(s, events[0]), service, events[1..]))
  }

  /** From mounting on, the picked slot, which "Continuar" hands on, is
      always one of the slots in the grid on screen. */
  lemma {:induction false} ContinueHandsOnListedSlot(s: SlotsState, service: Service, events: seq<SlotsEvent>)
    requires PickIsListed(s) && EnabledTrace(s, service, events)
    ensures var t := Run(s, events);
      t.selectedSlot.Some? ==> Render(t, service).Grid? && t.selectedSlot.value in t.slots
    decreases |events|
  {
    if events != [] {
      ApplyKeepsPickListed(s, service, events[0]);
      ContinueHandsOnListedSlot(Apply(s, events[0]), service, events[1..]);
    }
  }

  class TimePage {
    const service: Service
    const professional: Option<Professional>
    const date: string
    var slots: seq<AvailableSlot>
    var loading: bool
    var error: Option<string>
    var selectedSlot: Option<AvailableSlot>

    function State(): SlotsState
      reads this
    {
      SlotsState(slots, loading, error, selectedSlot)
    }

    constructor (service: Service, professional: Option<Professional>, date: string)
      ensures this.service == service && this.professional == professional && this.date == date
      ensures State() == Initial() && State() == Started(Initial())
    {
      this.service := service;
      this.professional := professional;
      this.date := date;
      slots := [];
      loading := true;
      error := None;
      selectedSlot := None;
    }

    /** `fetchAvailableSlots` up to its `await`: the request is built from the
      props alone, so the mount's call and every retry send the same one. */
    method StartFetch() returns (request: SlotsRequest)
      modifies this
      ensures request == Request(service, professional, date)
      ensures State() == Started(old(State()))
    {
      loading := true;
      error := None;
      request := SlotsRequest(if professional.Some? then Some(professional.value.id) else None, service.id, date);
    }

    method FinishFetch(outcome: FetchOutcome<Option<seq<AvailableSlot>>>)
      modifies this
      ensures State() == Finished(old(State()), outcome)
    {
      match outcome {
        case Success(data) =>
          slots := if data.Some? then data.value else [];
        case Failure =>
          error := Some(ErrorMessage);
      }
      loading := false;
    }

    method HandleSlotSelect(slot: AvailableSlot)
      modifies this
      ensures State() == SlotPicked(old(State()), slot)
    {
      selectedSlot := Some(slot);
    }

    /** `handleContinue`: `onSelectTime` gets the picked slot, only when there
      is one, which is exactly when the button is enabled. */
    method HandleContinue() returns (handedOn: Option<AvailableSlot>)
      ensures handedOn == selectedSlot
      ensures Render(State(), service).Grid? ==> (handedOn.Some? <==> !Render(State(), service).continueDisabled)
    {
      if selectedSlot.Some? {
        handedOn := selectedSlot;
      } else {
        handedOn := None;
      }
    }
  }
}
