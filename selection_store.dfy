/** components/booking/Step1Selection/index.tsx: the single-page booking flow.
    One record holds the four selections and, per fetched collection, a
    loading flag, an error and the list. The handlers are atomic record
    updates that clear what depends on the changed selection; each fetch is a
    start, later followed by its success or its failure; the effects, run after
    a transition, decide which fetch is issued and when completion fires.

    The remote queries are inputs (`FetchOutcome`s), and responses may arrive
    in any order: the code keeps no record of which request is in flight. */
module Step1Selection {
  import opened Types
  import ServiceSelector
  import ProfessionalSelector
  import TimeSlotGrid

  const ServicesErrorMessage: string := "No pudimos cargar los servicios. Por favor, intentá de nuevo."
  const ProfessionalsErrorMessage: string := "No pudimos cargar los profesionales. Por favor, intentá de nuevo."
  const SlotsErrorMessage: string := "No pudimos cargar los horarios. Por favor, intentá de nuevo."

  /** `SelectionState`. A date of "" (the date input cleared) is kept as
      `Some("")` and counts as unset wherever the code tests truthiness. */
  datatype SelectionState = SelectionState(
    service: Option<Service>,
    professional: Option<Professional>,
    date: Option<string>,
    timeSlot: Option<AvailableSlot>,
    loadingServices: bool,
    loadingProfessionals: bool,
    loadingSlots: bool,
    serviceError: Option<string>,
    professionalError: Option<string>,
    slotError: Option<string>,
    availableServices: seq<Service>,
    availableProfessionals: seq<Professional>,
    availableSlots: seq<AvailableSlot>)

  // ---------------------------------------------------------------------------
  // Views of the record, to state frame conditions per part

  /** The four selections. A null professional means "sin preferencia". */
  datatype Selections = Selections(
    service: Option<Service>,
    professional: Option<Professional>,
    date: Option<string>,
    timeSlot: Option<AvailableSlot>)

  /** One fetched collection's fields: its loading flag, its error, its list. */
  datatype Collection<T> = Collection(loading: bool, error: Option<string>, items: seq<T>)

  function SelectionsOf(s: SelectionState): Selections
  {
    Selections(s.service, s.professional, s.date, s.timeSlot)
  }

  function ServicesOf(s: SelectionState): Collection<Service>
  {
    Collection(s.loadingServices, s.serviceError, s.availableServices)
  }

  function ProfessionalsOf(s: SelectionState): Collection<Professional>
  {
    Collection(s.loadingProfessionals, s.professionalError, s.availableProfessionals)
  }

  function SlotsOf(s: SelectionState): Collection<AvailableSlot>
  {
    Collection(s.loadingSlots, s.slotError, s.availableSlots)
  }

  /** The four parts cover the whole record: two states that agree on every
      part are the same state. */
  lemma PartsDetermineState(s: SelectionState, t: SelectionState)
    requires SelectionsOf(s) == SelectionsOf(t)
    requires ServicesOf(s) == ServicesOf(t) && ProfessionalsOf(s) == ProfessionalsOf(t) && SlotsOf(s) == SlotsOf(t)
    ensures s == t
  {
  }

  /** The `useState` initialiser: nothing selected, services loading, every
      other flag down, no errors, no lists. */
  function InitialState(): (s: SelectionState)
    ensures SelectionsOf(s) == Selections(None, None, None, None)
    ensures ServicesOf(s) == Collection(true, None, [])
    ensures ProfessionalsOf(s) == Collection(false, None, [])
    ensures SlotsOf(s) == Collection(false, None, [])
  {
    SelectionState(None, None, None, None, true, false, false, None, None, None, [], [], [])
  }

  // ---------------------------------------------------------------------------
  // Handlers (the `prev => ({ ...prev, ... })` updaters)

  /** `handleServiceSelect`: sets the service and clears, in the same update,
      professional, date, slot and both dependent lists. Loading flags, errors
      and the service list are untouched. */
  function ServiceChosen(s: SelectionState, service: Service): (t: SelectionState)
    ensures SelectionsOf(t) == Selections(Some(service), None, None, None)
    ensures ServicesOf(t) == ServicesOf(s)
    ensures ProfessionalsOf(t) == ProfessionalsOf(s).(items := [])
    ensures SlotsOf(t) == SlotsOf(s).(items := [])
  {
    s.(service := Some(service), professional := None, date := None, timeSlot := None,
       availableProfessionals := [], availableSlots := [])
  }

  /** `handleProfessionalSelect` (None is "sin preferencia"): sets the
      professional and clears only the slot and the slot list. */
  function ProfessionalChosen(s: SelectionState, professional: Option<Professional>): (t: SelectionState)
    ensures SelectionsOf(t) == SelectionsOf(s).(professional := professional, timeSlot := None)
    ensures ServicesOf(t) == ServicesOf(s) && ProfessionalsOf(t) == ProfessionalsOf(s)
    ensures SlotsOf(t) == SlotsOf(s).(items := [])
  {
    s.(professional := professional, timeSlot := None, availableSlots := [])
  }

  /** `handleDateSelect`: sets the date and clears only the slot and the slot list. */
  function DateChosen(s: SelectionState, date: string): (t: SelectionState)
    ensures SelectionsOf(t) == SelectionsOf(s).(date := Some(date), timeSlot := None)
    ensures ServicesOf(t) == ServicesOf(s) && ProfessionalsOf(t) == ProfessionalsOf(s)
    ensures SlotsOf(t) == SlotsOf(s).(items := [])
  {
    s.(date := Some(date), timeSlot := None, availableSlots := [])
  }

  /** `handleTimeSlotSelect`: changes the slot and nothing else. */
  function SlotChosen(s: SelectionState, slot: AvailableSlot): (t: SelectionState)
    ensures SelectionsOf(t) == SelectionsOf(s).(timeSlot := Some(slot))
    ensures ServicesOf(t) == ServicesOf(s) && ProfessionalsOf(t) == ProfessionalsOf(s) && SlotsOf(t) == SlotsOf(s)
  {
    s.(timeSlot := Some(slot))
  }

  // ---------------------------------------------------------------------------
  // Fetch lifecycles: each touches its own collection only

  /** `data || []` */
  function OrEmpty<T>(data: Option<seq<T>>): (items: seq<T>)
    ensures data.None? ==> items == []
    ensures data.Some? ==> items == data.value
  {
    if data.Some? then data.value else []
  }

  /** Start of `fetchServices`: loading on, error cleared, the list kept. */
  function ServicesFetchStarted(s: SelectionState): (t: SelectionState)
    ensures ServicesOf(t) == ServicesOf(s).(loading := true, error := None)
    ensures SelectionsOf(t) == SelectionsOf(s) && ProfessionalsOf(t) == ProfessionalsOf(s) && SlotsOf(t) == SlotsOf(s)
  {
    s.(loadingServices := true, serviceError := None)
  }

  /** End of `fetchServices`: on success the rows (null read as []) replace
      the list; on failure the fixed message is set and the list is kept.
      Either way loading ends. */
  function ServicesFetchFinished(s: SelectionState, outcome: FetchOutcome<Option<seq<Service>>>): (t: SelectionState)
    ensures outcome.Success? ==> ServicesOf(t) == Collection(false, s.serviceError, OrEmpty(outcome.data))
    ensures outcome.Failure? ==> ServicesOf(t) == Collection(false, Some(ServicesErrorMessage), s.availableServices)
    ensures SelectionsOf(t) == SelectionsOf(s) && ProfessionalsOf(t) == ProfessionalsOf(s) && SlotsOf(t) == SlotsOf(s)
  {
    match outcome
    case Success(data) => s.(availableServices := OrEmpty(data), loadingServices := false)
    case Failure => s.(serviceError := Some(ServicesErrorMessage), loadingServices := false)
  }

  /** Start of `fetchProfessionals`. */
  function ProfessionalsFetchStarted(s: SelectionState): (t: SelectionState)
    ensures ProfessionalsOf(t) == ProfessionalsOf(s).(loading := true, error := None)
    ensures SelectionsOf(t) == SelectionsOf(s) && ServicesOf(t) == ServicesOf(s) && SlotsOf(t) == SlotsOf(s)
  {
    s.(loadingProfessionals := true, professionalError := None)
  }

  /** End of `fetchProfessionals`. The payload is the join's rows, each
      holding a professional or null. On success the non-null professionals,
      in row order, replace the list. A null payload makes `data.map` throw,
      which lands in the failure branch like a query error. */
  function ProfessionalsFetchFinished(s: SelectionState, outcome: FetchOutcome<Option<seq<Option<Professional>>>>): (t: SelectionState)
    ensures (outcome.Success? && outcome.data.Some?) ==>
      ProfessionalsOf(t) == Collection(false, s.professionalError, Somes(outcome.data.value))
    ensures (outcome.Failure? || outcome.data.None?) ==>
      ProfessionalsOf(t) == Collection(false, Some(ProfessionalsErrorMessage), s.availableProfessionals)
    ensures SelectionsOf(t) == SelectionsOf(s) && ServicesOf(t) == ServicesOf(s) && SlotsOf(t) == SlotsOf(s)
  {
    match outcome
    case Success(Some(rows)) => s.(availableProfessionals := Somes(rows), loadingProfessionals := false)
    case _ => s.(professionalError := Some(ProfessionalsErrorMessage), loadingProfessionals := false)
  }

  /** Start of `fetchAvailableSlots`. */
  function SlotsFetchStarted(s: SelectionState): (t: SelectionState)
    ensures SlotsOf(t) == SlotsOf(s).(loading := true, error := None)
    ensures SelectionsOf(t) == SelectionsOf(s) && ServicesOf(t) == ServicesOf(s) && ProfessionalsOf(t) == ProfessionalsOf(s)
  {
    s.(loadingSlots := true, slotError := None)
  }

  /** End of `fetchAvailableSlots`: the rows (null read as []) or the fixed message. */
  function SlotsFetchFinished(s: SelectionState, outcome: FetchOutcome<Option<seq<AvailableSlot>>>): (t: SelectionState)
    ensures outcome.Success? ==> SlotsOf(t) == Collection(false, s.slotError, OrEmpty(outcome.data))
    ensures outcome.Failure? ==> SlotsOf(t) == Collection(false, Some(SlotsErrorMessage), s.availableSlots)
    ensures SelectionsOf(t) == SelectionsOf(s) && ServicesOf(t) == ServicesOf(s) && ProfessionalsOf(t) == ProfessionalsOf(s)
  {
    match outcome
    case Success(data) => s.(availableSlots := OrEmpty(data), loadingSlots := false)
    case Failure => s.(slotError := Some(SlotsErrorMessage), loadingSlots := false)
  }

  // ---------------------------------------------------------------------------
  // Effects

  /** The parameters of `get_available_slots`. */
  datatype SlotRequest = SlotRequest(serviceId: string, professionalId: Option<string>, date: string)

  /** `state.professional?.id || null`: "sin preferencia" is sent as null, and
      so is a professional whose id is the empty string. */
  function ProfessionalIdOrNull(professional: Option<Professional>): (id: Option<string>)
    ensures id.Some? <==> professional.Some? && professional.value.id != ""
    ensures id.Some? ==> id.value == professional.value.id
  {
    if professional.Some? && professional.value.id != "" then Some(professional.value.id) else None
  }

  /** The slot request a state calls for: one exactly when a service and a
      truthy date are set, carrying the service id, the professional id or
      null, and the date. Both the slots effect and `handleRetrySlots` use it. */
  function SlotsRequest(s: SelectionState): (request: Option<SlotRequest>)
    ensures request.Some? <==> s.service.Some? && Truthy(s.date)
    ensures request.Some? ==>
      request.value == SlotRequest(s.service.value.id, ProfessionalIdOrNull(s.professional), s.date.value)
  {
    if s.service.Some? && Truthy(s.date)
    then Some(SlotRequest(s.service.value.id, ProfessionalIdOrNull(s.professional), s.date.value))
    else None
  }

  /** The professionals effect (deps: the service): after a transition it
      issues a fetch, for the service's id, exactly when the service changed
      and is set. */
  function ProfessionalsFetchIssued(before: SelectionState, after: SelectionState): (serviceId: Option<string>)
    ensures serviceId.Some? <==> after.service.Some? && after.service != before.service
    ensures serviceId.Some? ==> serviceId.value == after.service.value.id
  {
    if after.service != before.service && after.service.Some? then Some(after.service.value.id) else None
  }

  /** The effect's dependency list for slots: service, professional, date. */
  predicate SlotDepsChanged(before: SelectionState, after: SelectionState)
  {
    after.service != before.service || after.professional != before.professional || after.date != before.date
  }

  /** The slots effect: it issues the state's slot request exactly when one of
      its dependencies changed and service and date are set. */
  function SlotsFetchIssued(before: SelectionState, after: SelectionState): (request: Option<SlotRequest>)
    ensures request.Some? <==> SlotDepsChanged(before, after) && after.service.Some? && Truthy(after.date)
    ensures request.Some? ==> request == SlotsRequest(after)
  {
    if SlotDepsChanged(before, after) then SlotsRequest(after) else None
  }

  /** What `onStepComplete` receives. */
  datatype Completion = Completion(service: Service, professional: Option<Professional>, date: string, timeSlot: AvailableSlot)

  /** The completion effect's condition: service, truthy date and slot set
      (the professional may be null). */
  predicate ReadyToComplete(s: SelectionState)
  {
    s.service.Some? && Truthy(s.date) && s.timeSlot.Some?
  }

  /** The completion effect (deps: the four selections): fires, with the four
      selections, exactly when a selection changed and the state is ready. */
  function CompletionFired(before: SelectionState, after: SelectionState): (completion: Option<Completion>)
    ensures completion.Some? <==> SelectionsOf(after) != SelectionsOf(before) && ReadyToComplete(after)
    ensures completion.Some? ==>
      completion.value == Completion(after.service.value, after.professional, after.date.value, after.timeSlot.value)
  {
    if SelectionsOf(after) != SelectionsOf(before) && ReadyToComplete(after)
    then Some(Completion(after.service.value, after.professional, after.date.value, after.timeSlot.value))
    else None
  }

  // ---------------------------------------------------------------------------
  // The page as a state machine

  /** What can happen: a visitor action, or a pending query resolving. */
  datatype Event =
    | ChooseService(service: Service)
    | ChooseProfessional(professional: Option<Professional>)
    | ChooseDate(date: string)
    | ChooseSlot(slot: AvailableSlot)
    | RetrySlots
    | ServicesArrived(servicesOutcome: FetchOutcome<Option<seq<Service>>>)
    | ProfessionalsArrived(professionalsOutcome: FetchOutcome<Option<seq<Option<Professional>>>>)
    | SlotsArrived(slotsOutcome: FetchOutcome<Option<seq<AvailableSlot>>>)

  predicate IsSelectionEvent(e: Event)
  {
    e.ChooseService? || e.ChooseProfessional? || e.ChooseDate? || e.ChooseSlot?
  }

  function ServiceView(s: SelectionState): ServiceSelector.View
  {
    ServiceSelector.Render(s.availableServices, s.service, s.loadingServices, s.serviceError)
  }

  function ProfessionalView(s: SelectionState): ProfessionalSelector.View
  {
    ProfessionalSelector.Render(s.availableProfessionals, s.professional, s.loadingProfessionals, s.professionalError)
  }

  function SlotView(s: SelectionState): TimeSlotGrid.View
  {
    TimeSlotGrid.Render(s.availableSlots, s.timeSlot, s.loadingSlots, s.slotError)
  }

  /** `value={selectedDate || ""}`: what the date input shows. */
  function ShownDate(date: Option<string>): string
  {
    if date.Some? then date.value else ""
  }

  /** Which visitor actions the page offers: a service card exists only in
      the service grid; the professional selector and the date input only once
      a service is set; the slot grid (and its retry) only with a service and
      a truthy date. The date input reports only a change of its value.
      Responses may arrive at any time. */
  predicate Enabled(s: SelectionState, e: Event)
  {
    match e
    case ChooseService(service) =>
      ServiceView(s).Cards? && service in s.availableServices
    case ChooseProfessional(professional) =>
      s.service.Some? && ProfessionalView(s).Choices?
      && (professional.None? || professional.value in s.availableProfessionals)
    case ChooseDate(date) =>
      s.service.Some? && date != ShownDate(s.date)
    case ChooseSlot(slot) =>
      s.service.Some? && Truthy(s.date) && SlotView(s).Grid? && slot in s.availableSlots
    case RetrySlots =>
      s.service.Some? && Truthy(s.date) && SlotView(s).ErrorShown?
    case _ => true
  }

  /** The state update an event makes by itself, as the code is written:
      every choice runs its updater (the retry's own update is the start of
      the fetch it issues, applied by `Step`). */
  function HandleAsWritten(s: SelectionState, e: Event): SelectionState
  {
    match e
    case ChooseService(service) => ServiceChosen(s, service)
    case ChooseProfessional(professional) => ProfessionalChosen(s, professional)
    case ChooseDate(date) => DateChosen(s, date)
    case ChooseSlot(slot) => SlotChosen(s, slot)
    case RetrySlots => s
    case ServicesArrived(outcome) => ServicesFetchFinished(s, outcome)
    case ProfessionalsArrived(outcome) => ProfessionalsFetchFinished(s, outcome)
    case SlotsArrived(outcome) => SlotsFetchFinished(s, outcome)
  }

  /** What the controller does after a transition: fetches issued and the
      completion fired. */
  datatype Reaction = Reaction(
    professionalsFetch: Option<string>,
    slotsFetch: Option<SlotRequest>,
    completion: Option<Completion>)

  /** The effects' reaction to the transition from `before` to `after` made
      by `e`; a retry issues the current slot request directly. */
  function React(before: SelectionState, e: Event, after: SelectionState): Reaction
  {
    Reaction(
      ProfessionalsFetchIssued(before, after),
      if e.RetrySlots? then SlotsRequest(after) else SlotsFetchIssued(before, after),
      CompletionFired(before, after))
  }

  /** The reaction to an event in a state. */
  function Effects(s: SelectionState, e: Event): Reaction
  {
    React(s, e, HandleAsWritten(s, e))
  }

  /** Each issued fetch runs its start synchronously. */
  function StartIssued(s: SelectionState, r: Reaction): (t: SelectionState)
    ensures SelectionsOf(t) == SelectionsOf(s) && ServicesOf(t) == ServicesOf(s)
    ensures ProfessionalsOf(t) == if r.professionalsFetch.Some? then ProfessionalsOf(s).(loading := true, error := None) else ProfessionalsOf(s)
    ensures SlotsOf(t) == if r.slotsFetch.Some? then SlotsOf(s).(loading := true, error := None) else SlotsOf(s)
  {
    var s1 := if r.professionalsFetch.Some? then ProfessionalsFetchStarted(s) else s;
    if r.slotsFetch.Some? then SlotsFetchStarted(s1) else s1
  }

  /** One step of the page: the event's update, then the starts of the fetches it triggered. */
  function Step(s: SelectionState, e: Event): SelectionState
  {
    StartIssued(HandleAsWritten(s, e), Effects(s, e))
  }

  /** The state once mounted: the mount effect starts the services fetch (the
      other effects find no service and do nothing). */
  function Mounted(): SelectionState
  {
    ServicesFetchStarted(InitialState())
  }

  /** Starting the services fetch on mount changes nothing visible: the
      initial state already shows services loading with no error. */
  lemma MountedIsInitial()
    ensures Mounted() == InitialState()
    ensures ServiceView(Mounted()) == ServiceSelector.Loading
  {
  }

  function Run(s: SelectionState, events: seq<Event>): SelectionState
    decreases |events|
  {
    if events == [] then s else Run(Step(s, events[0]), events[1..])
  }

  predicate EnabledTrace(s: SelectionState, events: seq<Event>)
    decreases |events|
  {
    events == [] || (Enabled(s, events[0]) && EnabledTrace(Step(s, events[0]), events[1..]))
  }

  // ---------------------------------------------------------------------------
  // Properties of the state machine

  /** Every downstream selection has its upstream selection: a professional
      or a date only with a service, a slot only with a service and a truthy date. */
  predicate Consistent(s: SelectionState)
  {
    (s.professional.Some? ==> s.service.Some?)
    && (s.date.Some? ==> s.service.Some?)
    && (s.timeSlot.Some? ==> s.service.Some? && Truthy(s.date))
  }

  lemma StepKeepsConsistent(s: SelectionState, e: Event)
    requires Consistent(s) && Enabled(s, e)
    ensures Consistent(Step(s, e))
  {
  }

  /** Every state the page can reach from mounting is consistent. */
  lemma {:induction false} ReachableStatesConsistent(s: SelectionState, events: seq<Event>)
    requires Consistent(s) && EnabledTrace(s, events)
    ensures Consistent(Run(s, events))
    decreases |events|
  {
    if events != [] {
      StepKeepsConsistent(s, events[0]);
      ReachableStatesConsistent(Step(s, events[0]), events[1..]);
    }
  }

  /** From the mounted page, then, completion is ready exactly when a slot is set. */
  lemma ReadyIffSlotChosen(events: seq<Event>)
    requires EnabledTrace(Mounted(), events)
    ensures ReadyToComplete(Run(Mounted(), events)) <==> Run(Mounted(), events).timeSlot.Some?
  {
    ReachableStatesConsistent(Mounted(), events);
  }

  /** Completion can only fire in reaction to a slot choice: every other
      handler clears the slot, and responses leave the selections alone. */
  lemma CompletionOnlyOnSlotChoice(s: SelectionState, e: Event)
    ensures Effects(s, e).completion.Some? ==> e.ChooseSlot?
  {
  }

  /** And choosing a new slot in a consistent state always fires it, with the
      current service, professional (possibly null) and date. */
  lemma SlotChoiceCompletes(s: SelectionState, slot: AvailableSlot)
    requires Consistent(s) && Enabled(s, ChooseSlot(slot)) && s.timeSlot != Some(slot)
    ensures Effects(s, ChooseSlot(slot)).completion == Some(Completion(s.service.value, s.professional, s.date.value, slot))
  {
  }

  /** Professionals are fetched only when a service card picks a service
      different from the current one, and then always. */
  lemma ProfessionalsFetchedOnServiceChange(s: SelectionState, e: Event)
    ensures Effects(s, e).professionalsFetch.Some? <==> e.ChooseService? && s.service != Some(e.service)
    ensures Effects(s, e).professionalsFetch.Some? ==> Effects(s, e).professionalsFetch == Some(e.service.id)
  {
  }

  /** Slots are requested, by the effect or by the retry, only with a service
      and a truthy date, for exactly those and the professional's id or null. */
  lemma SlotsRequestedOnlyWhenReady(s: SelectionState, e: Event)
    ensures var t := HandleAsWritten(s, e);
      Effects(s, e).slotsFetch.Some? ==>
        t.service.Some? && Truthy(t.date)
        && Effects(s, e).slotsFetch == Some(SlotRequest(t.service.value.id, ProfessionalIdOrNull(t.professional), t.date.value))
  {
  }

  /** The retry re-issues the very request the effect issued, as long as no
      selection changed since: responses and retries do not touch selections. */
  lemma {:induction false} RetryRepeatsRequest(s: SelectionState, e: Event, events: seq<Event>)
    requires Effects(s, e).slotsFetch.Some?
    requires forall k :: 0 <= k < |events| ==> !IsSelectionEvent(events[k])
    ensures SlotsRequest(Run(Step(s, e), events)) == Effects(s, e).slotsFetch
  {
    RunWithoutSelectionsKeepsSelections(Step(s, e), events);
  }

  lemma {:induction false} RunWithoutSelectionsKeepsSelections(s: SelectionState, events: seq<Event>)
    requires forall k :: 0 <= k < |events| ==> !IsSelectionEvent(events[k])
    ensures SelectionsOf(Run(s, events)) == SelectionsOf(s)
    decreases |events|
  {
    if events != [] {
      RunWithoutSelectionsKeepsSelections(Step(s, events[0]), events[1..]);
    }
  }

  /** Nothing guards against a late response: whichever slot response is
      applied last is what the grid lists, even if it answered an older request. */
  lemma LastSlotsResponseWins(s: SelectionState, newer: seq<AvailableSlot>, stale: seq<AvailableSlot>)
    ensures Run(s, [SlotsArrived(Success(Some(newer))), SlotsArrived(Success(Some(stale)))]).availableSlots == stale
  {
    var events := [SlotsArrived(Success(Some(newer))), SlotsArrived(Success(Some(stale)))];
    var t := Step(s, events[0]);
    assert events[1..] == [events[1]];
    assert [events[1]][1..] == [];
    assert Run(t, [events[1]]) == Step(t, events[1]);
  }

  // ---------------------------------------------------------------------------
  // Re-selecting the current service or professional (see README, Findings)

  /** What a selection event is meant to guarantee: a dependent list it
      discards while that list is still needed is fetched again. */
  predicate ClearedListsRefetched(before: SelectionState, after: SelectionState, r: Reaction)
  {
    (after.availableProfessionals != before.availableProfessionals && after.service.Some? ==> r.professionalsFetch.Some?)
    && (after.availableSlots != before.availableSlots && SlotsRequest(after).Some? ==> r.slotsFetch.Some?)
  }

  function SampleService(): Service
  {
    Service("s1", "Corte", None, 30, None, true, None)
  }

  function SampleProfessional(): Professional
  {
    Professional("p1", "Ana", None, None, true, None)
  }

  /** The page after choosing a service and the date 2025-06-01 with no
      preference, both lists loaded. */
  function SampleLoaded(): (s: SelectionState)
    ensures Consistent(s)
  {
    SelectionState(
      Some(SampleService()), None, Some("2025-06-01"), None,
      false, false, false, None, None, None,
      [SampleService()], [SampleProfessional()], [AvailableSlot("2025-06-01T10:00:00Z", "2025-06-01T10:30:00Z")])
  }

  /** As written: clicking "sin preferencia" while it is already selected
      empties the slot list, but the slots effect sees no dependency change
      and fetches nothing, so the grid shows "no slots". */
  lemma ReselectingNoPreferenceEmptiesSlots()
    ensures var s, e := SampleLoaded(), ChooseProfessional(None);
      var t := HandleAsWritten(s, e);
      var r := React(s, e, t);
      Enabled(s, e)
      && t.availableSlots == [] && r.slotsFetch.None?
      && SlotView(StartIssued(t, r)) == TimeSlotGrid.Empty
      && !ClearedListsRefetched(s, t, r)
  {
    var s, e := SampleLoaded(), ChooseProfessional(None);
    assert ProfessionalView(s).Choices?;
    assert SlotsRequest(HandleAsWritten(s, e)).Some?;
  }

  /** As written: clicking the selected service's card again empties the
      professional list without a refetch, so the professional selector
      shows "no professionals" and offers no "sin preferencia". */
  lemma ReselectingServiceEmptiesProfessionals()
    ensures var s, e := SampleLoaded(), ChooseService(SampleService());
      var t := HandleAsWritten(s, e);
      var r := React(s, e, t);
      Enabled(s, e)
      && t.availableProfessionals == [] && r.professionalsFetch.None?
      && ProfessionalView(StartIssued(t, r)) == ProfessionalSelector.Empty
      && !ClearedListsRefetched(s, t, r)
  {
    var s, e := SampleLoaded(), ChooseService(SampleService());
    assert ServiceView(s).Cards?;
  }

  /** A choice of the service, professional or date already chosen. */
  predicate IsReselection(s: SelectionState, e: Event)
  {
    match e
    case ChooseService(service) => s.service == Some(service)
    case ChooseProfessional(professional) => s.professional == professional
    case ChooseDate(date) => s.date == Some(date)
    case _ => false
  }

  /** The corrected update: a re-selection changes nothing; every other
      event runs its updater as written. */
  function CorrectedHandle(s: SelectionState, e: Event): SelectionState
  {
    if IsReselection(s, e) then s else HandleAsWritten(s, e)
  }

  function CorrectedEffects(s: SelectionState, e: Event): Reaction
  {
    React(s, e, CorrectedHandle(s, e))
  }

  function CorrectedStep(s: SelectionState, e: Event): SelectionState
  {
    StartIssued(CorrectedHandle(s, e), CorrectedEffects(s, e))
  }

  /** The correction changes the page's behaviour on re-selections only,
      where it leaves the page as it is and reacts with nothing; so it keeps
      every state consistent, as the code does. */
  lemma CorrectedStepAgrees(s: SelectionState, e: Event)
    ensures !IsReselection(s, e) ==> CorrectedStep(s, e) == Step(s, e) && CorrectedEffects(s, e) == Effects(s, e)
    ensures IsReselection(s, e) ==> CorrectedStep(s, e) == s && CorrectedEffects(s, e) == Reaction(None, None, None)
    ensures Consistent(s) && Enabled(s, e) ==> Consistent(CorrectedStep(s, e))
  {
    if Consistent(s) && Enabled(s, e) && !IsReselection(s, e) {
      StepKeepsConsistent(s, e);
    }
  }

  /** With the corrected handlers, every selection event refetches each list
      it discards while the list is still needed, in every state. */
  lemma HandlersRefetchClearedLists(s: SelectionState, e: Event)
    requires IsSelectionEvent(e)
    ensures ClearedListsRefetched(s, CorrectedHandle(s, e), CorrectedEffects(s, e))
  {
  }

  // ---------------------------------------------------------------------------
  // The component

  /** The component's state cell. Each method is one `setState` (or the
      controller's reaction to one). */
  class SelectionStore {
    var state: SelectionState

    /** `useState(...)` followed by the mount effect's `fetchServices()` start. */
    constructor ()
      ensures state == Mounted()
    {
      state := ServicesFetchStarted(InitialState());
    }

    method HandleServiceSelect(service: Service)
      modifies this
      ensures state == ServiceChosen(old(state), service)
    {
      state := ServiceChosen(state, service);
    }

    method HandleProfessionalSelect(professional: Option<Professional>)
      modifies this
      ensures state == ProfessionalChosen(old(state), professional)
    {
      state := ProfessionalChosen(state, professional);
    }

    method HandleDateSelect(date: string)
      modifies this
      ensures state == DateChosen(old(state), date)
    {
      state := DateChosen(state, date);
    }

    method HandleTimeSlotSelect(slot: AvailableSlot)
      modifies this
      ensures state == SlotChosen(old(state), slot)
    {
      state := SlotChosen(state, slot);
    }

    method StartServicesFetch()
      modifies this
      ensures state == ServicesFetchStarted(old(state))
    {
      state := ServicesFetchStarted(state);
    }

    method FinishServicesFetch(outcome: FetchOutcome<Option<seq<Service>>>)
      modifies this
      ensures state == ServicesFetchFinished(old(state), outcome)
    {
      state := ServicesFetchFinished(state, outcome);
    }

    method StartProfessionalsFetch()
      modifies this
      ensures state == ProfessionalsFetchStarted(old(state))
    {
      state := ProfessionalsFetchStarted(state);
    }

    method FinishProfessionalsFetch(outcome: FetchOutcome<Option<seq<Option<Professional>>>>)
      modifies this
      ensures state == ProfessionalsFetchFinished(old(state), outcome)
    {
      state := ProfessionalsFetchFinished(state, outcome);
    }

    method StartSlotsFetch()
      modifies this
      ensures state == SlotsFetchStarted(old(state))
    {
      state := SlotsFetchStarted(state);
    }

    method FinishSlotsFetch(outcome: FetchOutcome<Option<seq<AvailableSlot>>>)
      modifies this
      ensures state == SlotsFetchFinished(old(state), outcome)
    {
      state := SlotsFetchFinished(state, outcome);
    }

    /** `handleRetrySlots`: with a service and a date, re-issue the slot
      request built from the current state (and run its start). */
    method HandleRetrySlots() returns (request: Option<SlotRequest>)
      modifies this
      ensures request == SlotsRequest(old(state))
      ensures state == if request.Some? then SlotsFetchStarted(old(state)) else old(state)
    {
      request := SlotsRequest(state);
      if request.Some? {
        StartSlotsFetch();
      }
    }

    /** One event and the controller's reaction: the handler's update (a
      choice of the value already chosen is skipped), then the effects, in
      declaration order, starting the fetches they issue. */
    method Dispatch(e: Event) returns (reaction: Reaction)
      modifies this
      ensures reaction == CorrectedEffects(old(state), e)
      ensures state == CorrectedStep(old(state), e)
      ensures Consistent(old(state)) && Enabled(old(state), e) ==> Consistent(state)
    {
      var before := state;
      match e {
        case ChooseService(service) =>
          if state.service != Some(service) {
            HandleServiceSelect(service);
          }
        case ChooseProfessional(professional) =>
          if state.professional != professional {
            HandleProfessionalSelect(professional);
          }
        case ChooseDate(date) =>
          if state.date != Some(date) {
            HandleDateSelect(date);
          }
        case ChooseSlot(slot) => HandleTimeSlotSelect(slot);
        case RetrySlots =>
        case ServicesArrived(outcome) => FinishServicesFetch(outcome);
        case ProfessionalsArrived(outcome) => FinishProfessionalsFetch(outcome);
        case SlotsArrived(outcome) => FinishSlotsFetch(outcome);
      }
      reaction := React(before, e, state);
      if reaction.professionalsFetch.Some? {
        StartProfessionalsFetch();
      }
      if reaction.slotsFetch.Some? {
        StartSlotsFetch();
      }
      CorrectedStepAgrees(before, e);
    }
  }
}
