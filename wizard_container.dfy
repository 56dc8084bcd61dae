/** components/booking/WizardContainer.tsx: the paginated booking wizard. A
    step counter and the collected data; each selection handler stores its
    value and moves to the next page, "back" moves one page back. Unlike the
    single-page flow, redoing an earlier step clears nothing collected later. */
module WizardContainer {
  import opened Types

  /** The container's two state cells. */
  datatype WizardState = WizardState(step: WizardStep, data: WizardData)

  /** `useState(1)` and `useState({})`. */
  function Initial(): (s: WizardState)
    ensures s.step == 1 && s.data == EmptyWizardData
  {
    WizardState(1, EmptyWizardData)
  }

  // ---------------------------------------------------------------------------
  // Handlers

  /** `handleServiceSelect`: stores the service, moves to page 2, and keeps
      professional, date and slot as they were. */
  function ServiceSelected(s: WizardState, service: Service): (t: WizardState)
    ensures t.step == 2
    ensures t.data == s.data.(service := Some(service))
  {
    WizardState(2, s.data.(service := Some(service)))
  }

  /** `handleProfessionalSelect` (None is "sin preferencia", stored as a
      present null): stores it and moves to page 3. */
  function ProfessionalSelected(s: WizardState, professional: Option<Professional>): (t: WizardState)
    ensures t.step == 3
    ensures t.data == s.data.(professional := Some(professional))
    ensures t.data.professional.Some?
  {
    WizardState(3, s.data.(professional := Some(professional)))
  }

  /** `handleDateSelect`: stores the date and moves to page 4. */
  function DateSelected(s: WizardState, date: string): (t: WizardState)
    ensures t.step == 4
    ensures t.data == s.data.(date := Some(date))
  {
    WizardState(4, s.data.(date := Some(date)))
  }

  /** `handleTimeSelect`: stores a copy of the slot's two ends and moves to
      page 5. */
  function TimeSelected(s: WizardState, slot: AvailableSlot): (t: WizardState)
    ensures t.step == 5
    ensures t.data == s.data.(timeSlot := Some(slot))
  {
    WizardState(5, s.data.(timeSlot := Some(AvailableSlot(slot.startTime, slot.endTime))))
  }

  /** `handleBack`: one page back, except on page 1; the data is never touched. */
  function Back(s: WizardState): (t: WizardState)
    ensures s.step > 1 ==> t.step == s.step - 1
    ensures s.step == 1 ==> t.step == 1
    ensures t.data == s.data
  {
    if s.step > 1 then s.(step := s.step - 1) else s
  }

  // ---------------------------------------------------------------------------
  // Rendering

  /** What the content area holds: a step component with the props it is
      given, the page-5 placeholder, or nothing. */
  datatype Content =
    | Step1
    | Step2(service: Service)
    | Step3(service: Service, professional: Option<Professional>)
    | Step4(service: Service, professional: Option<Professional>, date: string)
    | Step5Placeholder
    | Blank

  /** `wizardData.professional || null`: an absent professional and a chosen
      "sin preferencia" are both passed as null. */
  function ProfessionalProp(professional: Option<Option<Professional>>): (prop: Option<Professional>)
    ensures prop.Some? <==> professional.Some? && professional.value.Some?
    ensures prop.Some? ==> professional == Some(prop)
  {
    if professional.Some? then professional.value else None
  }

  /** The guarded blocks of the content area: page 1 always, pages 2 and 3
      only with a service, page 4 only with a service and a truthy date, page
      5 always; page 6 has no block. */
  function ContentOf(s: WizardState): (content: Content)
    ensures content.Step1? <==> s.step == 1
    ensures content.Step2? <==> s.step == 2 && s.data.service.Some?
    ensures content.Step3? <==> s.step == 3 && s.data.service.Some?
    ensures content.Step4? <==> s.step == 4 && s.data.service.Some? && Truthy(s.data.date)
    ensures content.Step5Placeholder? <==> s.step == 5
    ensures (content.Step2? || content.Step3? || content.Step4?) ==> Some(content.service) == s.data.service
    ensures (content.Step3? || content.Step4?) ==> content.professional == ProfessionalProp(s.data.professional)
    ensures content.Step4? ==> Some(content.date) == s.data.date
  {
    var d := s.data;
    if s.step == 1 then Step1
    else if s.step == 2 && d.service.Some? then Step2(d.service.value)
    else if s.step == 3 && d.service.Some? then Step3(d.service.value, ProfessionalProp(d.professional))
    else if s.step == 4 && d.service.Some? && Truthy(d.date) then Step4(d.service.value, ProfessionalProp(d.professional), d.date.value)
    else if s.step == 5 then Step5Placeholder
    else Blank
  }

  // ---------------------------------------------------------------------------
  // The wizard as a state machine

  datatype WizardEvent =
    | ChooseService(service: Service)
    | ChooseProfessional(professional: Option<Professional>)
    | ChooseDate(date: string)
    | ChooseTime(slot: AvailableSlot)
    | GoBack

  /** Which handler the page on screen can call: each step component calls
      its own; the date page continues only with a non-empty date; every page
      after the first has a "Volver" button. */
  predicate Enabled(s: WizardState, e: WizardEvent)
  {
    var content := ContentOf(s);
    match e
    case ChooseService(_) => content.Step1?
    case ChooseProfessional(_) => content.Step2?
    case ChooseDate(date) => content.Step3? && date != ""
    case ChooseTime(_) => content.Step4?
    case GoBack => content.Step2? || content.Step3? || content.Step4? || content.Step5Placeholder?
  }

  function Apply(s: WizardState, e: WizardEvent): WizardState
  {
    match e
    case ChooseService(service) => ServiceSelected(s, service)
    case ChooseProfessional(professional) => ProfessionalSelected(s, professional)
    case ChooseDate(date) => DateSelected(s, date)
    case ChooseTime(slot) => TimeSelected(s, slot)
    case GoBack => Back(s)
  }

  function Run(s: WizardState, events: seq<WizardEvent>): WizardState
    decreases |events|
  {
    if events == [] then s else Run(Apply(s, events[0]), events[1..])
  }

  predicate EnabledTrace(s: WizardState, events: seq<WizardEvent>)
    decreases |events|
  {
    events == [] || (Enabled(s, events[0]) && EnabledTrace(Apply(s, events[0]), events[1..]))
  }

  /** Every page holds what the pages before it collected: a service from
      page 2 on, a professional choice (possibly "sin preferencia") from page
      3, a non-empty date from page 4, a slot on page 5; page 6 is never reached. */
  predicate Complete(s: WizardState)
  {
    s.step <= 5
    && (s.step >= 2 ==> s.data.service.Some?)
    && (s.step >= 3 ==> s.data.professional.Some?)
    && (s.step >= 4 ==> Truthy(s.data.date))
    && (s.step == 5 ==> s.data.timeSlot.Some?)
  }

  lemma ApplyKeepsComplete(s: WizardState, e: WizardEvent)
    requires Complete(s) && Enabled(s, e)
    ensures Complete(Apply(s, e))
  {
  }

  lemma {:induction false} ReachableStatesComplete(s: WizardState, events: seq<WizardEvent>)
    requires Complete(s) && EnabledTrace(s, events)
    ensures Complete(Run(s, events))
    decreases |events|
  {
    if events != [] {
      ApplyKeepsComplete(s, events[0]);
      ReachableStatesComplete(Apply(s, events[0]), events[1..]);
    }
  }

  /** In a complete state the content area is never blank: every guard of the
      current page holds, so its component is shown. */
  lemma CompleteNeverBlank(s: WizardState)
    requires Complete(s)
    ensures ContentOf(s) != Blank
  {
  }

  /** Hence, from the start, every reachable page shows its component, the
      step is never 6, and page 4 is always given a non-empty date. */
  lemma ReachablePagesShowContent(events: seq<WizardEvent>)
    requires EnabledTrace(Initial(), events)
    ensures var s := Run(Initial(), events);
      ContentOf(s) != Blank && s.step != 6
      && (ContentOf(s).Step4? ==> ContentOf(s).date != "")
  {
    ReachableStatesComplete(Initial(), events);
    CompleteNeverBlank(Run(Initial(), events));
  }

  /** Running a trace is taking its first event, then the rest. */
  lemma RunCons(s: WizardState, e: WizardEvent, rest: seq<WizardEvent>)
    ensures Run(s, [e] + rest) == Run(Apply(s, e), rest)
    ensures EnabledTrace(s, [e] + rest) <==> Enabled(s, e) && EnabledTrace(Apply(s, e), rest)
  {
    assert ([e] + rest)[1..] == rest;
  }

  /** The event that redoes the page before the current one with the value
      already collected for it. */
  function RedoEvent(s: WizardState): WizardEvent
    requires Complete(s) && s.step >= 2
  {
    if s.step == 2 then ChooseService(s.data.service.value)
    else if s.step == 3 then ChooseProfessional(s.data.professional.value)
    else if s.step == 4 then ChooseDate(s.data.date.value)
    else ChooseTime(s.data.timeSlot.value)
  }

  /** Going back and redoing the previous page with the same value is allowed
      and returns to the very same state: going back keeps every datum. */
  lemma BackThenRedoRestores(s: WizardState)
    requires Complete(s) && s.step >= 2
    ensures Enabled(s, GoBack) && Enabled(Back(s), RedoEvent(s))
    ensures Apply(Back(s), RedoEvent(s)) == s
  {
  }

  /** No cascade reset: going back from the placeholder page to the service
      page and choosing another service keeps the professional, date and slot
      chosen for the old service. */
  lemma RedoingServiceKeepsLaterData(s: WizardState, other: Service)
    requires Complete(s) && s.step == 5
    ensures var t := Run(s, [GoBack, GoBack, GoBack, GoBack, ChooseService(other)]);
      t.step == 2
      && t.data.service == Some(other)
      && t.data.professional == s.data.professional
      && t.data.date == s.data.date
      && t.data.timeSlot == s.data.timeSlot
      && EnabledTrace(s, [GoBack, GoBack, GoBack, GoBack, ChooseService(other)])
  {
    var s1 := Back(s);
    var s2 := Back(s1);
    var s3 := Back(s2);
    var s4 := Back(s3);
    RunCons(s4, ChooseService(other), []);
    RunCons(s3, GoBack, [ChooseService(other)]);
    RunCons(s2, GoBack, [GoBack, ChooseService(other)]);
    RunCons(s1, GoBack, [GoBack, GoBack, ChooseService(other)]);
    RunCons(s, GoBack, [GoBack, GoBack, GoBack, ChooseService(other)]);
  }

  // ---------------------------------------------------------------------------
  // The component

  class Wizard {
    var currentStep: WizardStep
    var wizardData: WizardData

    function State(): WizardState
      reads this
    {
      WizardState(currentStep, wizardData)
    }

    constructor ()
      ensures State() == Initial()
    {
      currentStep := 1;
      wizardData := EmptyWizardData;
    }

    method HandleServiceSelect(service: Service)
      modifies this
      ensures State() == ServiceSelected(old(State()), service)
    {
      wizardData := wizardData.(service := Some(service));
      currentStep := 2;
    }

    method HandleProfessionalSelect(professional: Option<Professional>)
      modifies this
      ensures State() == ProfessionalSelected(old(State()), professional)
    {
      wizardData := wizardData.(professional := Some(professional));
      currentStep := 3;
    }

    method HandleDateSelect(date: string)
      modifies this
      ensures State() == DateSelected(old(State()), date)
    {
      wizardData := wizardData.(date := Some(date));
      currentStep := 4;
    }

    method HandleTimeSelect(slot: AvailableSlot)
      modifies this
      ensures State() == TimeSelected(old(State()), slot)
    {
      wizardData := wizardData.(timeSlot := Some(AvailableSlot(slot.startTime, slot.endTime)));
      currentStep := 5;
    }

    method HandleBack()
      modifies this
      ensures State() == Back(old(State()))
    {
      if currentStep > 1 {
        currentStep := currentStep - 1;
      }
    }

    /** One event from the page on screen; completeness is kept. */
    method Dispatch(e: WizardEvent)
      modifies this
      ensures State() == Apply(old(State()), e)
      ensures Complete(old(State())) && Enabled(old(State()), e) ==> Complete(State())
    {
      ghost var before := State();
      match e {
        case ChooseService(service) => HandleServiceSelect(service);
        case ChooseProfessional(professional) => HandleProfessionalSelect(professional);
        case ChooseDate(date) => HandleDateSelect(date);
        case ChooseTime(slot) => HandleTimeSelect(slot);
        case GoBack => HandleBack();
      }
      if Complete(before) && Enabled(before, e) {
        ApplyKeepsComplete(before, e);
      }
    }
  }
}
