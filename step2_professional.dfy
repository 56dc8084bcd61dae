/** components/booking/Step2Professional.tsx: page 2 of the wizard. It
    fetches the active professionals linked to the chosen service (again
    whenever the service's id changes, and on "Reintentar"), and always offers
    "sin preferencia", even when the list is empty. */
module Step2Professional {
  import opened Types
  import ProfessionalSelector

  const ErrorMessage: string := "No se pudieron cargar los profesionales."

  /** The component's prop and its three state cells. */
  datatype ProfessionalsState = ProfessionalsState(
    service: Service,
    professionals: seq<Professional>,
    loading: bool,
    error: Option<string>)

  function Initial(service: Service): (s: ProfessionalsState)
    ensures s.service == service && s.professionals == [] && s.loading && s.error.None?
  {
    ProfessionalsState(service, [], true, None)
  }

  /** `data?.map(item => item.professionals).filter(Boolean) || []`: the
      joined professionals that are present, in row order; no rows at all
      (null data) gives the empty list. */
  function Extract(data: Option<seq<Option<Professional>>>): (list: seq<Professional>)
    ensures data.None? ==> list == []
    ensures data.Some? ==> |list| <= |data.value| && forall p :: p in list <==> Some(p) in data.value
  {
    if data.Some? then Somes(data.value) else []
  }

  function Started(s: ProfessionalsState): (t: ProfessionalsState)
    ensures t.loading && t.error.None? && t.professionals == s.professionals && t.service == s.service
  {
    s.(loading := true, error := None)
  }

  /** The end of `fetchProfessionals`: the extracted list on success; the
      fixed message on failure, the list kept; loading ends either way. */
  function Finished(s: ProfessionalsState, outcome: FetchOutcome<Option<seq<Option<Professional>>>>): (t: ProfessionalsState)
    ensures !t.loading && t.service == s.service
    ensures outcome.Success? ==> t.error == s.error && t.professionals == Extract(outcome.data)
    ensures outcome.Failure? ==> t.error == Some(ErrorMessage) && t.professionals == s.professionals
  {
    match outcome
    case Success(data) => s.(professionals := Extract(data), loading := false)
    case Failure => s.(error := Some(ErrorMessage), loading := false)
  }

  /** The effect on `[service.id]`: a new service prop refetches exactly when its id differs. */
  function ServiceReceived(s: ProfessionalsState, service: Service): (t: ProfessionalsState)
    ensures t.service == service
    ensures service.id != s.service.id ==> t == Started(s.(service := service))
    ensures service.id == s.service.id ==> t == s.(service := service)
  {
    var s1 := s.(service := service);
    if service.id != s.service.id then Started(s1) else s1
  }

  datatype View =
    | Loading
    | ErrorWithRetry(message: string)
    | Choices(offered: seq<Option<Professional>>, emptyNotice: bool)

  /** Spinner, then a truthy error with "Volver" and "Reintentar", then the
      "sin preferencia" button (None) followed by one card per professional,
      with the empty notice exactly when there are none. */
  function Render(s: ProfessionalsState): (view: View)
    ensures view == Loading <==> s.loading
    ensures view.ErrorWithRetry? <==> !s.loading && Truthy(s.error)
    ensures view.ErrorWithRetry? ==> view.message == s.error.value
    ensures view.Choices? ==>
      |view.offered| == 1 + |s.professionals|
      && view.offered[0] == None
      && (forall i :: 0 <= i < |s.professionals| ==> view.offered[i + 1] == Some(s.professionals[i]))
      && (view.emptyNotice <==> s.professionals == [])
  {
    if s.loading then Loading
    else if Truthy(s.error) then ErrorWithRetry(s.error.value)
    else Choices([None] + seq(|s.professionals|, i requires 0 <= i < |s.professionals| => Some(s.professionals[i])), |s.professionals| == 0)
  }

  /** Once the list is shown, "sin preferencia" is offered whatever the list
      holds, unlike the single-page selector, which offers nothing for an
      empty list. */
  lemma NoPreferenceAlwaysOffered(s: ProfessionalsState)
    requires !s.loading && !Truthy(s.error)
    ensures Render(s).Choices? && None in Render(s).offered
    ensures s.professionals == [] ==>
      Render(s).offered == [None]
      && ProfessionalSelector.Offered(ProfessionalSelector.Render(s.professionals, None, s.loading, s.error)) == []
  {
    assert Render(s).offered[0] == None;
  }

  /** A fetch from start to end decides the page: error with retry exactly on
      failure; otherwise "sin preferencia" followed by exactly the joined
      professionals that are present. */
  lemma FetchDecidesView(s: ProfessionalsState, outcome: FetchOutcome<Option<seq<Option<Professional>>>>)
    ensures var view := Render(Finished(Started(s), outcome));
      (view == ErrorWithRetry(ErrorMessage) <==> outcome.Failure?)
      && (outcome.Success? ==>
            view.Choices?
            && view.offered[0] == None
            && (forall p :: Some(p) in view.offered[1..] <==> p in Extract(outcome.data)))
  {
    var view := Render(Finished(Started(s), outcome));
    if outcome.Success? {
      var list := Extract(outcome.data);
      forall p ensures Some(p) in view.offered[1..] <==> p in list {
        if p in list {
          var i :| 0 <= i < |list| && list[i] == p;
          assert view.offered[1..][i] == Some(p);
        }
        if Some(p) in view.offered[1..] {
          var k :| 0 <= k < |view.offered[1..]| && view.offered[1..][k] == Some(p);
          assert view.offered[k + 1] == Some(list[k]);
        }
      }
    }
  }

  class ProfessionalPage {
    var service: Service
    var professionals: seq<Professional>
    var loading: bool
    var error: Option<string>

    function State(): ProfessionalsState
      reads this
    {
      ProfessionalsState(service, professionals, loading, error)
    }

    /** Mounted for a service: the initial state, which the mount effect's start leaves as it is. */
    constructor (service: Service)
      ensures State() == Initial(service) && State() == Started(Initial(service))
    {
      this.service := service;
      professionals := [];
      loading := true;
      error := None;
    }

    /** `fetchProfessionals` up to its `await` (the effect, and "Reintentar"). */
    method StartFetch()
      modifies this
      ensures State() == Started(old(State()))
    {
      loading := true;
      error := None;
    }

    method FinishFetch(outcome: FetchOutcome<Option<seq<Option<Professional>>>>)
      modifies this
      ensures State() == Finished(old(State()), outcome)
    {
      match outcome {
        case Success(data) =>
          professionals := if data.Some? then Somes(data.value) else [];
        case Failure =>
          error := Some(ErrorMessage);
      }
      loading := false;
    }

    /** A re-render with a service prop; the effect runs when its id changed. */
    method ReceiveService(newService: Service)
      modifies this
      ensures State() == ServiceReceived(old(State()), newService)
    {
      var changed := newService.id != service.id;
      service := newService;
      if changed {
        StartFetch();
      }
    }

    /** A click on the i-th offered button: `onSelectProfessional` receives
      null for "sin preferencia" (the first) and the card's professional for
      the others. */
    method Click(i: nat) returns (choice: Option<Professional>)
      requires Render(State()).Choices? && i < |Render(State()).offered|
      ensures i == 0 ==> choice.None?
      ensures i > 0 ==> choice == Some(professionals[i - 1])
    {
      choice := Render(State()).offered[i];
    }
  }
}
