/** components/booking/Step1Service.tsx: page 1 of the wizard. It fetches
    the active services on mount (and again on "Reintentar") and shows a
    spinner, the error with a retry button, an empty notice, or one card per
    service. */
module Step1Service {
  import opened Types
  import BookingHelpers

  const ErrorMessage: string := "No se pudieron cargar los servicios. Por favor, intenta de nuevo."

  /** The component's three state cells. */
  datatype ServicesState = ServicesState(services: seq<Service>, loading: bool, error: Option<string>)

  /** `useState([])`, `useState(true)`, `useState(null)`. */
  function Initial(): (s: ServicesState)
    ensures s.services == [] && s.loading && s.error.None?
  {
    ServicesState([], true, None)
  }

  /** The start of `fetchServices`: spinner on, error cleared, list kept. */
  function Started(s: ServicesState): (t: ServicesState)
    ensures t.loading && t.error.None? && t.services == s.services
  {
    s.(loading := true, error := None)
  }

  /** The end of `fetchServices`: the rows (null read as []) on success, the
      fixed message on failure with the list kept; the `finally` ends loading. */
  function Finished(s: ServicesState, outcome: FetchOutcome<Option<seq<Service>>>): (t: ServicesState)
    ensures !t.loading
    ensures outcome.Success? ==> t.error == s.error && t.services == (if outcome.data.Some? then outcome.data.value else [])
    ensures outcome.Failure? ==> t.error == Some(ErrorMessage) && t.services == s.services
  {
    match outcome
    case Success(data) => s.(services := if data.Some? then data.value else [], loading := false)
    case Failure => s.(error := Some(ErrorMessage), loading := false)
  }

  /** The component's own `getTotalDuration`: the duration plus the buffer,
      a null buffer adding nothing. Page 4 writes the same expression inline
      (`Step4Time.DisplayedDuration`); both agree with the shared helper. */
  function LocalTotalDuration(service: Service): (minutes: int)
    ensures minutes == BookingHelpers.TotalDuration(service)
  {
    service.durationMinutes + (if service.bufferMinutes.Some? then service.bufferMinutes.value else 0)
  }

  /** A service card: what its click hands to `onSelectService`, and the minutes shown. */
  datatype Card = Card(service: Service, totalMinutes: int)

  datatype View =
    | Loading
    | ErrorWithRetry(message: string)
    | NoServices
    | Grid(cards: seq<Card>)

  /** Spinner, then a truthy error with the retry button, then the empty
      notice, then one card per service in list order. */
  function Render(s: ServicesState): (view: View)
    ensures view == Loading <==> s.loading
    ensures view.ErrorWithRetry? <==> !s.loading && Truthy(s.error)
    ensures view.ErrorWithRetry? ==> view.message == s.error.value
    ensures view == NoServices <==> !s.loading && !Truthy(s.error) && s.services == []
    ensures view.Grid? ==>
      |view.cards| == |s.services|
      && forall i :: 0 <= i < |s.services| ==>
           view.cards[i] == Card(s.services[i], BookingHelpers.TotalDuration(s.services[i]))
  {
    if s.loading then Loading
    else if Truthy(s.error) then ErrorWithRetry(s.error.value)
    else if |s.services| == 0 then NoServices
    else Grid(seq(|s.services|, i requires 0 <= i < |s.services| => Card(s.services[i], LocalTotalDuration(s.services[i]))))
  }

  /** While loading no error is set, and the only error ever set is the fixed message. */
  predicate Valid(s: ServicesState)
  {
    (s.loading ==> s.error.None?) && (s.error.Some? ==> s.error == Some(ErrorMessage))
  }

  /** One fetch, from its start to its end, decides the page: the error with
      retry exactly on failure, otherwise the fetched services as cards in
      order, or the empty notice when there are none. */
  lemma FetchDecidesView(s: ServicesState, outcome: FetchOutcome<Option<seq<Service>>>)
    ensures var view := Render(Finished(Started(s), outcome));
      (view == ErrorWithRetry(ErrorMessage) <==> outcome.Failure?)
      && (outcome.Success? ==>
            var rows := if outcome.data.Some? then outcome.data.value else [];
            (view == NoServices <==> rows == [])
            && (view.Grid? ==> forall i :: 0 <= i < |rows| ==> view.cards[i].service == rows[i]))
    ensures Valid(s) ==> Valid(Started(s)) && Valid(Finished(Started(s), outcome))
  {
  }

  /** The component's state cells. */
  class ServicePage {
    var services: seq<Service>
    var loading: bool
    var error: Option<string>

    function State(): ServicesState
      reads this
    {
      ServicesState(services, loading, error)
    }

    /** The initial state; the mount effect's start of `fetchServices` leaves it as it is. */
    constructor ()
      ensures State() == Initial() && State() == Started(Initial())
      ensures Valid(State())
    {
      services := [];
      loading := true;
      error := None;
    }

    /** `fetchServices` up to its `await` (on mount, and on "Reintentar"). */
    method StartFetch()
      modifies this
      ensures State() == Started(old(State()))
      ensures Valid(State())
    {
      loading := true;
      error := None;
    }

    /** `fetchServices` after its `await`. */
    method FinishFetch(outcome: FetchOutcome<Option<seq<Service>>>)
      requires Valid(State())
      modifies this
      ensures State() == Finished(old(State()), outcome)
      ensures Valid(State())
    {
      match outcome {
        case Success(data) =>
          services := if data.Some? then data.value else [];
        case Failure =>
          error := Some(ErrorMessage);
      }
      loading := false;
    }

    /** A card's click: `onSelectService` receives exactly the service on that card. */
    method ClickCard(i: nat) returns (selected: Service)
      requires Render(State()).Grid? && i < |Render(State()).cards|
      ensures selected == services[i]
      ensures BookingHelpers.TotalDuration(selected) == Render(State()).cards[i].totalMinutes
    {
      selected := Render(State()).cards[i].service;
    }
  }
}
