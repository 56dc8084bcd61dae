/** components/booking/Step1Selection/ServiceSelector.tsx: which of its four
    faces the service list shows, and what each service card carries. */
module ServiceSelector {
  import opened Types
  import BookingHelpers

  /** A service card: the service its click hands to `onSelect`, whether it is
      shown pressed, and the minutes it displays. */
  datatype ServiceCard = ServiceCard(service: Service, selected: bool, totalMinutes: int)

  /** The four faces, tried in this order: spinner, error (here without a
      retry button), empty notice, card grid. */
  datatype View =
    | Loading
    | ErrorShown(message: string, retryOffered: bool)
    | Empty
    | Cards(cards: seq<ServiceCard>)

  /** `selectedService?.id === service.id`: never true when nothing is selected. */
  predicate IsSelected(selected: Option<Service>, service: Service)
  {
    selected.Some? && selected.value.id == service.id
  }

  function CardFor(service: Service, selected: Option<Service>): ServiceCard
  {
    ServiceCard(service, IsSelected(selected, service), BookingHelpers.TotalDuration(service))
  }

  /** The component's output. Loading wins over everything; then a truthy
      error; then an empty list; only then the grid, whose i-th card carries
      the i-th service, is pressed iff its id is the selected service's, and
      shows that service's total duration. */
  function Render(services: seq<Service>, selected: Option<Service>, loading: bool, error: Option<string>): (view: View)
    ensures view == Loading <==> loading
    ensures view.ErrorShown? <==> !loading && Truthy(error)
    ensures view.ErrorShown? ==> view.message == error.value && !view.retryOffered
    ensures view == Empty <==> !loading && !Truthy(error) && services == []
    ensures view.Cards? ==>
      |view.cards| == |services|
      && forall i :: 0 <= i < |services| ==>
           view.cards[i].service == services[i]
           && (view.cards[i].selected <==> selected.Some? && selected.value.id == services[i].id)
           && view.cards[i].totalMinutes == BookingHelpers.TotalDuration(services[i])
  {
    if loading then Loading
    else if Truthy(error) then ErrorShown(error.value, false)
    else if |services| == 0 then Empty
    else Cards(seq(|services|, i requires 0 <= i < |services| => CardFor(services[i], selected)))
  }

  /** No two services share an id (they are rows keyed by id). */
  predicate UniqueIds(services: seq<Service>)
  {
    forall i, j :: 0 <= i < |services| && 0 <= j < |services| && services[i].id == services[j].id ==> i == j
  }

  /** With nothing selected no card is pressed; with unique ids at most one is. */
  lemma AtMostOneServicePressed(services: seq<Service>, selected: Option<Service>, error: Option<string>)
    requires UniqueIds(services)
    ensures var view := Render(services, selected, false, error);
      view.Cards? ==>
        (selected.None? ==> forall i :: 0 <= i < |view.cards| ==> !view.cards[i].selected)
        && (forall i, j ::
              (0 <= i < |view.cards| && 0 <= j < |view.cards| && view.cards[i].selected && view.cards[j].selected) ==> i == j)
  {
  }
}
