/** components/booking/Step1Selection/ProfessionalSelector.tsx: which face the
    professional list shows, and which of its buttons is pressed. "Sin
    preferencia" is the null selection. */
module ProfessionalSelector {
  import opened Types

  /** A button: what its click hands to `onSelect` (None for "sin
      preferencia") and whether it is shown pressed. */
  datatype Choice = Choice(payload: Option<Professional>, pressed: bool)

  datatype View =
    | Loading
    | ErrorShown(message: string, retryOffered: bool)
    | Empty
    | Choices(noPreference: Choice, cards: seq<Choice>)

  /** `selectedProfessional?.id === professional.id` */
  predicate IsSelected(selected: Option<Professional>, professional: Professional)
  {
    selected.Some? && selected.value.id == professional.id
  }

  /** The component's output: spinner, then a truthy error (no retry), then
      the empty notice, then the "sin preferencia" button followed by one card
      per professional. "Sin preferencia" is pressed iff the selection is null;
      a card is pressed iff its id is the selected professional's. */
  function Render(professionals: seq<Professional>, selected: Option<Professional>, loading: bool, error: Option<string>): (view: View)
    ensures view == Loading <==> loading
    ensures view.ErrorShown? <==> !loading && Truthy(error)
    ensures view.ErrorShown? ==> view.message == error.value && !view.retryOffered
    ensures view == Empty <==> !loading && !Truthy(error) && professionals == []
    ensures view.Choices? ==>
      view.noPreference == Choice(None, selected.None?)
      && |view.cards| == |professionals|
      && forall i :: 0 <= i < |professionals| ==>
           view.cards[i].payload == Some(professionals[i])
           && (view.cards[i].pressed <==> selected.Some? && selected.value.id == professionals[i].id)
  {
    if loading then Loading
    else if Truthy(error) then ErrorShown(error.value, false)
    else if |professionals| == 0 then Empty
    else
      Choices(
        Choice(None, selected == None),
        seq(|professionals|, i requires 0 <= i < |professionals| =>
          Choice(Some(professionals[i]), IsSelected(selected, professionals[i]))))
  }

  /** Every button the view offers, "sin preferencia" first. */
  function Offered(view: View): (choices: seq<Choice>)
    ensures view.Choices? ==> |choices| == 1 + |view.cards| && choices[0] == view.noPreference
    ensures !view.Choices? ==> choices == []
  {
    if view.Choices? then [view.noPreference] + view.cards else []
  }

  predicate UniqueIds(professionals: seq<Professional>)
  {
    forall i, j ::
      (0 <= i < |professionals| && 0 <= j < |professionals| && professionals[i].id == professionals[j].id) ==> i == j
  }

  /** With an empty list there is no "sin preferencia" button either. */
  lemma NoPreferenceNeedsProfessionals(selected: Option<Professional>, loading: bool, error: Option<string>)
    ensures Offered(Render([], selected, loading, error)) == []
  {
  }

  /** With unique ids, at most one of all the offered buttons is pressed. */
  lemma AtMostOneProfessionalPressed(professionals: seq<Professional>, selected: Option<Professional>, error: Option<string>)
    requires UniqueIds(professionals)
    ensures var offered := Offered(Render(professionals, selected, false, error));
      forall i, j :: 0 <= i < |offered| && 0 <= j < |offered| && offered[i].pressed && offered[j].pressed ==> i == j
  {
    var view := Render(professionals, selected, false, error);
    var offered := Offered(view);
    if view.Choices? {
      assert forall k :: 1 <= k < |offered| ==> offered[k] == view.cards[k - 1];
    }
  }
}
