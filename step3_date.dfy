/** components/booking/Step3Date.tsx: page 3 of the wizard. A date input
    bounded by today and today plus three months, and a continue button that
    hands the date on only when one is chosen. */
module Step3Date {
  import opened Types
  import BookingHelpers

  /** The caption under the input: "" for no date; otherwise the long
      Spanish rendering, which depends on the locale tables and is a
      parameter here. */
  function FormatDate(dateString: string, longDate: string): (text: string)
    ensures dateString == "" ==> text == ""
    ensures dateString != "" ==> text == longDate
  {
    if dateString == "" then "" else longDate
  }

  /** "Profesional: …": the name, or "Sin preferencia" for null. */
  function ProfessionalCaption(professional: Option<Professional>): (caption: string)
    ensures professional.None? ==> caption == "Sin preferencia"
    ensures professional.Some? ==> caption == professional.value.name
  {
    if professional.Some? then professional.value.name else "Sin preferencia"
  }

  /** What the page shows besides its header. */
  datatype View = View(
    minDate: string,
    maxDate: string,
    inputValue: string,
    summary: Option<string>,
    continueDisabled: bool,
    buttonText: string)

  /** The page for a chosen date (possibly ""), today's calendar date and the
      long rendering of the chosen date: the input bounded by the helpers'
      min and max, the summary only with a date, and the button disabled and
      asking for a date exactly when none is chosen. */
  function Render(selectedDate: string, today: BookingHelpers.CalendarDate, longDate: string): (view: View)
    requires BookingHelpers.ValidDate(today)
    ensures view.minDate == BookingHelpers.MinBookingDate(today) && view.maxDate == BookingHelpers.MaxBookingDate(today)
    ensures view.inputValue == selectedDate
    ensures view.summary.Some? <==> selectedDate != ""
    ensures view.summary.Some? ==> view.summary.value == longDate
    ensures view.continueDisabled <==> selectedDate == ""
    ensures view.buttonText == (if selectedDate == "" then "Seleccioná una fecha para continuar" else "Continuar")
  {
    View(
      BookingHelpers.MinBookingDate(today),
      BookingHelpers.MaxBookingDate(today),
      selectedDate,
      if selectedDate != "" then Some(FormatDate(selectedDate, longDate)) else None,
      selectedDate == "",
      if selectedDate != "" then "Continuar" else "Seleccioná una fecha para continuar")
  }

  class DatePage {
    const service: Service
    const professional: Option<Professional>
    var selectedDate: string

    constructor (service: Service, professional: Option<Professional>)
      ensures this.service == service && this.professional == professional
      ensures selectedDate == ""
    {
      this.service := service;
      this.professional := professional;
      selectedDate := "";
    }

    /** `handleDateChange`: the input's value, whatever it is, becomes the selected date. */
    method HandleDateChange(value: string)
      modifies this
      ensures selectedDate == value
    {
      selectedDate := value;
    }

    /** `handleContinue`: `onSelectDate` is called, with the selected date,
      exactly when the date is non-empty, which is exactly when the button
      is enabled. */
    method HandleContinue(today: BookingHelpers.CalendarDate, longDate: string) returns (handedOn: Option<string>)
      requires BookingHelpers.ValidDate(today)
      ensures handedOn.Some? <==> !Render(selectedDate, today, longDate).continueDisabled
      ensures handedOn.Some? ==> handedOn.value == selectedDate && handedOn.value != ""
    {
      if selectedDate != "" {
        handedOn := Some(selectedDate);
      } else {
        handedOn := None;
      }
    }
  }

  /** The date page hands on only dates the date-picker can produce after a
      change: clearing the input and pressing continue hands on nothing. */
  lemma ClearedInputHandsOnNothing(today: BookingHelpers.CalendarDate, longDate: string)
    requires BookingHelpers.ValidDate(today)
    ensures Render("", today, longDate).continueDisabled
    ensures Render("", today, longDate).summary.None?
    ensures FormatDate("", longDate) == ""
  {
  }
}
