/** The records of lib/types.ts, and the two JavaScript notions the components
    lean on: a nullable value (`T | null`) and the truthiness of a nullable string. */
module Types {

  /** `T | null`: `None` is null. */
  datatype Option<+T> = None | Some(value: T)

  /** What a remote query hands back once it resolves: its payload, or an error
      (the error object itself is only logged, never inspected). */
  datatype FetchOutcome<+T> = Success(data: T) | Failure

  /** A row of the `services` table. `bufferMinutes` may be null; the
      duration is always present. */
  datatype Service = Service(
    id: string,
    name: string,
    description: Option<string>,
    durationMinutes: int,
    bufferMinutes: Option<int>,
    isActive: bool,
    createdAt: Option<string>)

  /** A row of the `professionals` table. */
  datatype Professional = Professional(
    id: string,
    name: string,
    email: Option<string>,
    phone: Option<string>,
    isActive: bool,
    createdAt: Option<string>)

  /** The four values of `Booking.status`. */
  datatype BookingStatus = Pending | Confirmed | Cancelled | Completed

  /** A row of the `bookings` table (written by the data store, carried through here). */
  datatype Booking = Booking(
    id: string,
    serviceId: string,
    professionalId: Option<string>,
    clientId: string,
    startTime: string,
    endTime: string,
    status: BookingStatus,
    notes: Option<string>,
    createdAt: Option<string>)

  /** One bookable window returned by `get_available_slots`: exactly a
      (start_time, end_time) pair of timestamp strings. */
  datatype AvailableSlot = AvailableSlot(startTime: string, endTime: string)

  /** The pages of the paginated wizard. */
  type WizardStep = n: int | 1 <= n <= 6 witness 1

  datatype ClientData = ClientData(name: string, email: string, phone: string, notes: Option<string>)

  /** What the paginated wizard has collected so far. Every field may be
      absent (its step not reached); `professional` is moreover nullable, and
      `Some(None)` (the visitor chose "sin preferencia") is a different value
      from `None` (the step was never completed). */
  datatype WizardData = WizardData(
    service: Option<Service>,
    professional: Option<Option<Professional>>,
    date: Option<string>,
    timeSlot: Option<AvailableSlot>,
    clientData: Option<ClientData>)

  const EmptyWizardData: WizardData := WizardData(None, None, None, None, None)

  /** The wire text of a booking status, as the string-literal union spells it. */
  function StatusText(status: BookingStatus): string
  {
    match status
    case Pending => "pending"
    case Confirmed => "confirmed"
    case Cancelled => "cancelled"
    case Completed => "completed"
  }

  /** The status a wire text denotes; any text outside the union is rejected. */
  function ParseStatus(text: string): (status: Option<BookingStatus>)
    ensures status.Some? <==> text in {"pending", "confirmed", "cancelled", "completed"}
  {
    if text == "pending" then Some(Pending)
    else if text == "confirmed" then Some(Confirmed)
    else if text == "cancelled" then Some(Cancelled)
    else if text == "completed" then Some(Completed)
    else None
  }

  /** Every status survives the trip to its wire text and back. */
  lemma ParseStatusText(status: BookingStatus)
    ensures ParseStatus(StatusText(status)) == Some(status)
  {
  }

  /** A text is accepted only if it is exactly the wire text of what it parses to. */
  lemma StatusTextOfParse(text: string)
    ensures ParseStatus(text).Some? ==> StatusText(ParseStatus(text).value) == text
  {
  }

  /** JavaScript truthiness of a `string | null`: null and "" are both falsy. */
  predicate Truthy(s: Option<string>)
  {
    s.Some? && s.value != ""
  }

  /** `xs.filter(Boolean)` over nullable entries: the non-null ones, in order. */
  function Somes<T(!new)>(xs: seq<Option<T>>): (ys: seq<T>)
    ensures |ys| <= |xs|
    ensures forall y :: y in ys <==> Some(y) in xs
  {
    if xs == [] then []
    else
      var rest := Somes(xs[1..]);
      assert xs == [xs[0]] + xs[1..];
      match xs[0]
      case None => rest
      case Some(x) => [x] + rest
  }

  /** Filtering keeps order: it distributes over concatenation. */
  lemma {:induction false} SomesAppend<T(!new)>(xs: seq<Option<T>>, zs: seq<Option<T>>)
    ensures Somes(xs + zs) == Somes(xs) + Somes(zs)
  {
    if xs == [] {
      assert xs + zs == zs;
    } else {
      assert (xs + zs)[1..] == xs[1..] + zs;
      SomesAppend(xs[1..], zs);
    }
  }

  /** With no null entry, filtering changes nothing but the wrapping. */
  lemma {:induction false} SomesAllPresent<T(!new)>(xs: seq<Option<T>>)
    requires forall i :: 0 <= i < |xs| ==> xs[i].Some?
    ensures |Somes(xs)| == |xs|
    ensures forall i :: 0 <= i < |xs| ==> Somes(xs)[i] == xs[i].value
  {
    if xs != [] {
      SomesAllPresent(xs[1..]);
    }
  }
}
