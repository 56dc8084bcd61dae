/** components/booking/StepIndicator.tsx: the six numbered circles of the
    paginated wizard, their labels and the lines between them, each classified
    against the current step. (The component's `totalSteps` prop is never read:
    the list of steps is fixed.) */
module StepIndicator {
  import Types

  datatype StepInfo = StepInfo(number: int, caption: string)

  /** The fixed list of steps, in order. */
  const Steps: seq<StepInfo> := [
    StepInfo(1, "Servicio"),
    StepInfo(2, "Profesional"),
    StepInfo(3, "Fecha"),
    StepInfo(4, "Horario"),
    StepInfo(5, "Datos"),
    StepInfo(6, "Confirmar")
  ]

  datatype Status = Current | Completed | Pending

  /** The three-way test of the circle: equal to the current step, before it, or after it. */
  function StatusOf(number: int, currentStep: int): (status: Status)
    ensures status == Current <==> number == currentStep
    ensures status == Completed <==> number < currentStep
    ensures status == Pending <==> number > currentStep
  {
    if number == currentStep then Current
    else if number < currentStep then Completed
    else Pending
  }

  datatype Colour = Rose | Green | Gray

  /** What the circle shows: a check mark or the step's number. */
  datatype CircleContent = CheckMark | Numeral(n: int)

  /** One rendered step: circle colour and content, label colour, and the
      colour of the line after it (none after the last step). */
  datatype StepView = StepView(
    number: int,
    caption: string,
    circle: Colour,
    content: CircleContent,
    labelColour: Colour,
    connector: Types.Option<Colour>)

  /** The circle's background, chosen by its own ternary chain. */
  function CircleColour(number: int, currentStep: int): Colour
  {
    if number == currentStep then Rose else if number < currentStep then Green else Gray
  }

  /** The label's text colour, chosen by a second ternary chain. */
  function LabelColour(number: int, currentStep: int): Colour
  {
    if number == currentStep then Rose else if number < currentStep then Green else Gray
  }

  function RenderStep(index: nat, currentStep: int): StepView
    requires index < |Steps|
  {
    var step := Steps[index];
    StepView(
      step.number,
      step.caption,
      CircleColour(step.number, currentStep),
      if step.number < currentStep then CheckMark else Numeral(step.number),
      LabelColour(step.number, currentStep),
      if index < |Steps| - 1 then Types.Some(if step.number < currentStep then Green else Gray) else Types.None)
  }

  /** The indicator for a current step: six views numbered 1..6 with the
      fixed labels; a check mark exactly on completed steps; a rose circle
      exactly on the current one; the label coloured like its circle; a line
      after every step but the last, green exactly when that step is completed. */
  function Render(currentStep: int): (views: seq<StepView>)
    ensures |views| == 6
    ensures forall i :: 0 <= i < 6 ==> views[i].number == i + 1 && views[i].caption == Steps[i].caption
    ensures forall i :: 0 <= i < 6 ==>
      (views[i].content == CheckMark <==> StatusOf(i + 1, currentStep) == Completed)
      && (views[i].content != CheckMark ==> views[i].content == Numeral(i + 1))
    ensures forall i :: 0 <= i < 6 ==>
      (views[i].circle == Rose <==> StatusOf(i + 1, currentStep) == Current)
      && (views[i].circle == Green <==> StatusOf(i + 1, currentStep) == Completed)
    ensures forall i :: 0 <= i < 6 ==> views[i].labelColour == views[i].circle
    ensures forall i :: 0 <= i < 6 ==>
      (views[i].connector.Some? <==> i < 5)
      && (views[i].connector == Types.Some(Green) <==> i < 5 && i + 1 < currentStep)
  {
    seq(|Steps|, i requires 0 <= i < |Steps| => RenderStep(i, currentStep))
  }

  /** How many of the views have a given status, counted from the front. */
  function CountStatus(views: seq<StepView>, status: Status, currentStep: int): nat
  {
    if views == [] then 0
    else
      CountStatus(views[..|views| - 1], status, currentStep)
      + (if StatusOf(views[|views| - 1].number, currentStep) == status then 1 else 0)
  }

  lemma {:induction false} CountPrefix(currentStep: int, k: nat)
    requires k <= 6
    ensures var prefix := Render(currentStep)[..k];
      CountStatus(prefix, Current, currentStep) == (if 1 <= currentStep <= k then 1 else 0)
      && CountStatus(prefix, Completed, currentStep) == (if currentStep - 1 < k then (if currentStep >= 1 then currentStep - 1 else 0) else k)
  {
    if k > 0 {
      var views := Render(currentStep);
      assert views[..k][..k - 1] == views[..k - 1];
      CountPrefix(currentStep, k - 1);
    }
  }

  /** For a current step in 1..6, exactly one step is current and the
      completed ones are exactly the steps before it. */
  lemma ExactlyOneCurrent(currentStep: int)
    requires 1 <= currentStep <= 6
    ensures CountStatus(Render(currentStep), Current, currentStep) == 1
    ensures CountStatus(Render(currentStep), Completed, currentStep) == currentStep - 1
  {
    CountPrefix(currentStep, 6);
    assert Render(currentStep)[..6] == Render(currentStep);
  }

  /** Five connectors in all: one after every step but the last. */
  lemma FiveConnectors(currentStep: int)
    ensures |set i | 0 <= i < 6 && Render(currentStep)[i].connector.Some?| == 5
  {
    var views := Render(currentStep);
    assert (set i | 0 <= i < 6 && views[i].connector.Some?) == {0, 1, 2, 3, 4};
  }
}
