/** The button-to-speed mapping of teleopPeriodic: four gamepad buttons are
    checked in a fixed priority order and the first one pressed selects a
    fixed duty-cycle for the motor; with none pressed the motor is stopped. */
module ButtonMapping {

  /** The state of the four buttons the mapping reads, in one tick. */
  datatype Buttons = Buttons(cross: bool, circle: bool, square: bool, triangle: bool)

  /** The buttons by name. */
  datatype Button = Cross | Circle | Square | Triangle

  function IsPressed(b: Buttons, x: Button): bool
  {
    match x
    case Cross => b.cross
    case Circle => b.circle
    case Square => b.square
    case Triangle => b.triangle
  }

  /** The duty-cycle commanded when no button is pressed. */
  const IdleSpeed: real := 0.0

  /** The speed the cascade selects: Cross 0.7, else Circle 0.8, else Square
      0.75, else Triangle 0.0 (stop), else 0.0. The speed is one of four
      fixed values inside the actuator's [-1, 1] range, and each non-zero
      speed tells which button won: it was pressed and every button of
      higher priority was not. */
  function Speed(b: Buttons): (speed: real)
    ensures speed == 0.0 || speed == 0.7 || speed == 0.75 || speed == 0.8
    ensures -1.0 <= speed <= 1.0
    ensures speed == 0.7 <==> b.cross
    ensures speed == 0.8 <==> !b.cross && b.circle
    ensures speed == 0.75 <==> !b.cross && !b.circle && b.square
    ensures speed == 0.0 <==> !b.cross && !b.circle && !b.square
  {
    if b.cross then 0.7
    else if b.circle then 0.8
    else if b.square then 0.75
    else if b.triangle then 0.0
    else IdleSpeed
  }

  // ---------------------------------------------------------------------
  // The same mapping as a table of rules, first match wins
  // ---------------------------------------------------------------------

  /** One rule: when this button is pressed, command this speed. */
  datatype Rule = Rule(button: Button, speed: real)

  /** The mapping's rules in priority order. */
  const SpeedRules: seq<Rule> :=
    [Rule(Cross, 0.7), Rule(Circle, 0.8), Rule(Square, 0.75), Rule(Triangle, 0.0)]

  /** The position of the first rule whose button is pressed, or the number
      of rules when no rule's button is pressed. */
  function FirstPressed(rules: seq<Rule>, b: Buttons): (i: nat)
    ensures i <= |rules|
    ensures forall j :: 0 <= j < i ==> !IsPressed(b, rules[j].button)
    ensures i < |rules| ==> IsPressed(b, rules[i].button)
  {
    if rules == [] then 0
    else if IsPressed(b, rules[0].button) then 0
    else 1 + FirstPressed(rules[1..], b)
  }

  /** The speed of the first rule that fires, or the default. */
  function FirstMatch(rules: seq<Rule>, b: Buttons, default: real): real
  {
    var i := FirstPressed(rules, b);
    if i < |rules| then rules[i].speed else default
  }

  /** The if-else cascade is exactly the rule table read first to last. */
  lemma SpeedIsFirstMatch(b: Buttons)
    ensures Speed(b) == FirstMatch(SpeedRules, b, IdleSpeed)
  {
    var i := FirstPressed(SpeedRules, b);
    assert !IsPressed(b, SpeedRules[0].button) ==> i != 0;
    assert !IsPressed(b, SpeedRules[1].button) ==> i != 1;
    assert !IsPressed(b, SpeedRules[2].button) ==> i != 2;
    assert !IsPressed(b, SpeedRules[3].button) ==> i != 3;
  }

  /** Cross wins over anything else held down with it; nothing held down
      stops the motor. */
  lemma SpeedExamples()
    ensures Speed(Buttons(true, false, false, false)) == 0.7
    ensures Speed(Buttons(true, true, false, false)) == 0.7
    ensures Speed(Buttons(true, true, true, true)) == 0.7
    ensures Speed(Buttons(false, false, true, true)) == 0.75
    ensures Speed(Buttons(false, false, false, true)) == 0.0
    ensures Speed(Buttons(false, false, false, false)) == 0.0
  {
  }
}
