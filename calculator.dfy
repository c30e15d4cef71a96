/** The calculator screen: three strings of remembered state (`display`,
    `firstOperand`, `operator`) changed by four button handlers, and the label
    dispatch that routes each of the sixteen keypad buttons to one of them.

    The floating-point side (`toDoubleOrNull`, `plus`/`minus`/`times`/`div` on
    Double, `Double.toString`) is not interpreted: it is a record of functions
    handed to the model, so only the state transitions, the "Error" rule and the
    default second operands are fixed here. */
module Calculator {
  import opened Common

  /** The four labels `onEqualsPress` evaluates; any other operator yields "Error". */
  const Operators: set<string> := {"+", "-", "*", "/"}

  /** The keypad, row by row. */
  const Keypad: seq<seq<string>> :=
    [ ["7", "8", "9", "/"],
      ["4", "5", "6", "*"],
      ["1", "2", "3", "-"],
      ["0", "C", "=", "+"] ]

  /** The sixteen labels in keypad order. */
  const Labels: seq<string> := Keypad[0] + Keypad[1] + Keypad[2] + Keypad[3]

  /** The numeric operations the calculator borrows from Double. `parse` is
      `String.toDoubleOrNull`, `show` is `Double.toString`, `zero` and `one` are
      the literals 0.0 and 1.0 used as default second operands. */
  datatype Arithmetic<!Num> = Arithmetic(
    parse: string -> Option<Num>,
    plus: (Num, Num) -> Num,
    minus: (Num, Num) -> Num,
    times: (Num, Num) -> Num,
    div: (Num, Num) -> Num,
    show: Num -> string,
    zero: Num,
    one: Num)

  /** The remembered state of the screen. */
  datatype Screen = Screen(display: string, firstOperand: string, operator: string)

  /** All three strings start empty. */
  const Initial: Screen := Screen("", "", "")

  /** The state every reachable screen is in: the pending operator is empty or
      one of the four, and a first operand is held exactly when an operator is. */
  predicate Consistent(s: Screen) {
    && (s.operator == "" || s.operator in Operators)
    && (s.firstOperand == "" <==> s.operator == "")
  }

  // ---------------------------------------------------------------------------
  // The four handlers, as transitions of Screen

  /** onDigitPress: the digit is appended to the display; nothing else moves. */
  function DigitPressed(s: Screen, digit: string): (r: Screen)
    ensures r.display == s.display + digit
    ensures r.firstOperand == s.firstOperand && r.operator == s.operator
    ensures Consistent(s) ==> Consistent(r)
  {
    s.(display := s.display + digit)
  }

  /** onOperatorPress: with an empty display nothing changes; otherwise the
      display becomes the first operand, `op` the pending operator, and the
      display is cleared for the second operand. */
  function OperatorPressed(s: Screen, op: string): (r: Screen)
    ensures s.display == "" ==> r == s
    ensures s.display != "" ==> r == Screen("", s.display, op)
    ensures Consistent(s) && op in Operators ==> Consistent(r)
  {
    if s.display != "" then Screen("", s.display, op) else s
  }

  /** The second operand of `op`: the parsed display, or when it does not parse
      1.0 for "/" and 0.0 for "+", "-", "*". */
  function SecondOperand<Num>(arith: Arithmetic<Num>, op: string, text: string): (b: Num)
    ensures arith.parse(text).Some? ==> b == arith.parse(text).value
    ensures arith.parse(text).None? && op == "/" ==> b == arith.one
    ensures arith.parse(text).None? && op != "/" ==> b == arith.zero
  {
    arith.parse(text).GetOr(if op == "/" then arith.one else arith.zero)
  }

  /** The Double operation each operator label stands for. */
  function Apply<Num>(arith: Arithmetic<Num>, op: string, a: Num, b: Num): Num
    requires op in Operators
  {
    if op == "+" then arith.plus(a, b)
    else if op == "-" then arith.minus(a, b)
    else if op == "*" then arith.times(a, b)
    else arith.div(a, b)
  }

  /** The `when (operator)` of onEqualsPress: None (shown as "Error") when the
      operator is not one of the four or the first operand does not parse;
      otherwise the operator applied to the parsed first operand and the second
      operand with its default. */
  function Evaluate<Num>(arith: Arithmetic<Num>, first: string, op: string, second: string): (r: Option<Num>)
    ensures r.Some? <==> op in Operators && arith.parse(first).Some?
    ensures r.Some? ==> r.value == Apply(arith, op, arith.parse(first).value, SecondOperand(arith, op, second))
  {
    match op
    case "+" => (match arith.parse(first)
                 case Some(a) => Some(arith.plus(a, arith.parse(second).GetOr(arith.zero)))
                 case None => None)
    case "-" => (match arith.parse(first)
                 case Some(a) => Some(arith.minus(a, arith.parse(second).GetOr(arith.zero)))
                 case None => None)
    case "*" => (match arith.parse(first)
                 case Some(a) => Some(arith.times(a, arith.parse(second).GetOr(arith.zero)))
                 case None => None)
    case "/" => (match arith.parse(first)
                 case Some(a) => Some(arith.div(a, arith.parse(second).GetOr(arith.one)))
                 case None => None)
    case _ => None
  }

  /** onEqualsPress: the display shows the result or "Error"; the first operand
      and the operator are always cleared. */
  function EqualsPressed<Num>(arith: Arithmetic<Num>, s: Screen): (r: Screen)
    ensures r.firstOperand == "" && r.operator == ""
    ensures s.operator !in Operators ==> r.display == "Error"
    ensures arith.parse(s.firstOperand).None? ==> r.display == "Error"
    ensures s.operator in Operators && arith.parse(s.firstOperand).Some? ==>
      r.display == arith.show(Apply(arith, s.operator, arith.parse(s.firstOperand).value,
                                    SecondOperand(arith, s.operator, s.display)))
    ensures Consistent(r)
  {
    var result := Evaluate(arith, s.firstOperand, s.operator, s.display);
    Screen(if result.Some? then arith.show(result.value) else "Error", "", "")
  }

  /** What `toDoubleOrNull` gives for the empty string: null. The display is
      empty whenever "=" follows an operator with no digit pressed since. */
  predicate EmptyDoesNotParse<Num>(arith: Arithmetic<Num>) {
    arith.parse("").None?
  }

  /** "=" straight after an operator: the empty display takes the default
      second operand, 1.0 for "/" and 0.0 for "+", "-", "*". */
  lemma EqualsWithEmptyDisplay<Num>(arith: Arithmetic<Num>, s: Screen)
    requires EmptyDoesNotParse(arith)
    requires s.display == "" && s.operator in Operators && arith.parse(s.firstOperand).Some?
    ensures EqualsPressed(arith, s).display ==
      arith.show(Apply(arith, s.operator, arith.parse(s.firstOperand).value,
                       if s.operator == "/" then arith.one else arith.zero))
  {
  }

  /** onClear: back to the initial screen. */
  function Cleared(s: Screen): (r: Screen)
    ensures r == Initial && Consistent(r)
  {
    Screen("", "", "")
  }

  // ---------------------------------------------------------------------------
  // The label dispatch

  datatype Handler = DigitHandler | OperatorHandler | EqualsHandler | ClearHandler | NoHandler

  /** `a.compareTo(b) <= 0` for Kotlin strings: character by character, a proper
      prefix ordered first. */
  predicate LexLe(a: string, b: string) {
    a == [] || (b != [] && (a[0] < b[0] || (a[0] == b[0] && LexLe(a[1..], b[1..]))))
  }

  /** `label in "0".."9"`: membership in the closed range of strings. */
  predicate InDigitRange(key: string) {
    LexLe("0", key) && LexLe(key, "9")
  }

  /** A label that is one decimal digit. */
  predicate IsDigitLabel(key: string) {
    |key| == 1 && '0' <= key[0] <= '9'
  }

  /** The `when (label)` in the button's onClick: the first branch that matches. */
  function Route(key: string): (h: Handler)
    ensures h == DigitHandler <==> InDigitRange(key)
    ensures h == OperatorHandler ==> key in Operators
    ensures key in Operators ==> h == OperatorHandler
    ensures key == "=" ==> h == EqualsHandler
    ensures key == "C" ==> h == ClearHandler
  {
    if InDigitRange(key) then DigitHandler
    else if key in Operators then OperatorHandler
    else if key == "=" then EqualsHandler
    else if key == "C" then ClearHandler
    else NoHandler
  }

  /** A one-character string lies in the range "0".."9" exactly when it is a digit. */
  lemma SingleCharInDigitRange(key: string)
    requires |key| == 1
    ensures InDigitRange(key) <==> IsDigitLabel(key)
  {
    assert LexLe("0", key) <==> '0' <= key[0] by {
      assert key[1..] == [];
    }
    assert LexLe(key, "9") <==> key[0] <= '9' by {
      assert key[1..] == [];
    }
  }

  /** The range "0".."9" is lexicographic, so it admits more than the ten digits:
      "10" is in it. No keypad label is such a string. */
  lemma DigitRangeIsLexicographic()
    ensures InDigitRange("10") && !IsDigitLabel("10")
  {
    assert LexLe("0", "10") by { assert "0"[1..] == []; }
    assert LexLe("10", "9");
  }

  /** Every keypad label reaches exactly the handler its face names: the ten
      digits the digit handler, the four operators the operator handler, "=" and
      "C" their own. None of the sixteen is ignored. */
  lemma KeypadRouting()
    ensures |Labels| == 16
    ensures forall i :: 0 <= i < |Labels| ==> Route(Labels[i]) != NoHandler
    ensures forall i :: 0 <= i < |Labels| ==>
      (Route(Labels[i]) == DigitHandler <==> IsDigitLabel(Labels[i]))
    ensures forall i :: 0 <= i < |Labels| ==>
      (Route(Labels[i]) == OperatorHandler <==> Labels[i] in Operators)
  {
    forall i | 0 <= i < |Labels|
      ensures Route(Labels[i]) != NoHandler
      ensures Route(Labels[i]) == DigitHandler <==> IsDigitLabel(Labels[i])
      ensures Route(Labels[i]) == OperatorHandler <==> Labels[i] in Operators
    {
      var key := Labels[i];
      assert |key| == 1;
      SingleCharInDigitRange(key);
    }
  }

  /** One button press. */
  function Press<Num>(arith: Arithmetic<Num>, s: Screen, key: string): Screen {
    match Route(key)
    case DigitHandler => DigitPressed(s, key)
    case OperatorHandler => OperatorPressed(s, key)
    case EqualsHandler => EqualsPressed(arith, s)
    case ClearHandler => Cleared(s)
    case NoHandler => s
  }

  /** A sequence of button presses, oldest first. */
  function Run<Num>(arith: Arithmetic<Num>, s: Screen, labels: seq<string>): Screen
    decreases |labels|
  {
    if labels == [] then s else Run(arith, Press(arith, s, labels[0]), labels[1..])
  }

  /** A press keeps the screen consistent, whatever label is pressed. */
  lemma PressKeepsConsistent<Num>(arith: Arithmetic<Num>, s: Screen, key: string)
    requires Consistent(s)
    ensures Consistent(Press(arith, s, key))
  {
  }

  /** Whatever buttons are pressed, from whatever consistent screen, the
      operator only ever holds "", "+", "-", "*" or "/", and a first operand is
      held exactly when an operator is pending. */
  lemma {:induction false} RunKeepsConsistent<Num>(arith: Arithmetic<Num>, s: Screen, labels: seq<string>)
    requires Consistent(s)
    ensures Consistent(Run(arith, s, labels))
    ensures Run(arith, s, labels).operator in {"", "+", "-", "*", "/"}
    decreases |labels|
  {
    if labels != [] {
      PressKeepsConsistent(arith, s, labels[0]);
      RunKeepsConsistent(arith, Press(arith, s, labels[0]), labels[1..]);
    }
  }

  /** Pressing "=" with an empty operator (any screen reached after "C" or "="
      alone) shows "Error". */
  lemma EqualsWithoutOperatorIsError<Num>(arith: Arithmetic<Num>, s: Screen)
    ensures Run(arith, s, ["C", "="]).display == "Error"
  {
    assert Route("C") == ClearHandler;
    assert Route("=") == EqualsHandler;
    assert ["C", "="][1..] == ["="];
  }

  // ---------------------------------------------------------------------------
  // The remembered state itself

  /** The composable's remembered state. The numeric operations it borrows are
      fixed when it is created. */
  class CalculatorUI<Num> {
    var display: string
    var firstOperand: string
    var operator: string
    const arith: Arithmetic<Num>

    function State(): Screen
      reads this
    {
      Screen(display, firstOperand, operator)
    }

    ghost predicate Valid()
      reads this
    {
      Consistent(State())
    }

    constructor (arith: Arithmetic<Num>)
      ensures this.arith == arith
      ensures display == "" && firstOperand == "" && operator == ""
      ensures Valid()
    {
      this.arith := arith;
      display, firstOperand, operator := "", "", "";
    }

    /** onDigitPress */
    method OnDigitPress(digit: string)
      modifies this
      ensures display == old(display) + digit
      ensures firstOperand == old(firstOperand) && operator == old(operator)
      ensures old(Valid()) ==> Valid()
      ensures State() == DigitPressed(old(State()), digit)
    {
      display := display + digit;
    }

    /** onOperatorPress */
    method OnOperatorPress(op: string)
      modifies this
      ensures old(display) == "" ==> unchanged(this)
      ensures old(display) != "" ==>
        display == "" && firstOperand == old(display) && operator == op
      ensures old(Valid()) && op in Operators ==> Valid()
      ensures State() == OperatorPressed(old(State()), op)
    {
      if display != "" {
        firstOperand := display;
        operator := op;
        display := "";
      }
    }

    /** onEqualsPress */
    method OnEqualsPress()
      modifies this
      ensures firstOperand == "" && operator == ""
      ensures old(operator) !in Operators ==> display == "Error"
      ensures arith.parse(old(firstOperand)).None? ==> display == "Error"
      ensures Valid()
      ensures State() == EqualsPressed(arith, old(State()))
    {
      var secondOperand := display;
      var result := Evaluate(arith, firstOperand, operator, secondOperand);
      display := if result.Some? then arith.show(result.value) else "Error";
      firstOperand := "";
      operator := "";
    }

    /** onClear */
    method OnClear()
      modifies this
      ensures display == "" && firstOperand == "" && operator == ""
      ensures Valid()
    {
      display := "";
      firstOperand := "";
      operator := "";
    }

    /** The onClick of the button labelled `key`. */
    method OnButtonClick(key: string)
      requires Valid()
      modifies this
      ensures Valid()
      ensures State() == Press(arith, old(State()), key)
    {
      var handler := Route(key);
      match handler
      case DigitHandler => OnDigitPress(key);
      case OperatorHandler => OnOperatorPress(key);
      case EqualsHandler => OnEqualsPress();
      case ClearHandler => OnClear();
      case NoHandler =>
    }
  }
}
