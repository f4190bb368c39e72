/** The calculator (apps/Calculator.tsx): a display, the pending equation
    shown above it, and whether the next key starts a new number.

    The evaluation of the equation text is an input (`eval`), returning
    the printed value or an exception; the error text is the current
    language's message. */
module CalculatorApp {
  import opened Types

  datatype CalcState = CalcState(display: string, equation: string, isNewNumber: bool)

  function InitialCalc(): CalcState
  {
    CalcState("0", "", true)
  }

  /** What evaluating the equation text gives: `String(result)`, or a throw. */
  datatype EvalResult = Value(text: string) | Thrown

  /** `handleNumber` for a digit or the decimal point. */
  function PressNumber(s: CalcState, num: string): CalcState
  {
    if s.isNewNumber then s.(display := num, isNewNumber := false)
    else s.(display := if s.display == "0" then num else s.display + num)
  }

  /** `handleOperator`: the display moves into the equation with the operator. */
  function PressOperator(s: CalcState, op: string): CalcState
  {
    s.(equation := s.display + " " + op + " ", isNewNumber := true)
  }

  function PressClear(s: CalcState): CalcState
  {
    CalcState("0", "", true)
  }

  /** `replace` with a one-character pattern: only the first occurrence changes. */
  function ReplaceFirst(s: string, c: char, rep: string): string
  {
    var i := IndexOf(s, c);
    if i < 0 then s else s[..i] + rep + s[i + 1..]
  }

  /** The text handed to the evaluator: the visual operators become JavaScript's. */
  function EvalString(s: CalcState): string
  {
    ReplaceFirst(ReplaceFirst(s.equation + s.display, '×', "*"), '÷', "/")
  }

  /** `handleEqual`. */
  function PressEqual(s: CalcState, eval: string -> EvalResult, errorText: string): CalcState
  {
    match eval(EvalString(s))
    case Value(text) => CalcState(text, "", true)
    case Thrown => s.(display := errorText, isNewNumber := true)
  }

  /** The keypad: what each button does. */
  datatype Key = Clear | Operator(op: string) | Number(num: string) | Equal

  const Keypad: seq<(string, Key)> := [
    ("C", Clear), ("%", Operator("%")), ("÷", Operator("/")),
    ("7", Number("7")), ("8", Number("8")), ("9", Number("9")), ("×", Operator("*")),
    ("4", Number("4")), ("5", Number("5")), ("6", Number("6")), ("-", Operator("-")),
    ("1", Number("1")), ("2", Number("2")), ("3", Number("3")), ("+", Operator("+")),
    ("0", Number("0")), (".", Number(".")), ("=", Equal)]

  function Press(s: CalcState, k: Key, eval: string -> EvalResult, errorText: string): CalcState
  {
    match k
    case Clear => PressClear(s)
    case Operator(op) => PressOperator(s, op)
    case Number(num) => PressNumber(s, num)
    case Equal => PressEqual(s, eval, errorText)
  }

  // ---------------------------------------------------------------------
  // Properties

  /** A key after an operator, an evaluation or a clear replaces the display
      and ends the new-number state; otherwise a lone 0 is replaced and
      anything else extended. */
  lemma NumberEntry(s: CalcState, num: string)
    ensures s.isNewNumber ==> PressNumber(s, num) == CalcState(num, s.equation, false)
    ensures !s.isNewNumber && s.display == "0" ==> PressNumber(s, num) == s.(display := num)
    ensures !s.isNewNumber && s.display != "0" ==> PressNumber(s, num) == s.(display := s.display + num)
    ensures PressNumber(s, num).equation == s.equation && !PressNumber(s, num).isNewNumber
  {
  }

  /** An operator keeps the display, records `display op` in the equation and starts a new number. */
  lemma OperatorEntry(s: CalcState, op: string)
    ensures PressOperator(s, op).display == s.display && PressOperator(s, op).isNewNumber
    ensures PressOperator(s, op).equation == s.display + [' '] + op + [' ']
  {
  }

  /** A second operator replaces the first instead of chaining. */
  lemma OperatorReplaces(s: CalcState, op1: string, op2: string)
    ensures PressOperator(PressOperator(s, op1), op2) == PressOperator(s, op2)
  {
  }

  lemma ClearResets(s: CalcState)
    ensures PressClear(s) == InitialCalc()
  {
  }

  /** `=` always starts a new number; success shows the value and clears the
      equation; a throw shows the error and keeps the equation. */
  lemma EqualOutcome(s: CalcState, eval: string -> EvalResult, errorText: string)
    ensures PressEqual(s, eval, errorText).isNewNumber
    ensures eval(EvalString(s)).Value? ==>
              PressEqual(s, eval, errorText) == CalcState(eval(EvalString(s)).text, "", true)
    ensures eval(EvalString(s)).Thrown? ==>
              PressEqual(s, eval, errorText) == CalcState(errorText, s.equation, true)
  {
  }

  /** Only the first occurrence is replaced: the rest of the text is kept as it was. */
  lemma ReplaceFirstShape(s: string, c: char, rep: string)
    ensures c !in s ==> ReplaceFirst(s, c, rep) == s
    ensures c in s ==> exists i | 0 <= i < |s| :: s[i] == c && c !in s[..i] &&
                         ReplaceFirst(s, c, rep) == s[..i] + rep + s[i + 1..]
  {
    var i := IndexOf(s, c);
    if i >= 0 {
      assert c !in s[..i] by {
        forall j | 0 <= j < i ensures s[..i][j] != c {
        }
      }
    }
  }

  /** No key types the visual operators into the equation: the buttons
      already send `*` and `/`. */
  lemma KeypadSendsAscii()
    ensures forall i :: 0 <= i < |Keypad| && Keypad[i].1.Operator? ==>
              '×' !in Keypad[i].1.op && '÷' !in Keypad[i].1.op
    ensures forall i :: 0 <= i < |Keypad| && Keypad[i].1.Number? ==>
              '×' !in Keypad[i].1.num && '÷' !in Keypad[i].1.num
  {
  }

  /** So for a text free of the visual operators the evaluator sees exactly
      the equation followed by the display. */
  lemma PlainEvalString(s: CalcState)
    requires '×' !in s.equation + s.display && '÷' !in s.equation + s.display
    ensures EvalString(s) == s.equation + s.display
  {
    ReplaceFirstShape(s.equation + s.display, '×', "*");
    ReplaceFirstShape(s.equation + s.display, '÷', "/");
  }

  // ---------------------------------------------------------------------
  // The calculator as an object with fields

  class Calculator {
    var display: string
    var equation: string
    var isNewNumber: bool

    function State(): CalcState
      reads this
    {
      CalcState(display, equation, isNewNumber)
    }

    constructor ()
      ensures State() == InitialCalc()
    {
      display := "0";
      equation := "";
      isNewNumber := true;
    }

    method HandleNumber(num: string)
      modifies this
      ensures State() == PressNumber(old(State()), num)
    {
      if isNewNumber {
        display := num;
        isNewNumber := false;
      } else {
        display := if display == "0" then num else display + num;
      }
    }

    method HandleOperator(op: string)
      modifies this
      ensures State() == PressOperator(old(State()), op)
    {
      equation := display + " " + op + " ";
      isNewNumber := true;
    }

    method HandleEqual(eval: string -> EvalResult, errorText: string)
      modifies this
      ensures State() == PressEqual(old(State()), eval, errorText)
    {
      var evalString := ReplaceFirst(ReplaceFirst(equation + display, '×', "*"), '÷', "/");
      var result := eval(evalString);
      if result.Value? {
        display := result.text;
        equation := "";
        isNewNumber := true;
      } else {
        display := errorText;
        isNewNumber := true;
      }
    }

    method HandleClear()
      modifies this
      ensures State() == PressClear(old(State()))
    {
      display := "0";
      equation := "";
      isNewNumber := true;
    }
  }
}
