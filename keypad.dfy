/** The widget's keypad: which handler each button calls and with what
    argument, runs of presses from the mounted state, and what holds of every
    state a user can reach by pressing buttons. */
module Keypad {
  import opened Text
  import opened Engine

  /** A button of the keypad. */
  datatype Key =
    | Digit(d: int)          // `inputNumber(d)`
    | Point                  // `inputDecimal`
    | ClearKey               // `clear`
    | Operator(symbol: char) // `performOperation(symbol)`
    | EqualsKey              // `calculate`

  /** The operator buttons pass one of these symbols to `performOperation`. */
  const PadOperators: string := "+-*/"

  /** The buttons the widget actually shows: digits 0 to 9 and the four operators. */
  predicate OnKeypad(k: Key)
  {
    match k
    case Digit(d) => 0 <= d <= 9
    case Operator(c) => c in PadOperators
    case _ => true
  }

  predicate AllOnKeypad(keys: seq<Key>)
  {
    forall i :: 0 <= i < |keys| ==> OnKeypad(keys[i])
  }

  /** One button press. */
  function Step(s: State, k: Key, n: Numerics): (r: State)
    requires OnKeypad(k)
    ensures k.Digit? || k.Point? ==> r.previousValue == s.previousValue && r.operation == s.operation
    ensures k.Digit? || k.Point? || k.ClearKey? ==> !r.waitingForOperand
    ensures k.ClearKey? ==> r == Initial
    ensures k.EqualsKey? ==> r.waitingForOperand && r.operation.None? && r.previousValue.None?
  {
    match k
    case Digit(d) => InputNumber(s, d)
    case Point => InputDecimal(s)
    case ClearKey => Clear(s)
    case Operator(c) => PerformOperation(s, c, n)
    case EqualsKey => Calculate(s, n)
  }

  /** A run of button presses, first press first. */
  function Run(s: State, keys: seq<Key>, n: Numerics): State
    requires AllOnKeypad(keys)
    decreases keys
  {
    if keys == [] then s else Run(Step(s, keys[0], n), keys[1..], n)
  }

  /** A pending operator is one of the keypad's four, and an operand is held
      exactly when an operator is pending. */
  predicate ChainInvariant(s: State)
  {
    && (s.operation.Some? ==> s.operation.value in PadOperators)
    && (s.previousValue.Some? <==> s.operation.Some?)
  }

  /** The characters a user can type into the display. */
  const TypedChars: string := "0123456789."

  /** t is made of digits and decimal points only. */
  predicate AllTyped(t: string)
  {
    forall i :: 0 <= i < |t| ==> t[i] in TypedChars
  }

  /** Unless an operand is awaited, the display is text the user typed: digits
      and at most one decimal point. */
  predicate DisplayTyped(s: State)
  {
    !s.waitingForOperand ==> AllTyped(s.display) && AtMostOneDot(s.display)
  }

  /** Appending a typed character to typed text gives typed text. */
  lemma AppendTyped(t: string, c: char)
    requires AllTyped(t) && c in TypedChars
    ensures AllTyped(t + [c])
  {
    assert forall i :: 0 <= i < |t| ==> (t + [c])[i] == t[i];
  }

  /** A digit press keeps the display typed text. */
  lemma DigitKeepsDisplayTyped(s: State, d: int)
    requires 0 <= d <= 9 && DisplayTyped(s)
    ensures DisplayTyped(InputNumber(s, d))
  {
    var c := DigitChar(d);
    assert c in TypedChars;
    if s.waitingForOperand || s.display == "0" {
      assert Count([c], '.') == 0;
    } else {
      EntryKeepsAtMostOneDot(s, d);
      AppendTyped(s.display, c);
    }
  }

  /** A "." press keeps the display typed text. */
  lemma PointKeepsDisplayTyped(s: State)
    requires DisplayTyped(s)
    ensures DisplayTyped(InputDecimal(s))
  {
    if s.waitingForOperand {
      assert Count("0.", '.') == 1;
    } else {
      EntryKeepsAtMostOneDot(s, 0);
      assert '.' in TypedChars;
      AppendTyped(s.display, '.');
    }
  }

  /** In a state that keeps the chain invariant, `performOperation` never
      leaves through its `default: return`. */
  lemma ChainInvariantExcludesEarlyReturn(s: State)
    requires ChainInvariant(s)
    ensures !ReturnsEarly(s)
  {
  }

  /** Every press keeps the chain invariant. */
  lemma StepKeepsChain(s: State, k: Key, n: Numerics)
    requires OnKeypad(k) && ChainInvariant(s)
    ensures ChainInvariant(Step(s, k, n))
  {
  }

  /** Every run of presses keeps the chain invariant. */
  lemma {:induction false} RunKeepsChain(s: State, keys: seq<Key>, n: Numerics)
    requires AllOnKeypad(keys) && ChainInvariant(s)
    decreases keys
    ensures ChainInvariant(Run(s, keys, n))
  {
    if keys != [] {
      StepKeepsChain(s, keys[0], n);
      assert AllOnKeypad(keys[1..]);
      RunKeepsChain(Step(s, keys[0], n), keys[1..], n);
    }
  }

  /** Every state reached from mounting keeps the chain invariant: the
      `default: return` of `performOperation`, a pending operator without an
      operand, and an operand without a pending operator never occur from the
      keypad. */
  lemma ReachableKeepsChain(keys: seq<Key>, n: Numerics)
    requires AllOnKeypad(keys)
    ensures ChainInvariant(Run(Initial, keys, n))
    ensures !ReturnsEarly(Run(Initial, keys, n))
    ensures Run(Initial, keys, n).previousValue.Some? ==> Run(Initial, keys, n).operation.Some?
  {
    RunKeepsChain(Initial, keys, n);
    ChainInvariantExcludesEarlyReturn(Run(Initial, keys, n));
  }

  /** Every press from a state keeping both invariants leaves the display typed
      text whenever no operand is awaited. A computed result, which may be the
      host's text for an infinite or not-a-number value, is only ever shown
      while an operand is awaited, and the next digit or "." replaces it. */
  lemma StepKeepsDisplayTyped(s: State, k: Key, n: Numerics)
    requires OnKeypad(k) && ChainInvariant(s) && DisplayTyped(s)
    ensures DisplayTyped(Step(s, k, n))
  {
    match k
    case Digit(d) => DigitKeepsDisplayTyped(s, d);
    case Point => PointKeepsDisplayTyped(s);
    case ClearKey => assert Count("0", '.') == 0;
    case Operator(c) => ChainInvariantExcludesEarlyReturn(s);
    case EqualsKey =>
  }

  /** Every run of presses keeps both invariants. */
  lemma {:induction false} RunKeepsDisplayTyped(s: State, keys: seq<Key>, n: Numerics)
    requires AllOnKeypad(keys) && ChainInvariant(s) && DisplayTyped(s)
    decreases keys
    ensures DisplayTyped(Run(s, keys, n))
  {
    if keys != [] {
      StepKeepsChain(s, keys[0], n);
      StepKeepsDisplayTyped(s, keys[0], n);
      assert AllOnKeypad(keys[1..]);
      RunKeepsDisplayTyped(Step(s, keys[0], n), keys[1..], n);
    }
  }

  /** In every state reached from mounting in which no operand is awaited, the
      display consists of digits and at most one decimal point. */
  lemma ReachableDisplayTyped(keys: seq<Key>, n: Numerics)
    requires AllOnKeypad(keys)
    ensures var r := Run(Initial, keys, n);
      !r.waitingForOperand ==> AllTyped(r.display) && AtMostOneDot(r.display)
  {
    assert Count("0", '.') == 0;
    RunKeepsDisplayTyped(Initial, keys, n);
  }

  /** In a reachable state every operator press and every "=" leaves the
      component awaiting an operand. */
  lemma OperatorPressAwaitsOperand(s: State, k: Key, n: Numerics)
    requires OnKeypad(k) && ChainInvariant(s)
    requires k.Operator? || k.EqualsKey?
    ensures Step(s, k, n).waitingForOperand
  {
  }

  /** Only a digit, the decimal point or clear ever stop the component
      awaiting an operand. */
  lemma OnlyEntryStopsWaiting(s: State, k: Key, n: Numerics)
    requires OnKeypad(k) && s.waitingForOperand && !Step(s, k, n).waitingForOperand
    ensures k.Digit? || k.Point? || k.ClearKey?
  {
  }

  /** Digit entry, decimal entry and clear keep the display to at most one ".". */
  lemma EntryStepKeepsAtMostOneDot(s: State, k: Key, n: Numerics)
    requires OnKeypad(k) && (k.Digit? || k.Point? || k.ClearKey?)
    requires AtMostOneDot(s.display)
    ensures AtMostOneDot(Step(s, k, n).display)
  {
    EntryKeepsAtMostOneDot(s, if k.Digit? then k.d else 0);
  }

  // ---------------------------------------------------------------------------
  // Worked runs. `parseFloat` is assumed only on the literals typed.

  /** 7, +, 3, = shows the text of 10. */
  lemma SevenPlusThree(n: Numerics)
    requires n.parseFloat("7") == 7.0 && n.parseFloat("3") == 3.0
    ensures AllOnKeypad([Digit(7), Operator('+'), Digit(3), EqualsKey])
    ensures Run(Initial, [Digit(7), Operator('+'), Digit(3), EqualsKey], n).display
         == n.numberToString(10.0)
  {
  }

  /** 5, +, 3, =, = shows the text of 8 after the first "=" and still after
      the second, which finds no pending operator to apply again. */
  lemma RepeatedEquals(n: Numerics)
    requires n.parseFloat("5") == 5.0 && n.parseFloat("3") == 3.0
    ensures AllOnKeypad([Digit(5), Operator('+'), Digit(3), EqualsKey, EqualsKey])
    ensures Run(Initial, [Digit(5), Operator('+'), Digit(3), EqualsKey], n).display
         == n.numberToString(8.0)
    ensures Run(Initial, [Digit(5), Operator('+'), Digit(3), EqualsKey, EqualsKey], n).display
         == n.numberToString(8.0)
  {
  }

  /** 5, /, 0, = shows the host's text for 5 divided by zero: no error is raised. */
  lemma DivideByZero(n: Numerics)
    requires n.parseFloat("5") == 5.0 && n.parseFloat("0") == 0.0
    ensures AllOnKeypad([Digit(5), Operator('/'), Digit(0), EqualsKey])
    ensures Run(Initial, [Digit(5), Operator('/'), Digit(0), EqualsKey], n).display
         == n.numberToString(n.divideByZero(5.0))
  {
  }

  /** Pressing an operator twice applies the pending operator to the displayed
      operand again: 5, +, + shows the text of 10. */
  lemma RepeatedOperator(n: Numerics)
    requires n.parseFloat("5") == 5.0
    ensures AllOnKeypad([Digit(5), Operator('+'), Operator('+')])
    ensures Run(Initial, [Digit(5), Operator('+'), Operator('+')], n)
         == State(n.numberToString(10.0), Some(10.0), Some('+'), true)
  {
  }
}
