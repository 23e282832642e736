/** The calculator's state machine as pure transitions: each handler of the
    component becomes a function from the state before the button press to the
    state after it. Every read in a handler sees the state from before the
    press, and for each field the last setter called wins, so one handler is
    one transition on a snapshot of the four fields. */
module Engine {
  import opened Text

  datatype Option<T> = None | Some(value: T)

  /** The component's four state fields. `operation` holds the symbol of the
      pending operator; `None` stands for `null`. */
  datatype State = State(
    display: string,
    previousValue: Option<real>,
    operation: Option<char>,
    waitingForOperand: bool)

  /** The host's number routines, which the model leaves abstract:
      `parseFloat(display)`, `String(result)`, and the quotient of a dividend
      by zero (an infinity or NaN in the host, unspecified here). */
  datatype Numerics = Numerics(
    parseFloat: string -> real,
    numberToString: real -> string,
    divideByZero: real -> real)

  /** The operators `performOperation` knows how to apply. */
  const Operators: string := "+-*/="

  /** The state the component mounts with. */
  const Initial: State := State("0", None, None, false)

  /** The display keeps at most one decimal point. */
  predicate AtMostOneDot(t: string)
  {
    Count(t, '.') <= 1
  }

  /** A digit button: the digit replaces the display when an operand is
      awaited or the display is "0", and is appended otherwise. */
  function InputNumber(s: State, d: int): (r: State)
    requires 0 <= d <= 9
    ensures r.previousValue == s.previousValue && r.operation == s.operation
    ensures !r.waitingForOperand
    ensures s.waitingForOperand || s.display == "0" ==> r.display == [DigitChar(d)]
    ensures !s.waitingForOperand && s.display != "0" ==> r.display == s.display + [DigitChar(d)]
  {
    if s.waitingForOperand then
      s.(display := [DigitChar(d)], waitingForOperand := false)
    else
      s.(display := if s.display == "0" then [DigitChar(d)] else s.display + [DigitChar(d)])
  }

  /** The decimal-point button: starts "0." when an operand is awaited, and
      otherwise appends "." unless the display already has one. */
  function InputDecimal(s: State): (r: State)
    ensures r.previousValue == s.previousValue && r.operation == s.operation
    ensures !r.waitingForOperand
    ensures '.' in r.display
    ensures s.waitingForOperand ==> r.display == "0."
    ensures !s.waitingForOperand && '.' in s.display ==> r == s
    ensures !s.waitingForOperand && '.' !in s.display ==> r.display == s.display + "."
  {
    if s.waitingForOperand then
      s.(display := "0.", waitingForOperand := false)
    else if '.' !in s.display then
      s.(display := s.display + ".")
    else
      s
  }

  /** The clear button: every field back to its value at mount. */
  function Clear(s: State): (r: State)
    ensures r == Initial
    ensures r.display == "0" && r.previousValue.None? && r.operation.None? && !r.waitingForOperand
  {
    State("0", None, None, false)
  }

  /** The quotient a / b; a zero divisor gives the host's unspecified value. */
  function Quotient(a: real, b: real, n: Numerics): real
  {
    if b != 0.0 then a / b else n.divideByZero(a)
  }

  /** The pending operator op applied to the accumulated value a and the
      operand b; `None` for a symbol the switch does not recognise. */
  function Apply(op: char, a: real, b: real, n: Numerics): (r: Option<real>)
    ensures r.Some? <==> op in Operators
    ensures op == '=' ==> r == Some(b)
    ensures op == '+' ==> r == Some(a + b)
    ensures op == '-' ==> r == Some(a - b)
    ensures op == '*' ==> r == Some(a * b)
    ensures op == '/' && b != 0.0 ==> r == Some(a / b)
  {
    match op
    case '+' => Some(a + b)
    case '-' => Some(a - b)
    case '*' => Some(a * b)
    case '/' => Some(Quotient(a, b, n))
    case '=' => Some(b)
    case _ => None
  }

  /** `performOperation` leaves through its `default: return`: an operand and a
      pending operator are both present, but the switch does not know the operator. */
  predicate ReturnsEarly(s: State)
  {
    s.previousValue.Some? && s.operation.Some? && s.operation.value !in Operators
  }

  /** An operator button: captures the first operand, or applies the PENDING
      operator to the accumulated value and the displayed operand, then records
      `next` as the new pending operator and awaits an operand. */
  function PerformOperation(s: State, next: char, n: Numerics): (r: State)
    ensures ReturnsEarly(s) ==> r == s
    ensures !ReturnsEarly(s) ==>
      r.waitingForOperand && r.operation == Some(next) && r.previousValue.Some?
  {
    var inputValue := n.parseFloat(s.display);
    if s.previousValue.None? then
      s.(previousValue := Some(inputValue), waitingForOperand := true, operation := Some(next))
    else if s.operation.None? then
      s.(waitingForOperand := true, operation := Some(next))
    else
      // `previousValue || 0` is the value itself on reals: only NaN is falsy and not 0.
      var currentValue := s.previousValue.value;
      match Apply(s.operation.value, currentValue, inputValue, n)
      case None => s
      case Some(result) => State(n.numberToString(result), Some(result), Some(next), true)
  }

  /** The equals button: `performOperation('=')`, then the chain is closed. */
  function Calculate(s: State, n: Numerics): (r: State)
    ensures r.operation.None? && r.previousValue.None? && r.waitingForOperand
  {
    PerformOperation(s, '=', n).(operation := None, previousValue := None, waitingForOperand := true)
  }

  /** A run of digit presses, first digit first. */
  function EnterDigits(s: State, ds: seq<int>): State
    requires AllDigits(ds)
    decreases ds
  {
    if ds == [] then s else EnterDigits(InputNumber(s, ds[0]), ds[1..])
  }

  // ---------------------------------------------------------------------------
  // Digit entry

  /** Digit presses only ever change the display: the operand and the pending
      operator stay, and the component is no longer awaiting an operand. */
  lemma {:induction false} EnterDigitsKeepsChain(s: State, ds: seq<int>)
    requires AllDigits(ds)
    decreases ds
    ensures EnterDigits(s, ds).previousValue == s.previousValue
    ensures EnterDigits(s, ds).operation == s.operation
    ensures ds != [] || !s.waitingForOperand ==> !EnterDigits(s, ds).waitingForOperand
  {
    if ds != [] {
      assert AllDigits(ds[1..]);
      EnterDigitsKeepsChain(InputNumber(s, ds[0]), ds[1..]);
    }
  }

  /** While a number other than "0" is being typed, further digits are appended to it. */
  lemma {:induction false} EnterDigitsAppends(s: State, ds: seq<int>)
    requires AllDigits(ds)
    requires !s.waitingForOperand && s.display != "" && s.display != "0"
    decreases ds
    ensures EnterDigits(s, ds).display == s.display + DigitText(ds)
  {
    if ds == [] {
      assert s.display + DigitText(ds) == s.display;
    } else {
      var c, rest := DigitChar(ds[0]), ds[1..];
      var t' := s.display + [c];
      assert |t'| >= 2;
      var s' := s.(display := t');
      assert InputNumber(s, ds[0]) == s';
      assert AllDigits(rest);
      EnterDigitsAppends(s', rest);
      DigitTextCons(ds);
      assert (s.display + [c]) + DigitText(rest) == s.display + ([c] + DigitText(rest));
    }
  }

  /** Digits typed into a display of "0" spell their literal, leading zeros collapsed. */
  lemma {:induction false} EnterDigitsFromZero(s: State, ds: seq<int>)
    requires AllDigits(ds)
    requires !s.waitingForOperand && s.display == "0"
    decreases ds
    ensures EnterDigits(s, ds).display == DigitLiteral(ds)
  {
    if ds != [] {
      var s' := InputNumber(s, ds[0]);
      DigitLiteralCons(ds);
      if ds[0] == 0 {
        EnterDigitsFromZero(s', ds[1..]);
      } else {
        assert s'.display == [DigitChar(ds[0])];
        EnterDigitsAppends(s', ds[1..]);
        DigitTextCons(ds);
      }
    }
  }

  /** Digits typed into a fresh display ("0", or any display while an operand is
      awaited) show exactly the literal they spell, leading zeros collapsed:
      0 then 5 shows "5", 0 then 0 shows "0". */
  lemma EnterDigitsShowsLiteral(s: State, ds: seq<int>)
    requires AllDigits(ds)
    requires s.display == "0" || (s.waitingForOperand && ds != [])
    ensures EnterDigits(s, ds).display == DigitLiteral(ds)
    ensures EnterDigits(s, ds).previousValue == s.previousValue
    ensures EnterDigits(s, ds).operation == s.operation
    ensures ds != [] ==> !EnterDigits(s, ds).waitingForOperand
  {
    EnterDigitsKeepsChain(s, ds);
    if ds == [] {
    } else if s.waitingForOperand {
      var s' := InputNumber(s, ds[0]);
      assert EnterDigits(s, ds) == EnterDigits(s', ds[1..]);
      DigitLiteralCons(ds);
      if ds[0] == 0 {
        EnterDigitsFromZero(s', ds[1..]);
      } else {
        assert s'.display == [DigitChar(ds[0])];
        EnterDigitsAppends(s', ds[1..]);
        DigitTextCons(ds);
      }
    } else {
      EnterDigitsFromZero(s, ds);
    }
  }

  // ---------------------------------------------------------------------------
  // Decimal point

  /** Pressing "." twice is the same as pressing it once. */
  lemma InputDecimalIdempotent(s: State)
    ensures InputDecimal(InputDecimal(s)) == InputDecimal(s)
  {
  }

  /** Digit entry, decimal entry and clearing keep the display to at most one ".". */
  lemma EntryKeepsAtMostOneDot(s: State, d: int)
    requires 0 <= d <= 9
    requires AtMostOneDot(s.display)
    ensures AtMostOneDot(InputNumber(s, d).display)
    ensures AtMostOneDot(InputDecimal(s).display)
    ensures AtMostOneDot(Clear(s).display)
  {
    var c := DigitChar(d);
    CountAppend(s.display, [c], '.');
    CountAppend(s.display, ".", '.');
    assert Count("0.", '.') == 1;
    assert Count("0", '.') == 0;
  }

  // ---------------------------------------------------------------------------
  // Operators

  /** The first operator press of a chain captures the parsed display as the
      operand and leaves the display as it is. */
  lemma PerformOperationCapturesOperand(s: State, next: char, n: Numerics)
    requires s.previousValue.None?
    ensures PerformOperation(s, next, n)
         == State(s.display, Some(n.parseFloat(s.display)), Some(next), true)
  {
  }

  /** With an operand and a recognised pending operator, that operator (not
      `next`) is applied to the operand and the parsed display, and the result
      goes to both the display and the operand. */
  lemma PerformOperationAppliesPending(s: State, next: char, n: Numerics)
    requires s.previousValue.Some? && s.operation.Some? && s.operation.value in Operators
    ensures var x := n.parseFloat(s.display);
      var result := Apply(s.operation.value, s.previousValue.value, x, n).value;
      PerformOperation(s, next, n) == State(n.numberToString(result), Some(result), Some(next), true)
  {
  }

  /** The operator pressed only becomes the new pending operator: display,
      operand and waiting flag do not depend on it. */
  lemma PerformOperationIgnoresNext(s: State, a: char, b: char, n: Numerics)
    ensures var ra, rb := PerformOperation(s, a, n), PerformOperation(s, b, n);
      ra.display == rb.display && ra.previousValue == rb.previousValue
      && ra.waitingForOperand == rb.waitingForOperand
    ensures !ReturnsEarly(s) ==> PerformOperation(s, a, n) == PerformOperation(s, b, n).(operation := Some(a))
  {
  }

  /** The pending operator "=" passes the displayed operand through. */
  lemma PendingEqualsPassesThrough(s: State, next: char, n: Numerics)
    requires s.previousValue.Some? && s.operation == Some('=')
    ensures var x := n.parseFloat(s.display);
      PerformOperation(s, next, n).display == n.numberToString(x)
      && PerformOperation(s, next, n).previousValue == Some(x)
  {
  }

  /** An operand with no pending operator: nothing is computed, yet the
      component still awaits an operand and records `next`. */
  lemma PerformOperationWithoutPending(s: State, next: char, n: Numerics)
    requires s.previousValue.Some? && s.operation.None?
    ensures PerformOperation(s, next, n) == s.(waitingForOperand := true, operation := Some(next))
  {
  }

  // ---------------------------------------------------------------------------
  // Equals

  /** After "=" the display holds the pending operator's result when a chain
      was open, and is unchanged otherwise. */
  lemma CalculateDisplay(s: State, n: Numerics)
    ensures s.previousValue.Some? && s.operation.Some? && s.operation.value in Operators ==>
      Calculate(s, n).display
        == n.numberToString(Apply(s.operation.value, s.previousValue.value, n.parseFloat(s.display), n).value)
    ensures s.previousValue.None? || s.operation.None? || s.operation.value !in Operators ==>
      Calculate(s, n).display == s.display
  {
  }

  /** A second "=" straight after the first changes nothing at all. */
  lemma CalculateIdempotent(s: State, n: Numerics)
    ensures Calculate(Calculate(s, n), n) == Calculate(s, n)
  {
  }
}
