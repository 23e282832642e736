/** The calculator component: its four state fields and the five handlers the
    buttons call. Both themed widgets (dinosaur and hedgehog) hold exactly this
    state and these handlers. Each handler assigns the fields in the order the
    component calls its setters; every read in a handler comes before any write
    to the field read, so the fields after a handler are what the component
    holds once its setters have taken effect. */
module Widget {
  import opened Text
  import opened Engine

  class Calculator {
    var display: string
    var previousValue: Option<real>
    var operation: Option<char>
    var waitingForOperand: bool
    /** `parseFloat`, `String(number)` and division by zero, as the host provides them. */
    const numerics: Numerics

    /** The four fields as one value. */
    function Snapshot(): State
      reads this
    {
      State(display, previousValue, operation, waitingForOperand)
    }

    /** Mounting the widget: display "0", no operand, no operator, not waiting. */
    constructor (numerics: Numerics)
      ensures Snapshot() == Initial
      ensures this.numerics == numerics
    {
      display := "0";
      previousValue := None;
      operation := None;
      waitingForOperand := false;
      this.numerics := numerics;
    }

    method InputNumber(d: int)
      requires 0 <= d <= 9
      modifies this
      ensures Snapshot() == Engine.InputNumber(old(Snapshot()), d)
    {
      if waitingForOperand {
        display := [DigitChar(d)];
        waitingForOperand := false;
      } else {
        display := if display == "0" then [DigitChar(d)] else display + [DigitChar(d)];
      }
    }

    method InputDecimal()
      modifies this
      ensures Snapshot() == Engine.InputDecimal(old(Snapshot()))
    {
      if waitingForOperand {
        display := "0.";
        waitingForOperand := false;
      } else if '.' !in display {
        display := display + ".";
      }
    }

    method Clear()
      modifies this
      ensures Snapshot() == Initial
    {
      display := "0";
      previousValue := None;
      operation := None;
      waitingForOperand := false;
    }

    method PerformOperation(nextOperation: char)
      modifies this
      ensures Snapshot() == Engine.PerformOperation(old(Snapshot()), nextOperation, numerics)
    {
      var inputValue := numerics.parseFloat(display);
      if previousValue.None? {
        previousValue := Some(inputValue);
      } else if operation.Some? {
        // `previousValue || 0` is the value itself on reals.
        var currentValue := previousValue.value;
        var applied := Apply(operation.value, currentValue, inputValue, numerics);
        if applied.None? {
          // the switch's `default: return`
          return;
        }
        var result := applied.value;
        display := numerics.numberToString(result);
        previousValue := Some(result);
      }
      waitingForOperand := true;
      operation := Some(nextOperation);
    }

    method Calculate()
      modifies this
      ensures Snapshot() == Engine.Calculate(old(Snapshot()), numerics)
    {
      PerformOperation('=');
      operation := None;
      previousValue := None;
      waitingForOperand := true;
    }
  }
}
