# Calculator state machine

This project models the four-function calculator behind the two themed widgets,
`DinosaurCalculator` and `HedgehogCalculator`. Both components hold the same
four state fields: `display`, `previousValue`, `operation` and `waitingForOperand`.
They also have the same five button handlers: `inputNumber`, `inputDecimal`,
`clear`, `performOperation` and `calculate`. Lines 7-79 of the two files are
identical, so the model covers them once. The themed presentation is not modelled.

- `text.dfy` (module `Text`): the character of a digit button, the literal that a
  run of digit presses spells, and counting a character in the display.
- `engine.dfy` (module `Engine`): the state as a `State` datatype. Each handler is a
  pure transition from the state before the press to the state after it. This
  follows how a handler runs inside one event: every read sees the old fields, and
  for each field the last setter call wins. The lemmas state what each handler
  promises.
- `calculator.dfy` (module `Widget`): the component as the class `Calculator`. It has
  the four fields and five methods, and each method changes the fields in place.
  Each method is proved to produce exactly the transition of the same name in `Engine`.
- `keypad.dfy` (module `Keypad`): which handler each button calls and with what
  argument, runs of presses from the mounted state, an invariant of every reachable
  state, and worked runs (7 + 3 =, repeated =, division by zero, a repeated operator).

Numbers are `real`. The host's `parseFloat`, `String(number)` and the quotient by
zero are abstract: they are the three function fields of `Engine.Numerics`, and
every transition that needs them takes them as a parameter. The worked runs assume
`parseFloat` only on the literals that are typed.

The code does not keep `display` a numeric literal in every state. After a result
is computed, `display` holds the host's text for it, and that text can be "Infinity",
"NaN" or exponent notation. This happens only while an operand is awaited: every
handler that writes a result also sets the waiting flag, and the next digit or "."
replaces the display. `Keypad.ReachableDisplayTyped` proves this for every state
reached from mounting: whenever no operand is awaited, the display consists of digits
and at most one decimal point. `Keypad.ReachableKeepsChain` proves that an operand is
held exactly when an operator is pending. So the branch of `performOperation` that
finds an operand but no pending operator (`Engine.PerformOperationWithoutPending`)
can never be reached by pressing buttons.

## Model

| member | source | states |
|---|---|---|
| Text.DigitChar | project/src/components/DinosaurCalculator.jsx:14 | the text of a digit button is one character between '0' and '9' whose value is the digit |
| Text.DigitTextAt | project/src/components/DinosaurCalculator.jsx:17 | the text of a run of digit presses has, at each position, that press's digit character |
| Text.StripLeadingZeros | project/src/components/DinosaurCalculator.jsx:17 | removing leading zeros leaves a suffix that does not start with '0', and only zeros were removed |
| Text.DigitLiteral | project/src/components/DinosaurCalculator.jsx:17 | the literal a run of digits spells is non-empty and has no leading zero unless it is "0" |
| Text.DigitLiteralCons | project/src/components/DinosaurCalculator.jsx:17 | a leading 0 does not change the literal a run spells, and a leading non-zero digit starts it |
| Text.CountAppend | project/src/components/DinosaurCalculator.jsx:25-26 | the count of '.' in a concatenation is the sum of the counts of its parts |
| Engine.InputNumber | project/src/components/DinosaurCalculator.jsx:12-19 | a digit replaces the display when an operand is awaited or the display is "0", and is appended otherwise; the waiting flag is cleared; the operand and operator are unchanged |
| Engine.InputDecimal | project/src/components/DinosaurCalculator.jsx:21-28 | while waiting the display becomes "0."; otherwise "." is appended only when the display has none; afterwards the display always holds a "."; the operand and operator are unchanged |
| Engine.Clear | project/src/components/DinosaurCalculator.jsx:30-35 | from any state, the result is the mounted state: "0", no operand, no operator, not waiting |
| Engine.Apply | project/src/components/DinosaurCalculator.jsx:46-64 | the switch gives a result exactly for + - * / =; = passes the operand through; + - * and / with a non-zero divisor compute the arithmetic result |
| Engine.PerformOperation | project/src/components/DinosaurCalculator.jsx:37-72 | an unrecognised pending operator leaves the state untouched; otherwise the component awaits an operand, holds an operand and records the pressed operator |
| Engine.Calculate | project/src/components/HedgehogCalculator.jsx:74-79 | "=" always ends with no operator, no operand and the waiting flag set |
| Engine.EnterDigitsKeepsChain | project/src/components/DinosaurCalculator.jsx:12-19 | digit presses never change the operand or the operator, and after one the component is not waiting |
| Engine.EnterDigitsAppends | project/src/components/DinosaurCalculator.jsx:16-18 | while a number other than "0" is typed, each digit is appended to it |
| Engine.EnterDigitsFromZero | project/src/components/DinosaurCalculator.jsx:16-18 | digits typed into "0" show the literal they spell: "0" then 5 shows "5", "0" then 0 shows "0" |
| Engine.EnterDigitsShowsLiteral | project/src/components/DinosaurCalculator.jsx:12-19 | digits typed into "0", or into any display while an operand is awaited, show exactly their literal with leading zeros collapsed |
| Engine.InputDecimalIdempotent | project/src/components/DinosaurCalculator.jsx:21-28 | pressing "." twice is the same as pressing it once |
| Engine.EntryKeepsAtMostOneDot | project/src/components/DinosaurCalculator.jsx:12-35 | digit entry, decimal entry and clear keep the display to at most one "." |
| Engine.PerformOperationCapturesOperand | project/src/components/DinosaurCalculator.jsx:37-71 | with no operand, the parsed display becomes the operand, the display is unchanged, the flag is set and the pressed operator is recorded |
| Engine.PerformOperationAppliesPending | project/src/components/DinosaurCalculator.jsx:42-71 | with an operand and a recognised pending operator, that operator is applied to the operand and the parsed display, and the result goes to both the display and the operand |
| Engine.PerformOperationIgnoresNext | project/src/components/DinosaurCalculator.jsx:37-72 | the operator pressed does not affect the display, the operand or the flag; it only becomes the new pending operator |
| Engine.PendingEqualsPassesThrough | project/src/components/DinosaurCalculator.jsx:59-61 | a pending "=" makes the parsed display both the operand and, as text, the display |
| Engine.PerformOperationWithoutPending | project/src/components/DinosaurCalculator.jsx:40-71 | with an operand but no pending operator, display and operand stay, the flag is set and the pressed operator is recorded (a state the keypad never reaches) |
| Engine.CalculateDisplay | project/src/components/HedgehogCalculator.jsx:37-79 | after "=", the display holds the pending operator's result when a chain was open, and is unchanged otherwise |
| Engine.CalculateIdempotent | project/src/components/HedgehogCalculator.jsx:74-79 | a second "=" straight after the first changes nothing |
| Widget.Calculator.constructor | project/src/components/DinosaurCalculator.jsx:7-10 | mounting gives display "0", no operand, no operator, not waiting |
| Widget.Calculator.InputNumber | project/src/components/DinosaurCalculator.jsx:12-19 | the fields afterwards are the digit-entry transition of the fields before |
| Widget.Calculator.InputDecimal | project/src/components/DinosaurCalculator.jsx:21-28 | the fields afterwards are the decimal-entry transition of the fields before |
| Widget.Calculator.Clear | project/src/components/DinosaurCalculator.jsx:30-35 | the fields afterwards are the mounted state |
| Widget.Calculator.PerformOperation | project/src/components/DinosaurCalculator.jsx:37-72 | the fields afterwards are the operator transition of the fields before, including the early return |
| Widget.Calculator.Calculate | project/src/components/DinosaurCalculator.jsx:74-79 | the fields afterwards are the equals transition of the fields before; the later setters override those of `performOperation('=')` |
| Keypad.Step | project/src/components/HedgehogCalculator.jsx:111-190 | digit and "." presses keep the operand and operator; digit, "." and clear leave the flag cleared; clear gives the mounted state; "=" closes the chain |
| Keypad.ChainInvariantExcludesEarlyReturn | project/src/components/DinosaurCalculator.jsx:62-63 | when the pending operator is one of the keypad's four and has an operand, the switch's default return is not taken |
| Keypad.StepKeepsChain | project/src/components/DinosaurCalculator.jsx:12-79 | every press keeps the invariant that a pending operator is one of + - * / and that an operand is held exactly when an operator is pending |
| Keypad.RunKeepsChain | project/src/components/DinosaurCalculator.jsx:12-79 | every run of presses keeps that invariant |
| Keypad.ReachableKeepsChain | project/src/components/DinosaurCalculator.jsx:7-79 | every state reached from mounting keeps it, so the default return, an operator without an operand and an operand without an operator never happen from the keypad |
| Keypad.DigitKeepsDisplayTyped | project/src/components/DinosaurCalculator.jsx:12-19 | after a digit press the display is digits with at most one "." whenever it was so before or an operand was awaited |
| Keypad.PointKeepsDisplayTyped | project/src/components/DinosaurCalculator.jsx:21-28 | after a "." press the display is digits with at most one "." whenever it was so before or an operand was awaited |
| Keypad.StepKeepsDisplayTyped | project/src/components/DinosaurCalculator.jsx:12-79 | every press keeps the display digits with at most one "." whenever no operand is awaited; a computed result is shown only while an operand is awaited |
| Keypad.RunKeepsDisplayTyped | project/src/components/DinosaurCalculator.jsx:12-79 | every run of presses keeps that property |
| Keypad.ReachableDisplayTyped | project/src/components/DinosaurCalculator.jsx:7-79 | in every state reached from mounting in which no operand is awaited, the display is digits with at most one "." |
| Keypad.OperatorPressAwaitsOperand | project/src/components/HedgehogCalculator.jsx:70-78 | in a reachable state every operator press and every "=" leaves the component awaiting an operand |
| Keypad.OnlyEntryStopsWaiting | project/src/components/HedgehogCalculator.jsx:12-79 | only a digit, "." or clear ever clears the waiting flag |
| Keypad.EntryStepKeepsAtMostOneDot | project/src/components/HedgehogCalculator.jsx:12-35 | a digit, "." or clear press keeps the display to at most one "." |
| Keypad.SevenPlusThree | project/src/components/HedgehogCalculator.jsx:12-79 | 7, +, 3, = shows the text of 10 |
| Keypad.RepeatedEquals | project/src/components/HedgehogCalculator.jsx:37-79 | 5, +, 3, = shows the text of 8, and a second = keeps it |
| Keypad.DivideByZero | project/src/components/DinosaurCalculator.jsx:56-57 | 5, /, 0, = shows the host's text for 5 divided by zero, with no error raised |
| Keypad.RepeatedOperator | project/src/components/DinosaurCalculator.jsx:42-48 | 5, +, + applies the pending + again and shows the text of 10 |

## Left out

- The JSX rendering: the themed `Button`, `Card` and `Typography` markup, the CSS class strings and the inner `DinosaurButton` and `HedgehogButton` components. `Keypad` keeps only which handler each button calls.
- React's `useState` mechanics. A handler is one transition on a snapshot of the four fields, and for each field the last setter wins.
- IEEE-754 arithmetic. Numbers are `real`, so there is no rounding, infinity or NaN.
- `parseFloat` and `String(number)`: they are abstract functions supplied by `Engine.Numerics`.
- Engine.Apply: the quotient by zero is an abstract `divideByZero(dividend)`, not the host's infinity or NaN.
- Engine.PerformOperation: `previousValue || 0` is the operand itself, because on reals only NaN would make it differ from the operand.
- Operators are single characters, not arbitrary strings. So an empty string, which is falsy as a pending operator in the host, cannot be passed; every call site passes a one-character symbol.
- Widget.Calculator.PerformOperation: the `switch` is written as a call to `Engine.Apply`, which has the same cases, rather than as a switch statement in the method.
