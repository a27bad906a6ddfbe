/** The calls and returns of a chain of functions, and what a return-address predictor makes of them. */
module CallNest {
  import opened Machine

  /** A call: the entry line it goes to and the line it returns to. */
  datatype Call = Call(entry: nat, returnTo: nat)

  /** Each call wraps the next ones, and every call is matched by a return to its own return address. */
  function Nested(calls: seq<Call>): seq<Event> {
    if calls == [] then []
    else [Called(calls[0].entry, calls[0].returnTo)] + Nested(calls[1..]) + [Returned(calls[0].returnTo)]
  }

  function Repeat(log: seq<Event>, n: nat): seq<Event> {
    if n == 0 then [] else log + Repeat(log, n - 1)
  }

  function CallCount(log: seq<Event>): nat {
    if log == [] then 0 else (if log[0].Called? then 1 else 0) + CallCount(log[1..])
  }

  /** A return-address stack of limited capacity: a push beyond it loses the oldest entry. */
  function Push(capacity: nat, stack: seq<nat>, returnTo: nat): seq<nat> {
    var longer := stack + [returnTo];
    if |longer| > capacity then longer[1..] else longer
  }

  function Pop(stack: seq<nat>): seq<nat> {
    if stack == [] then [] else stack[..|stack| - 1]
  }

  /** The stack after one event. */
  function Update(capacity: nat, e: Event, stack: seq<nat>): seq<nat> {
    if e.Called? then Push(capacity, stack, e.returnTo) else if e.Returned? then Pop(stack) else stack
  }

  /** One for a return that the top of the stack does not predict. */
  function Miss(e: Event, stack: seq<nat>): nat {
    if e.Returned? && (stack == [] || stack[|stack| - 1] != e.to) then 1 else 0
  }

  /** The stack after an execution. */
  function After(capacity: nat, log: seq<Event>, stack: seq<nat>): seq<nat>
    decreases |log|
  {
    if log == [] then stack else After(capacity, log[1..], Update(capacity, log[0], stack))
  }

  /** How many returns of an execution the stack mispredicts. */
  function Misses(capacity: nat, log: seq<Event>, stack: seq<nat>): nat
    decreases |log|
  {
    if log == [] then 0 else Miss(log[0], stack) + Misses(capacity, log[1..], Update(capacity, log[0], stack))
  }

  lemma {:induction false} Append(capacity: nat, a: seq<Event>, b: seq<Event>, stack: seq<nat>)
    ensures After(capacity, a + b, stack) == After(capacity, b, After(capacity, a, stack))
    ensures Misses(capacity, a + b, stack) == Misses(capacity, a, stack) + Misses(capacity, b, After(capacity, a, stack))
    ensures CallCount(a + b) == CallCount(a) + CallCount(b)
    decreases |a|
  {
    if a == [] {
      assert a + b == b;
    } else {
      assert (a + b)[0] == a[0] && (a + b)[1..] == a[1..] + b;
      Append(capacity, a[1..], b, Update(capacity, a[0], stack));
    }
  }

  function Excess(depth: nat, capacity: nat): nat {
    if depth > capacity then depth - capacity else 0
  }

  function Least(x: nat, y: nat): nat {
    if x < y then x else y
  }

  /** A nest of d calls costs a stack of capacity c exactly max(0, d - c) mispredicted returns, and
      loses from the entries below it only those the capacity had no room for. */
  lemma {:induction false} NestPredicted(c: nat, calls: seq<Call>, stack: seq<nat>)
    requires |stack| <= c
    ensures Misses(c, Nested(calls), stack) == Excess(|calls|, c)
    ensures After(c, Nested(calls), stack) == stack[Least(|stack|, Excess(|stack| + |calls|, c))..]
    ensures CallCount(Nested(calls)) == |calls|
    decreases |calls|
  {
    if calls != [] {
      var call, rest := calls[0], Nested(calls[1..]);
      var pushed := Push(c, stack, call.returnTo);
      NestPredicted(c, calls[1..], pushed);
      NestStep(c, Called(call.entry, call.returnTo), rest, Returned(call.returnTo), stack);
      Kept(c, stack, call.returnTo, |calls| - 1);
    }
  }

  lemma NestStep(c: nat, enter: Event, rest: seq<Event>, leave: Event, stack: seq<nat>)
    ensures var below := After(c, rest, Update(c, enter, stack)); var all := [enter] + rest + [leave];
      && After(c, all, stack) == Update(c, leave, below)
      && Misses(c, all, stack) == Miss(enter, stack) + Misses(c, rest, Update(c, enter, stack)) + Miss(leave, below)
      && CallCount(all) == CallCount([enter]) + CallCount(rest) + CallCount([leave])
  {
    hide After, Misses, CallCount, Update, Miss;
    Single(c, enter, stack);
    Append(c, [enter], rest, stack);
    Append(c, [enter] + rest, [leave], stack);
    Single(c, leave, After(c, rest, Update(c, enter, stack)));
  }

  /** A pushed address survives d deeper calls exactly when the capacity exceeds d. */
  lemma Kept(c: nat, stack: seq<nat>, r: nat, d: nat)
    requires |stack| <= c
    ensures var pushed := Push(c, stack, r); var left := pushed[Least(|pushed|, Excess(|pushed| + d, c))..];
      && |pushed| <= c
      && (left != [] <==> d < c) && (left != [] ==> left[|left| - 1] == r)
      && Pop(left) == stack[Least(|stack|, Excess(|stack| + d + 1, c))..]
  {
  }

  lemma Single(c: nat, e: Event, stack: seq<nat>)
    ensures After(c, [e], stack) == Update(c, e, stack)
    ensures Misses(c, [e], stack) == Miss(e, stack)
    ensures CallCount([e]) == if e.Called? then 1 else 0
  {
    assert [e][1..] == [];
  }

  /** n rounds of a nest of d calls from an empty stack: n*d calls, and n*max(0, d - c) mispredictions,
      so a stack mispredicts nothing exactly when it holds d addresses. */
  lemma {:induction false} RoundsPredicted(c: nat, calls: seq<Call>, n: nat)
    ensures CallCount(Repeat(Nested(calls), n)) == n * |calls|
    ensures Misses(c, Repeat(Nested(calls), n), []) == n * Excess(|calls|, c)
    ensures After(c, Repeat(Nested(calls), n), []) == []
    decreases n
  {
    hide Nested, After, Misses, CallCount;
    if n == 0 {
      Empty(c);
    } else {
      NestPredicted(c, calls, []);
      RoundsPredicted(c, calls, n - 1);
      Append(c, Nested(calls), Repeat(Nested(calls), n - 1), []);
      assert n * |calls| == |calls| + (n - 1) * |calls|;
      assert n * Excess(|calls|, c) == Excess(|calls|, c) + (n - 1) * Excess(|calls|, c);
    }
  }

  lemma Empty(c: nat)
    ensures After(c, [], []) == [] && Misses(c, [], []) == 0 && CallCount([]) == 0
  {
  }
}
