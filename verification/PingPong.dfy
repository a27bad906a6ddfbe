/** The coherency ping-pong: two threads hand a counter back and forth with compare-and-swap.
    A transition system over every interleaving of their steps, failed attempts included. */
module PingPong {
  import opened Words

  datatype Tid = First | Second

  /** At its loop test, about to compare and swap, or out of the loop. */
  datatype Pc = Test | Swap | Exited

  datatype Thread = Thread(pc: Pc, current: Word, wins: nat)

  /** log lists the successful swaps, oldest first. */
  datatype State = State(target: Word, first: Thread, second: Thread, log: seq<Tid>)

  function Of(s: State, t: Tid): Thread {
    if t == First then s.first else s.second
  }

  function With(s: State, t: Tid, x: Thread): State {
    if t == First then s.(first := x) else s.(second := x)
  }

  function Initial(): State {
    State(0, Thread(Test, 1, 0), Thread(Test, 2, 0), [])
  }

  /** One step of thread t: its loop test, or its compare-and-swap, which may fail. */
  function Step(iterations: nat, s: State, t: Tid): State {
    var x := Of(s, t);
    match x.pc
    case Test => With(s, t, x.(pc := if x.current <= Wrap(2 * iterations) then Swap else Exited))
    case Swap =>
      if s.target == Wrap(x.current - 1)
      then With(s, t, Thread(Test, Wrap(x.current + 2), x.wins + 1)).(target := x.current, log := s.log + [t])
      else With(s, t, x.(pc := Test))
    case Exited => s
  }

  function Run(iterations: nat, s: State, schedule: seq<Tid>): State
    decreases |schedule|
  {
    if schedule == [] then s else Run(iterations, Step(iterations, s, schedule[0]), schedule[1..])
  }

  // ----- what every interleaving keeps

  /** First, second, first, .. : v successes in strict alternation. */
  function Alternation(v: nat): (log: seq<Tid>)
    ensures |log| == v
    ensures forall k :: 0 <= k < v ==> log[k] == if k % 2 == 0 then First else Second
  {
    if v == 0 then [] else Alternation(v - 1) + [if v % 2 == 1 then First else Second]
  }

  /** The counter fits 64 bits for this many iterations. */
  predicate Fits(iterations: nat) {
    2 * iterations + 2 < TWO64
  }

  /** The thread whose swap would succeed at counter value v. */
  function Turn(v: nat): Tid {
    if v % 2 == 0 then First else Second
  }

  ghost predicate ThreadInvariant(iterations: nat, v: nat, t: Tid, x: Thread) {
    && x.current == (if t == Turn(v) then v + 1 else v + 2)
    && x.wins == (if t == First then (v + 1) / 2 else v / 2)
    && (x.pc == Swap ==> x.current <= 2 * iterations)
    && (x.pc == Exited ==> x.current > 2 * iterations)
  }

  ghost predicate Invariant(iterations: nat, s: State) {
    && Fits(iterations) && s.target <= 2 * iterations
    && ThreadInvariant(iterations, s.target, First, s.first)
    && ThreadInvariant(iterations, s.target, Second, s.second)
    && s.log == Alternation(s.target)
  }

  lemma InitialInvariant(iterations: nat)
    requires Fits(iterations)
    ensures Invariant(iterations, Initial())
  {
  }

  /** A step raises the counter by one exactly when the thread whose turn it is swaps; otherwise it
      leaves the counter, the log and both thread's counts alone. No arithmetic wraps: a loop test compares with twice the
      iterations, a swap moves the thread's value on by two, and a failed swap leads back to the loop test. */
  lemma StepInvariant(iterations: nat, s: State, t: Tid)
    requires Invariant(iterations, s)
    ensures var s' := Step(iterations, s, t);
      && Invariant(iterations, s')
      && s'.target == (if Of(s, t).pc == Swap && t == Turn(s.target) then s.target + 1 else s.target)
    ensures var x := Of(s, t); var s' := Step(iterations, s, t);
      && (x.pc == Test ==> s' == With(s, t, x.(pc := if x.current <= 2 * iterations then Swap else Exited)))
      && (x.pc == Swap && t == Turn(s.target) ==>
            s' == With(s, t, Thread(Test, x.current + 2, x.wins + 1)).(target := x.current, log := s.log + [t]))
      && (x.pc == Swap && t != Turn(s.target) ==> s' == With(s, t, x.(pc := Test)))
      && (x.pc == Exited ==> s' == s)
  {
    hide Alternation, Wrap;
    var x := Of(s, t);
    WrapSmall(2 * iterations);
    WrapSmall(x.current - 1);
    WrapSmall(x.current + 2);
    if x.pc == Swap && t == Turn(s.target) {
      Extend(s.target);
    }
  }

  lemma WrapSmall(x: int)
    ensures 0 <= x < TWO64 ==> Wrap(x) == x
  {
  }

  lemma Extend(v: nat)
    ensures Alternation(v + 1) == Alternation(v) + [Turn(v)]
  {
  }

  lemma {:induction false} RunInvariant(iterations: nat, s: State, schedule: seq<Tid>)
    requires Invariant(iterations, s)
    ensures Invariant(iterations, Run(iterations, s, schedule))
    ensures s.target <= Run(iterations, s, schedule).target
    decreases |schedule|
  {
    if schedule != [] {
      StepInvariant(iterations, s, schedule[0]);
      RunInvariant(iterations, Step(iterations, s, schedule[0]), schedule[1..]);
    }
  }

  predicate Final(s: State) {
    s.first.pc == Exited && s.second.pc == Exited
  }

  /** The compare of thread t's swap would find the value it expects. */
  predicate CanSwap(s: State, t: Tid) {
    s.target == Wrap(Of(s, t).current - 1)
  }

  /** In every reachable state: the counter is the number of successes, they alternate strictly, the two
      current values are the next two counter values, exactly one thread can swap, and it has not left
      its loop while the counter is below 2 * iterations; at the end each thread has swapped
      `iterations` times. */
  lemma EveryInterleaving(iterations: nat, schedule: seq<Tid>)
    requires Fits(iterations)
    ensures var s := Run(iterations, Initial(), schedule);
      && s.log == Alternation(s.target) && s.first.wins + s.second.wins == s.target <= 2 * iterations
      && {s.first.current, s.second.current} == {s.target + 1, s.target + 2}
      && (CanSwap(s, First) <==> !CanSwap(s, Second))
      && (s.target < 2 * iterations ==> forall t :: CanSwap(s, t) ==> Of(s, t).pc != Exited)
      && (Final(s) ==> s.target == 2 * iterations && s.first.wins == s.second.wins == iterations)
  {
    hide Alternation;
    InitialInvariant(iterations);
    RunInvariant(iterations, Initial(), schedule);
  }

  // ----- every fair schedule finishes

  /** Both threads take a step somewhere in the window. */
  ghost predicate Both(window: seq<Tid>) {
    First in window && Second in window
  }

  function Window(schedule: seq<Tid>, i: nat, k: nat): seq<Tid>
    requires i + k <= |schedule|
  {
    schedule[i..i + k]
  }

  /** Any k consecutive steps of the schedule include a step of each thread. */
  ghost predicate Fair(schedule: seq<Tid>, k: nat) {
    forall i: nat :: i + k <= |schedule| ==> Both(Window(schedule, i, k))
  }

  /** Steps the thread whose turn it is still has to take before the counter reaches 2 * iterations. */
  function Rank(iterations: nat, s: State): int {
    if s.target < 2 * iterations
    then 2 * (2 * iterations - s.target) - (if Of(s, Turn(s.target)).pc == Swap then 1 else 0)
    else 0
  }

  lemma RankStep(iterations: nat, s: State, t: Tid)
    requires Invariant(iterations, s)
    ensures var s' := Step(iterations, s, t);
      && 0 <= Rank(iterations, s') <= Rank(iterations, s)
      && (s.target < 2 * iterations && t == Turn(s.target) ==> Rank(iterations, s') < Rank(iterations, s))
      && (Rank(iterations, s) > 0 && Rank(iterations, s') == Rank(iterations, s) ==> s'.target == s.target)
      && (s.target == 2 * iterations ==> Of(s', t).pc == Exited)
      && (Of(s, First).pc == Exited ==> Of(s', First).pc == Exited)
      && (Of(s, Second).pc == Exited ==> Of(s', Second).pc == Exited)
  {
    hide Alternation;
  }

  /** A window in which the thread whose turn it is takes a step lowers the rank. */
  lemma {:induction false} RankWindow(iterations: nat, s: State, window: seq<Tid>)
    requires Invariant(iterations, s)
    ensures var e := Run(iterations, s, window);
      && 0 <= Rank(iterations, e) <= Rank(iterations, s)
      && (s.target < 2 * iterations && Turn(s.target) in window ==> Rank(iterations, e) < Rank(iterations, s))
    decreases |window|
  {
    hide Step, Invariant, Rank;
    RankPositive(iterations, s);
    if window != [] {
      var s' := Step(iterations, s, window[0]);
      RankStep(iterations, s, window[0]);
      StepInvariant(iterations, s, window[0]);
      RankPositive(iterations, s');
      RankWindow(iterations, s', window[1..]);
    }
  }

  lemma RankPositive(iterations: nat, s: State)
    requires Invariant(iterations, s)
    ensures Rank(iterations, s) >= 0 && (Rank(iterations, s) > 0 <==> s.target < 2 * iterations)
  {
  }

  /** Once the counter is at its end, a window with a step of each thread lets both leave. */
  lemma {:induction false} ExitWindow(iterations: nat, s: State, window: seq<Tid>)
    requires Invariant(iterations, s) && s.target == 2 * iterations
    ensures forall t :: Of(s, t).pc == Exited || t in window ==> Of(Run(iterations, s, window), t).pc == Exited
    decreases |window|
  {
    hide Invariant, Rank;
    if window != [] {
      var s' := Step(iterations, s, window[0]);
      RankStep(iterations, s, window[0]);
      StepInvariant(iterations, s, window[0]);
      ExitWindow(iterations, s', window[1..]);
      assert forall t :: t in window ==> t == window[0] || t in window[1..];
    }
  }

  lemma {:induction false} RunAppend(iterations: nat, s: State, a: seq<Tid>, b: seq<Tid>)
    ensures Run(iterations, s, a + b) == Run(iterations, Run(iterations, s, a), b)
    decreases |a|
  {
    if a == [] {
      assert a + b == b;
    } else {
      assert (a + b)[1..] == a[1..] + b;
      RunAppend(iterations, Step(iterations, s, a[0]), a[1..], b);
    }
  }

  lemma FairSuffix(schedule: seq<Tid>, k: nat, i: nat)
    requires Fair(schedule, k) && i <= |schedule|
    ensures Fair(schedule[i..], k)
  {
    forall j: nat | j + k <= |schedule[i..]|
      ensures Both(Window(schedule[i..], j, k))
    {
      assert Window(schedule[i..], j, k) == Window(schedule, i + j, k);
    }
  }

  lemma {:induction false} FinishesFrom(iterations: nat, s: State, schedule: seq<Tid>, k: nat, windows: nat)
    requires Invariant(iterations, s) && Fair(schedule, k) && |schedule| >= (windows + 1) * k
    requires Rank(iterations, s) <= windows
    ensures Final(Run(iterations, s, schedule))
    decreases windows
  {
    hide Invariant, Rank, Run, Step;
    FirstWindow(schedule, k, windows);
    var window, rest := schedule[..k], schedule[k..];
    assert schedule == window + rest;
    RunAppend(iterations, s, window, rest);
    FairSuffix(schedule, k, k);
    var e := Run(iterations, s, window);
    RunInvariant(iterations, s, window);
    RankPositive(iterations, s);
    if s.target == 2 * iterations {
      EndReached(iterations, s);
      ExitWindow(iterations, s, window);
      AllExited(iterations, e, rest);
    } else {
      BelowEnd(iterations, s);
      RankWindow(iterations, s, window);
      FinishesFrom(iterations, e, rest, k, windows - 1);
    }
  }

  lemma FirstWindow(schedule: seq<Tid>, k: nat, windows: nat)
    requires Fair(schedule, k) && |schedule| >= (windows + 1) * k
    ensures k <= |schedule| && First in schedule[..k] && Second in schedule[..k]
    ensures |schedule[k..]| >= windows * k
  {
    assert (windows + 1) * k == windows * k + k;
    assert Both(Window(schedule, 0, k));
    assert Window(schedule, 0, k) == schedule[..k];
  }

  lemma EndReached(iterations: nat, s: State)
    requires Invariant(iterations, s) && s.target == 2 * iterations
    ensures Rank(iterations, s) == 0
  {
  }

  lemma BelowEnd(iterations: nat, s: State)
    requires Invariant(iterations, s) && s.target != 2 * iterations
    ensures s.target < 2 * iterations && Rank(iterations, s) > 0
  {
  }

  lemma {:induction false} AllExited(iterations: nat, s: State, schedule: seq<Tid>)
    requires Final(s)
    ensures Final(Run(iterations, s, schedule))
    decreases |schedule|
  {
    if schedule != [] {
      AllExited(iterations, s, schedule[1..]);
    }
  }

  /** No deadlock and no starvation: under any schedule in which every k consecutive steps include one of
      each thread, both threads are out of their loops after (4 * iterations + 1) * k steps. */
  lemma FairSchedulesFinish(iterations: nat, schedule: seq<Tid>, k: nat)
    requires Fits(iterations) && Fair(schedule, k) && |schedule| >= (4 * iterations + 1) * k
    ensures Final(Run(iterations, Initial(), schedule))
  {
    InitialInvariant(iterations);
    FinishesFrom(iterations, Initial(), schedule, k, 4 * iterations);
  }

  // ----- one iteration more than fits

  const TOO_MANY: nat := 0x7FFF_FFFF_FFFF_FFFF

  ghost predicate EdgeInvariant(s: State) {
    && s.target <= 2 * TOO_MANY && s.second.pc != Exited
    && s.first.current == (if s.target % 2 == 0 then s.target + 1 else s.target + 2)
    && s.second.current == Wrap(if s.target % 2 == 0 then s.target + 2 else s.target + 1)
    && (s.first.pc == Swap ==> s.first.current <= 2 * TOO_MANY)
  }

  lemma {:induction false} EdgeKept(s: State, schedule: seq<Tid>)
    requires EdgeInvariant(s)
    ensures EdgeInvariant(Run(TOO_MANY, s, schedule))
    decreases |schedule|
  {
    if schedule != [] {
      EdgeStep(s, schedule[0]);
      EdgeKept(Step(TOO_MANY, s, schedule[0]), schedule[1..]);
    }
  }

  lemma EdgeStep(s: State, t: Tid)
    requires EdgeInvariant(s)
    ensures EdgeInvariant(Step(TOO_MANY, s, t))
  {
    hide Wrap;
    var x := Of(s, t);
    WrapSmall(2 * TOO_MANY);
    WrapSmall(x.current - 1);
    WrapSmall(x.current + 2);
    WrapSmall(s.target + 1);
    WrapSmall(s.target + 2);
    WrapEdge();
  }

  lemma WrapEdge()
    ensures Wrap(TWO64) == 0 && Wrap(-1) == TWO64 - 1
  {
  }

  /** At the first iteration count that does not fit the second thread's value wraps to zero on its last success,
      and no schedule ever finishes. */
  lemma TooManyNeverFinish(schedule: seq<Tid>)
    ensures Fits(TOO_MANY - 1) && !Fits(TOO_MANY)
    ensures !Final(Run(TOO_MANY, Initial(), schedule))
  {
    EdgeKept(Initial(), schedule);
  }

  // ----- every iteration count

  const TWO63: nat := 0x8000_0000_0000_0000

  lemma DoubleWraps(iterations: nat)
    ensures Wrap(2 * iterations) == Wrap(2 * (iterations % TWO63))
  {
    var q, r := iterations / TWO63, iterations % TWO63;
    assert 2 * iterations == q * TWO64 + 2 * r;
  }

  /** The threads compare with twice the iterations, so counts equal modulo 2^63 run alike. */
  lemma {:induction false} SameRun(iterations: nat, s: State, schedule: seq<Tid>)
    ensures Run(iterations, s, schedule) == Run(iterations % TWO63, s, schedule)
    decreases |schedule|
  {
    hide Wrap;
    if schedule != [] {
      DoubleWraps(iterations);
      SameRun(iterations, Step(iterations, s, schedule[0]), schedule[1..]);
    }
  }

  /** For any 64-bit count: a fair schedule of the length below finishes if and only if the count is not
      2^63 - 1 modulo 2^63, and then each thread has swapped as often as the count's low 63 bits say. */
  lemma FinishesIff(iterations: Word, schedule: seq<Tid>, k: nat)
    requires Fair(schedule, k) && |schedule| >= (4 * (iterations % TWO63) + 1) * k
    ensures Final(Run(iterations, Initial(), schedule)) <==> iterations % TWO63 != TOO_MANY
    ensures var e := Run(iterations, Initial(), schedule);
      Final(e) ==> e.first.wins == e.second.wins == iterations % TWO63
  {
    hide Run, Wrap, Fair, Initial;
    SameRun(iterations, Initial(), schedule);
    if iterations % TWO63 == TOO_MANY {
      TooManyNeverFinish(schedule);
    } else {
      FairSchedulesFinish(iterations % TWO63, schedule, k);
      EveryInterleaving(iterations % TWO63, schedule);
    }
  }

  /** The iteration argument -1 reaches the threads as 2^64 - 1, and the test never ends. */
  lemma MinusOneNeverFinishes(schedule: seq<Tid>)
    ensures !Final(Run(TWO64 - 1, Initial(), schedule))
  {
    hide Run, Initial;
    SameRun(TWO64 - 1, Initial(), schedule);
    TooManyNeverFinish(schedule);
  }
}
