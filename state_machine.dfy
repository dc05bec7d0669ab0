/** The hysteresis health classifier of statemachine.py.

    A `Health` object owns two saturating counters and a four-state machine. The
    machine itself is built by a transition library from a table of transitions;
    that library is modelled here by its documented semantics (`Fire`): for a
    trigger, the transitions registered for the current state are tried in
    registration order; each runs its `prepare` callback (whose counter changes
    persist) and then its condition; the first whose condition holds executes,
    moving to its destination, or staying put when the destination is `None`. */
module StateMachine {
  import opened Wrappers
  import opened Numbers

  datatype State = Unknown | Healthy | Degrading | Unhealthy

  /** The three triggers the table registers; `ToUnknown` is the one named `unknown`. */
  datatype Trigger = HealthyCheck | UnhealthyCheck | ToUnknown

  /** The `prepare` callbacks the table names. */
  datatype Callback = IncrementHealthy | IncrementUnhealthy

  /** The `conditions` predicates the table names. */
  datatype Condition = IsHealthThreshold | IsUnhealthyThreshold | IsDegrading

  datatype Transition = Transition(
    trigger: Trigger,
    sources: set<State>,
    dest: Option<State>,
    prepare: Option<Callback>,
    condition: Option<Condition>)

  /** Everything a trigger reads or writes on a `Health` object. */
  datatype Machine = Machine(
    state: State,
    healthyChecks: int,
    unhealthyChecks: int,
    unhealthyThreshold: int,
    healthyThreshold: int)

  /** The machine after a trigger, and the trigger's return value
      (true when some transition executed). */
  datatype Outcome = Outcome(machine: Machine, executed: bool)

  const AllStates: set<State> := {Unknown, Healthy, Degrading, Unhealthy}

  /** The fixed count of failures that moves UNKNOWN or HEALTHY to DEGRADING,
      whatever the configured unhealthy threshold. */
  const DegradingCount := 2

  // The transitions of `Health.__init__`, one constant per `add_transition` call.
  const ToHealthy := Transition(HealthyCheck, {Unknown, Degrading, Unhealthy}, Some(Healthy),
                                Some(IncrementHealthy), Some(IsHealthThreshold))
  const StayHealthy := Transition(HealthyCheck, {Healthy}, None, None, None)
  const ToUnhealthy := Transition(UnhealthyCheck, {Degrading}, Some(Unhealthy),
                                  Some(IncrementUnhealthy), Some(IsUnhealthyThreshold))
  const StayUnhealthy := Transition(UnhealthyCheck, {Unhealthy}, None, None, None)
  const ToDegrading := Transition(UnhealthyCheck, {Unknown, Healthy}, Some(Degrading),
                                  Some(IncrementUnhealthy), Some(IsDegrading))
  const Reset := Transition(ToUnknown, AllStates, Some(Unknown), None, None)

  /** The transition table in registration order. */
  const Table: seq<Transition> := [ToHealthy, StayHealthy, ToUnhealthy, StayUnhealthy, ToDegrading, Reset]

  /** A new machine: state UNKNOWN, both counters zero. */
  function Init(unhealthyThreshold: int, healthyThreshold: int): Machine {
    Machine(Unknown, 0, 0, unhealthyThreshold, healthyThreshold)
  }

  /** The effect of a `prepare` callback: each increments its own counter
      (saturating at its threshold) and clears the opposite one. */
  function RunCallback(cb: Callback, m: Machine): (r: Machine)
    ensures r.state == m.state
    ensures r.unhealthyThreshold == m.unhealthyThreshold && r.healthyThreshold == m.healthyThreshold
    ensures cb == IncrementHealthy ==> r.unhealthyChecks == 0 && m.healthyChecks <= r.healthyChecks
    ensures cb == IncrementUnhealthy ==> r.healthyChecks == 0 && m.unhealthyChecks <= r.unhealthyChecks
  {
    match cb
    case IncrementUnhealthy =>
      m.(healthyChecks := 0,
         unhealthyChecks := SaturatingIncrement(m.unhealthyChecks, m.unhealthyThreshold))
    case IncrementHealthy =>
      m.(unhealthyChecks := 0,
         healthyChecks := SaturatingIncrement(m.healthyChecks, m.healthyThreshold))
  }

  predicate Holds(c: Condition, m: Machine) {
    match c
    case IsUnhealthyThreshold => m.unhealthyChecks >= m.unhealthyThreshold
    case IsDegrading => m.unhealthyChecks >= DegradingCount
    case IsHealthThreshold => m.healthyChecks >= m.healthyThreshold
  }

  /** The transitions of `table` registered for trigger `t` from state `s`, in order. */
  function Candidates(table: seq<Transition>, s: State, t: Trigger): (r: seq<Transition>)
    ensures |r| <= |table|
  {
    if table == [] then []
    else
      var rest := Candidates(table[1..], s, t);
      if table[0].trigger == t && s in table[0].sources then [table[0]] + rest else rest
  }

  /** Tries the candidate transitions in order: prepare, then condition; the first
      whose condition holds (or that has none) executes. */
  function Execute(cands: seq<Transition>, m: Machine): (r: Outcome)
    ensures r.machine.unhealthyThreshold == m.unhealthyThreshold
    ensures r.machine.healthyThreshold == m.healthyThreshold
    ensures r.executed ==> cands != []
    ensures !r.executed ==> r.machine.state == m.state
  {
    if cands == [] then Outcome(m, false)
    else
      var tr := cands[0];
      var prepared := if tr.prepare.Some? then RunCallback(tr.prepare.value, m) else m;
      if tr.condition.None? || Holds(tr.condition.value, prepared) then
        Outcome(if tr.dest.Some? then prepared.(state := tr.dest.value) else prepared, true)
      else
        Execute(cands[1..], prepared)
  }

  /** Firing trigger `t`: `None` when no transition of `t` leaves the current
      state (the library raises an error then). */
  function Fire(table: seq<Transition>, m: Machine, t: Trigger): Option<Outcome> {
    var cands := Candidates(table, m.state, t);
    if cands == [] then None else Some(Execute(cands, m))
  }

  /** Every candidate is a transition of the table, for the trigger fired, and
      registered for the current state. */
  lemma {:induction false} CandidatesMatch(table: seq<Transition>, s: State, t: Trigger)
    ensures forall tr :: tr in Candidates(table, s, t) ==> tr in table && tr.trigger == t && s in tr.sources
    decreases |table|
  {
    if table != [] {
      CandidatesMatch(table[1..], s, t);
    }
  }

  /** Unfolds `Candidates` once on a non-empty table. */
  lemma CandidatesCons(tr: Transition, rest: seq<Transition>, s: State, t: Trigger)
    ensures Candidates([tr] + rest, s, t) ==
      (if tr.trigger == t && s in tr.sources then [tr] else []) + Candidates(rest, s, t)
  {
    assert ([tr] + rest)[1..] == rest;
  }

  /** `Candidates` on `Table`, unfolded transition by transition. */
  lemma UnfoldTable(s: State, t: Trigger)
    ensures Table == [ToHealthy] + [StayHealthy, ToUnhealthy, StayUnhealthy, ToDegrading, Reset]
    ensures Candidates(Table, s, t) ==
      (if ToHealthy.trigger == t && s in ToHealthy.sources then [ToHealthy] else []) +
      Candidates([StayHealthy, ToUnhealthy, StayUnhealthy, ToDegrading, Reset], s, t)
    ensures Candidates([StayHealthy, ToUnhealthy, StayUnhealthy, ToDegrading, Reset], s, t) ==
      (if StayHealthy.trigger == t && s in StayHealthy.sources then [StayHealthy] else []) +
      Candidates([ToUnhealthy, StayUnhealthy, ToDegrading, Reset], s, t)
    ensures Candidates([ToUnhealthy, StayUnhealthy, ToDegrading, Reset], s, t) ==
      (if ToUnhealthy.trigger == t && s in ToUnhealthy.sources then [ToUnhealthy] else []) +
      Candidates([StayUnhealthy, ToDegrading, Reset], s, t)
    ensures Candidates([StayUnhealthy, ToDegrading, Reset], s, t) ==
      (if StayUnhealthy.trigger == t && s in StayUnhealthy.sources then [StayUnhealthy] else []) +
      Candidates([ToDegrading, Reset], s, t)
    ensures Candidates([ToDegrading, Reset], s, t) ==
      (if ToDegrading.trigger == t && s in ToDegrading.sources then [ToDegrading] else []) +
      Candidates([Reset], s, t)
    ensures Candidates([Reset], s, t) == (if Reset.trigger == t && s in Reset.sources then [Reset] else [])
  {
    CandidatesCons(Reset, [], s, t);
    CandidatesCons(ToDegrading, [Reset], s, t);
    CandidatesCons(StayUnhealthy, [ToDegrading, Reset], s, t);
    CandidatesCons(ToUnhealthy, [StayUnhealthy, ToDegrading, Reset], s, t);
    CandidatesCons(StayHealthy, [ToUnhealthy, StayUnhealthy, ToDegrading, Reset], s, t);
    CandidatesCons(ToHealthy, [StayHealthy, ToUnhealthy, StayUnhealthy, ToDegrading, Reset], s, t);
  }

  /** The transitions `Table` registers for each (state, trigger) pair: exactly one. */
  lemma TableCandidates(s: State, t: Trigger)
    ensures Candidates(Table, s, t) ==
      match t
      case HealthyCheck => if s == Healthy then [StayHealthy] else [ToHealthy]
      case UnhealthyCheck =>
        if s == Degrading then [ToUnhealthy]
        else if s == Unhealthy then [StayUnhealthy]
        else [ToDegrading]
      case ToUnknown => [Reset]
  {
    UnfoldTable(s, t);
    assert s in AllStates by { assert s.Unknown? || s.Healthy? || s.Degrading? || s.Unhealthy?; }
    match t
    case HealthyCheck =>
    case UnhealthyCheck =>
    case ToUnknown =>
  }

  /** Executing a single candidate: prepare, then the condition decides. */
  lemma ExecuteSingle(tr: Transition, m: Machine)
    ensures var prepared := if tr.prepare.Some? then RunCallback(tr.prepare.value, m) else m;
      Execute([tr], m) ==
        if tr.condition.None? || Holds(tr.condition.value, prepared) then
          Outcome(if tr.dest.Some? then prepared.(state := tr.dest.value) else prepared, true)
        else Outcome(prepared, false)
  {
    assert [tr][1..] == [];
  }

  /** Every trigger is defined from every state of `Table`. */
  lemma FireTotal(m: Machine, t: Trigger)
    ensures Fire(Table, m, t).Some?
  {
    TableCandidates(m.state, t);
  }

  /** One trigger on the table of `Health`. */
  function Step(m: Machine, t: Trigger): Outcome {
    FireTotal(m, t);
    Fire(Table, m, t).value
  }

  /** Applies trigger `t` to `m` `k` times. */
  function Iterate(m: Machine, t: Trigger, k: nat): Machine
    decreases k
  {
    if k == 0 then m else Iterate(Step(m, t).machine, t, k - 1)
  }

  /** Applies a sequence of triggers in order. */
  function Run(m: Machine, ts: seq<Trigger>): Machine
    decreases |ts|
  {
    if ts == [] then m else Run(Step(m, ts[0]).machine, ts[1..])
  }

  /** What the table does on `healthyCheck`: nothing while HEALTHY; otherwise
      the unhealthy counter is cleared, the healthy counter incremented
      (saturating) and the state moves to HEALTHY exactly when the healthy
      counter has reached its threshold. */
  lemma HealthyCheckEffect(m: Machine)
    ensures var o := Step(m, HealthyCheck);
      if m.state == Healthy then o == Outcome(m, true)
      else
        var h := SaturatingIncrement(m.healthyChecks, m.healthyThreshold);
        && o.machine.healthyChecks == h
        && o.machine.unhealthyChecks == 0
        && o.machine.unhealthyThreshold == m.unhealthyThreshold
        && o.machine.healthyThreshold == m.healthyThreshold
        && (o.executed <==> h >= m.healthyThreshold)
        && o.machine.state == (if h >= m.healthyThreshold then Healthy else m.state)
  {
    TableCandidates(m.state, HealthyCheck);
    ExecuteSingle(if m.state == Healthy then StayHealthy else ToHealthy, m);
  }

  /** What the table does on `unhealthyCheck`: nothing while UNHEALTHY;
      otherwise the healthy counter is cleared, the unhealthy counter
      incremented (saturating), and the state moves DEGRADING -> UNHEALTHY when
      the unhealthy counter has reached its threshold, or UNKNOWN/HEALTHY ->
      DEGRADING when it has reached the fixed count 2. */
  lemma UnhealthyCheckEffect(m: Machine)
    ensures var o := Step(m, UnhealthyCheck);
      if m.state == Unhealthy then o == Outcome(m, true)
      else
        var u := SaturatingIncrement(m.unhealthyChecks, m.unhealthyThreshold);
        var bound := if m.state == Degrading then m.unhealthyThreshold else DegradingCount;
        var target := if m.state == Degrading then Unhealthy else Degrading;
        && o.machine.unhealthyChecks == u
        && o.machine.healthyChecks == 0
        && o.machine.unhealthyThreshold == m.unhealthyThreshold
        && o.machine.healthyThreshold == m.healthyThreshold
        && (o.executed <==> u >= bound)
        && o.machine.state == (if u >= bound then target else m.state)
  {
    TableCandidates(m.state, UnhealthyCheck);
    ExecuteSingle(
      if m.state == Degrading then ToUnhealthy
      else if m.state == Unhealthy then StayUnhealthy
      else ToDegrading, m);
  }

  /** `unknown` moves every state to UNKNOWN and leaves the counters alone. */
  lemma UnknownEffect(m: Machine)
    ensures Step(m, ToUnknown) == Outcome(m.(state := Unknown), true)
  {
    TableCandidates(m.state, ToUnknown);
    ExecuteSingle(Reset, m);
  }

  /** Each counter lies between 0 and its threshold (or is 0 when the threshold
      is negative, since a saturating increment never fires then). */
  predicate CountersInRange(m: Machine) {
    && 0 <= m.healthyChecks && (m.healthyChecks <= m.healthyThreshold || m.healthyChecks == 0)
    && 0 <= m.unhealthyChecks && (m.unhealthyChecks <= m.unhealthyThreshold || m.unhealthyChecks == 0)
  }

  /** No trigger changes the thresholds, and every trigger keeps the counters in range. */
  lemma StepKeepsCountersInRange(m: Machine, t: Trigger)
    requires CountersInRange(m)
    ensures Step(m, t).machine.healthyThreshold == m.healthyThreshold
    ensures Step(m, t).machine.unhealthyThreshold == m.unhealthyThreshold
    ensures CountersInRange(Step(m, t).machine)
  {
    match t
    case HealthyCheck => HealthyCheckEffect(m);
    case UnhealthyCheck => UnhealthyCheckEffect(m);
    case ToUnknown => UnknownEffect(m);
  }

  /** The counter bounds hold after any sequence of triggers from a new machine. */
  lemma {:induction false} RunKeepsCountersInRange(m: Machine, ts: seq<Trigger>)
    requires CountersInRange(m)
    ensures CountersInRange(Run(m, ts))
    decreases |ts|
  {
    if ts != [] {
      StepKeepsCountersInRange(m, ts[0]);
      RunKeepsCountersInRange(Step(m, ts[0]).machine, ts[1..]);
    }
  }

  /** UNHEALTHY is entered only from DEGRADING, only by `unhealthyCheck`, and
      exactly when the unhealthy counter reaches its threshold. */
  lemma EnteringUnhealthy(m: Machine, t: Trigger)
    requires m.state != Unhealthy
    ensures Step(m, t).machine.state == Unhealthy <==>
      && m.state == Degrading
      && t == UnhealthyCheck
      && Step(m, t).machine.unhealthyChecks >= m.unhealthyThreshold
  {
    match t
    case HealthyCheck => HealthyCheckEffect(m);
    case UnhealthyCheck => UnhealthyCheckEffect(m);
    case ToUnknown => UnknownEffect(m);
  }

  /** Iterating `a + b` times is iterating `a` times and then `b` times. */
  lemma {:induction false} IterateAdd(m: Machine, t: Trigger, a: nat, b: nat)
    ensures Iterate(m, t, a + b) == Iterate(Iterate(m, t, a), t, b)
    decreases a
  {
    if a > 0 {
      var next := Step(m, t).machine;
      IterateAdd(next, t, a - 1, b);
      assert Iterate(m, t, a + b) == Iterate(next, t, a - 1 + b);
      assert Iterate(m, t, a) == Iterate(next, t, a - 1);
    }
  }

  /** Further `healthyCheck`s while HEALTHY change nothing. */
  lemma {:induction false} HealthyIsStable(m: Machine, k: nat)
    requires m.state == Healthy
    ensures Iterate(m, HealthyCheck, k) == m
    decreases k
  {
    if k > 0 {
      HealthyCheckEffect(m);
      HealthyIsStable(m, k - 1);
    }
  }

  /** Further `unhealthyCheck`s while UNHEALTHY change nothing. */
  lemma {:induction false} UnhealthyIsStable(m: Machine, k: nat)
    requires m.state == Unhealthy
    ensures Iterate(m, UnhealthyCheck, k) == m
    decreases k
  {
    if k > 0 {
      UnhealthyCheckEffect(m);
      UnhealthyIsStable(m, k - 1);
    }
  }

  /** `k >= 1` consecutive successes from a state other than HEALTHY: the
      state is HEALTHY exactly when the healthy counter has had room to reach its
      threshold; otherwise it is unchanged; the unhealthy counter is 0. */
  lemma {:induction false} ConsecutiveSuccesses(m: Machine, k: nat)
    requires m.state != Healthy
    requires 0 <= m.healthyChecks <= m.healthyThreshold
    requires k >= 1
    ensures var r := Iterate(m, HealthyCheck, k);
      && r.state == (if m.healthyChecks + k >= m.healthyThreshold then Healthy else m.state)
      && r.healthyChecks == Min(m.healthyChecks + k, m.healthyThreshold)
      && r.unhealthyChecks == 0
      && r.healthyThreshold == m.healthyThreshold
      && r.unhealthyThreshold == m.unhealthyThreshold
    decreases k
  {
    HealthyCheckEffect(m);
    var m1 := Step(m, HealthyCheck).machine;
    if k > 1 {
      if m1.state == Healthy {
        HealthyIsStable(m1, k - 1);
      } else {
        ConsecutiveSuccesses(m1, k - 1);
      }
    }
  }

  /** `k >= 1` consecutive failures from DEGRADING: UNHEALTHY exactly when the
      unhealthy counter has had room to reach its threshold, DEGRADING otherwise;
      the healthy counter is 0. */
  lemma {:induction false} ConsecutiveFailuresWhileDegrading(m: Machine, k: nat)
    requires m.state == Degrading
    requires 0 <= m.unhealthyChecks <= m.unhealthyThreshold
    requires k >= 1
    ensures var r := Iterate(m, UnhealthyCheck, k);
      && r.state == (if m.unhealthyChecks + k >= m.unhealthyThreshold then Unhealthy else Degrading)
      && r.unhealthyChecks == Min(m.unhealthyChecks + k, m.unhealthyThreshold)
      && r.healthyChecks == 0
      && r.healthyThreshold == m.healthyThreshold
      && r.unhealthyThreshold == m.unhealthyThreshold
    decreases k
  {
    UnhealthyCheckEffect(m);
    var m1 := Step(m, UnhealthyCheck).machine;
    if k > 1 {
      if m1.state == Unhealthy {
        UnhealthyIsStable(m1, k - 1);
      } else {
        ConsecutiveFailuresWhileDegrading(m1, k - 1);
      }
    }
  }

  /** From UNKNOWN or HEALTHY with a clear unhealthy counter and a threshold of
      at least 2: one failure keeps the state, the second moves to DEGRADING,
      and after `k >= 2` failures the state is UNHEALTHY exactly when `k > 2`
      and `k` reaches the threshold; the unhealthy counter is then `k` capped at
      the threshold, the healthy counter 0. */
  lemma FailuresFromCleanState(m: Machine, k: nat)
    requires m.state == Unknown || m.state == Healthy
    requires m.unhealthyChecks == 0 && m.unhealthyThreshold >= 2
    requires k >= 2
    ensures Iterate(m, UnhealthyCheck, 1).state == m.state
    ensures Iterate(m, UnhealthyCheck, 2).state == Degrading
    ensures Iterate(m, UnhealthyCheck, k).state ==
      (if k > 2 && k >= m.unhealthyThreshold then Unhealthy else Degrading)
    ensures Iterate(m, UnhealthyCheck, k).unhealthyChecks == Min(k, m.unhealthyThreshold)
    ensures Iterate(m, UnhealthyCheck, k).healthyChecks == 0
  {
    UnhealthyCheckEffect(m);
    var m1 := Step(m, UnhealthyCheck).machine;
    UnhealthyCheckEffect(m1);
    var m2 := Step(m1, UnhealthyCheck).machine;
    assert Iterate(m, UnhealthyCheck, 1) == m1;
    assert Iterate(m, UnhealthyCheck, 2) == Iterate(m1, UnhealthyCheck, 1) == m2;
    if k > 2 {
      IterateAdd(m, UnhealthyCheck, 2, k - 2);
      ConsecutiveFailuresWhileDegrading(m2, k - 2);
    }
  }

  /** Because DEGRADING needs a fixed count of 2, an unhealthy threshold below 2
      keeps failures from ever leaving UNKNOWN or HEALTHY. */
  lemma {:induction false} NoDegradingBelowTwo(m: Machine, k: nat)
    requires m.state == Unknown || m.state == Healthy
    requires m.unhealthyThreshold < DegradingCount
    requires CountersInRange(m)
    ensures Iterate(m, UnhealthyCheck, k).state == m.state
    decreases k
  {
    if k > 0 {
      UnhealthyCheckEffect(m);
      StepKeepsCountersInRange(m, UnhealthyCheck);
      NoDegradingBelowTwo(Step(m, UnhealthyCheck).machine, k - 1);
    }
  }

  /** The `Health` object: its counters and state are updated in place by the
      triggers; the thresholds and the name are fixed at construction. */
  class Health {
    const appName: string
    const unhealthyThreshold: int
    const healthyThreshold: int
    var state: State
    var healthyChecks: int
    var unhealthyChecks: int

    function Snapshot(): Machine
      reads this
    {
      Machine(state, healthyChecks, unhealthyChecks, unhealthyThreshold, healthyThreshold)
    }

    /** A new object is in UNKNOWN with both counters zero. */
    constructor (appName: string, unhealthyThreshold: int := 2, healthyThreshold: int := 10)
      ensures this.appName == appName
      ensures Snapshot() == Init(unhealthyThreshold, healthyThreshold)
      ensures state == State.Unknown && healthyChecks == 0 && unhealthyChecks == 0
    {
      this.appName := appName;
      this.unhealthyThreshold := unhealthyThreshold;
      this.healthyThreshold := healthyThreshold;
      state := State.Unknown;
      healthyChecks, unhealthyChecks := 0, 0;
    }

    method IncrementUnhealthy()
      modifies this
      ensures Snapshot() == RunCallback(Callback.IncrementUnhealthy, old(Snapshot()))
    {
      healthyChecks := 0;
      unhealthyChecks := unhealthyChecks + (if unhealthyChecks < unhealthyThreshold then 1 else 0);
    }

    method IncrementHealthy()
      modifies this
      ensures Snapshot() == RunCallback(Callback.IncrementHealthy, old(Snapshot()))
    {
      unhealthyChecks := 0;
      healthyChecks := healthyChecks + (if healthyChecks < healthyThreshold then 1 else 0);
    }

    predicate IsUnhealthyThreshold()
      reads this
      ensures IsUnhealthyThreshold() <==> Holds(Condition.IsUnhealthyThreshold, Snapshot())
    {
      unhealthyChecks >= unhealthyThreshold
    }

    predicate IsDegrading()
      reads this
      ensures IsDegrading() <==> Holds(Condition.IsDegrading, Snapshot())
    {
      unhealthyChecks >= DegradingCount
    }

    predicate IsHealthThreshold()
      reads this
      ensures IsHealthThreshold() <==> Holds(Condition.IsHealthThreshold, Snapshot())
    {
      healthyChecks >= healthyThreshold
    }

    /** The `healthyCheck` trigger, as the table dispatches it. */
    method HealthyCheck() returns (executed: bool)
      modifies this
      ensures Outcome(Snapshot(), executed) == Step(old(Snapshot()), Trigger.HealthyCheck)
      ensures old(state) == Healthy ==> executed && Snapshot() == old(Snapshot())
      ensures old(state) != Healthy ==>
        && unhealthyChecks == 0
        && healthyChecks == SaturatingIncrement(old(healthyChecks), healthyThreshold)
        && executed == (healthyChecks >= healthyThreshold)
        && state == (if executed then Healthy else old(state))
    {
      HealthyCheckEffect(Snapshot());
      if state == Healthy {
        executed := true;
      } else {
        IncrementHealthy();
        executed := IsHealthThreshold();
        if executed {
          state := Healthy;
        }
      }
    }

    /** The `unhealthyCheck` trigger, as the table dispatches it. */
    method UnhealthyCheck() returns (executed: bool)
      modifies this
      ensures Outcome(Snapshot(), executed) == Step(old(Snapshot()), Trigger.UnhealthyCheck)
      ensures old(state) == Unhealthy ==> executed && Snapshot() == old(Snapshot())
      ensures old(state) != Unhealthy ==>
        && healthyChecks == 0
        && unhealthyChecks == SaturatingIncrement(old(unhealthyChecks), unhealthyThreshold)
        && executed == (unhealthyChecks >= if old(state) == Degrading then unhealthyThreshold else DegradingCount)
        && state == (if !executed then old(state) else if old(state) == Degrading then Unhealthy else Degrading)
    {
      UnhealthyCheckEffect(Snapshot());
      if state == Unhealthy {
        executed := true;
      } else if state == Degrading {
        IncrementUnhealthy();
        executed := IsUnhealthyThreshold();
        if executed {
          state := Unhealthy;
        }
      } else {
        IncrementUnhealthy();
        executed := IsDegrading();
        if executed {
          state := Degrading;
        }
      }
    }

    /** The `unknown` trigger. */
    method Unknown() returns (executed: bool)
      modifies this
      ensures Outcome(Snapshot(), executed) == Step(old(Snapshot()), ToUnknown)
      ensures executed && state == State.Unknown
      ensures healthyChecks == old(healthyChecks) && unhealthyChecks == old(unhealthyChecks)
    {
      UnknownEffect(Snapshot());
      state := State.Unknown;
      executed := true;
    }
  }

  /** The self-test of statemachine.py: thresholds 4 and 4, and the states and
      counters it asserts along the way. */
  method SelfTest() returns (h: Health)
    ensures h.state == Degrading && h.unhealthyChecks == 2 && h.healthyChecks == 0
  {
    h := new Health("test", unhealthyThreshold := 4, healthyThreshold := 4);
    assert h.state == Unknown;
    var ok;
    ok := h.HealthyCheck(); ok := h.HealthyCheck(); ok := h.HealthyCheck(); ok := h.HealthyCheck();
    assert h.state == Healthy;
    assert h.healthyChecks == h.healthyThreshold && h.unhealthyChecks == 0;
    ok := h.HealthyCheck();
    assert h.healthyChecks == h.healthyThreshold && h.unhealthyChecks == 0;

    ok := h.UnhealthyCheck(); ok := h.UnhealthyCheck();
    assert h.state == Degrading;
    ok := h.UnhealthyCheck(); ok := h.UnhealthyCheck();
    assert h.state == Unhealthy;
    assert h.unhealthyChecks == h.unhealthyThreshold && h.healthyChecks == 0;
    ok := h.UnhealthyCheck();
    assert h.unhealthyChecks == h.unhealthyThreshold && h.healthyChecks == 0;

    ok := h.HealthyCheck(); ok := h.HealthyCheck(); ok := h.HealthyCheck(); ok := h.HealthyCheck();
    assert h.state == Healthy;

    ok := h.UnhealthyCheck(); ok := h.UnhealthyCheck();
    assert h.state == Degrading;

    ok := h.HealthyCheck(); ok := h.HealthyCheck(); ok := h.HealthyCheck(); ok := h.HealthyCheck();
    assert h.state == Healthy;

    ok := h.Unknown();
    assert h.state == Unknown;

    ok := h.UnhealthyCheck(); ok := h.UnhealthyCheck();
    assert h.state == Degrading;
  }
}
