/**
 * The DFA stepper: a run record, the pure `start` and `step` on it, the
 * invariants every reachable run keeps, termination, and the simulator
 * class whose methods update the run's fields in place.
 */
module DfaSimulation {
  import opened Automata

  /** One history snapshot of a DFA run. */
  datatype DfaStep = DfaStep(state: string, input: string, position: nat, transition: Option<DfaTransition>)

  /** The progress of one DFA run. */
  datatype DfaRun = DfaRun(
    currentState: string,
    input: string,
    position: nat,
    accepted: Option<bool>,
    finished: bool,
    history: seq<DfaStep>)

  /** t leaves q on the one-character string c. */
  predicate Enabled(t: DfaTransition, q: string, c: char) {
    t.from == q && t.symbol == [c]
  }

  ghost predicate FirstEnabled(ts: seq<DfaTransition>, q: string, c: char, i: int) {
    0 <= i < |ts| && Enabled(ts[i], q, c) && forall j :: 0 <= j < i ==> !Enabled(ts[j], q, c)
  }

  /** The transition search of `step`: `transitions.find(...)` for q and c. */
  function Lookup(ts: seq<DfaTransition>, q: string, c: char): (r: Option<DfaTransition>)
    ensures r.Some? ==> Enabled(r.value, q, c) && r.value in ts
  {
    if |ts| == 0 then None
    else if Enabled(ts[0], q, c) then Some(ts[0])
    else Lookup(ts[1..], q, c)
  }

  /** Lookup finds nothing exactly when no transition is enabled, and
      otherwise the first enabled one in list order. */
  lemma {:induction false} LookupIsFirstMatch(ts: seq<DfaTransition>, q: string, c: char)
    ensures Lookup(ts, q, c).None? <==> forall j :: 0 <= j < |ts| ==> !Enabled(ts[j], q, c)
    ensures forall i :: FirstEnabled(ts, q, c, i) ==> Lookup(ts, q, c) == Some(ts[i])
  {
    if |ts| > 0 && !Enabled(ts[0], q, c) {
      LookupIsFirstMatch(ts[1..], q, c);
      assert forall i :: FirstEnabled(ts, q, c, i) ==> FirstEnabled(ts[1..], q, c, i - 1);
      assert forall j :: 1 <= j < |ts| ==> ts[j] == ts[1..][j - 1];
    }
  }

  /** What holds of every run that `start` and `step` can produce. */
  ghost predicate Inv(r: DfaRun) {
    && r.position <= |r.input|
    && |r.history| == r.position + 1
    && (forall k :: 0 <= k < |r.history| ==> r.history[k].position == k && r.history[k].input == r.input)
    && r.history[r.position].state == r.currentState
    && (r.finished <==> r.accepted.Some?)
  }

  /** `start(input)`. */
  function StartRun(a: Automaton<DfaTransition>, input: string): (res: Result<DfaRun>)
    ensures res.Err? <==> forall j :: 0 <= j < |a.states| ==> !a.states[j].isInitial
    ensures res.Err? ==> res.error == NoInitialState
    ensures forall i :: FirstInitial(a.states, i) ==>
              res == Ok(DfaRun(a.states[i].id, input, 0, None, false, [DfaStep(a.states[i].id, input, 0, None)]))
    ensures res.Ok? ==> Inv(res.value)
  {
    match InitialState(a.states)
    case None => Err(NoInitialState)
    case Some(s) => Ok(DfaRun(s.id, input, 0, None, false, [DfaStep(s.id, input, 0, None)]))
  }

  /** `step()` on an existing run; the missing run is the class's concern. */
  function StepRun(a: Automaton<DfaTransition>, r: DfaRun): (res: Result<DfaRun>)
    ensures res.Err? <==> r.finished
    ensures res.Err? ==> res.error == SimulationInactive
    ensures res.Ok? ==> res.value.input == r.input
    ensures res.Ok? ==> r.history <= res.value.history && |res.value.history| <= |r.history| + 1
  {
    if r.finished then Err(SimulationInactive)
    else if r.position >= |r.input| then
      Ok(r.(accepted := Some(IsFinal(a.states, r.currentState)), finished := true))
    else
      match Lookup(a.transitions, r.currentState, r.input[r.position])
      case None => Ok(r.(accepted := Some(false), finished := true))
      case Some(t) =>
        var position := r.position + 1;
        var r' := r.(currentState := t.to, position := position,
                     history := r.history + [DfaStep(t.to, r.input, position, Some(t))]);
        if position >= |r.input| then
          Ok(r'.(accepted := Some(IsFinal(a.states, t.to)), finished := true))
        else Ok(r')
  }

  /** Once the input is used up, the next step decides: accepted exactly when
      the current state is final, with no history entry added. */
  lemma StepAtEndOfInput(a: Automaton<DfaTransition>, r: DfaRun)
    requires !r.finished && r.position >= |r.input|
    ensures StepRun(a, r).Ok?
    ensures var r' := StepRun(a, r).value;
            && r'.finished && r'.accepted == Some(IsFinal(a.states, r.currentState))
            && r'.currentState == r.currentState && r'.position == r.position && r'.history == r.history
  {
  }

  /** No enabled transition rejects at once, whatever input is left, and changes nothing else. */
  lemma StepWithoutMatch(a: Automaton<DfaTransition>, r: DfaRun)
    requires !r.finished && r.position < |r.input|
    requires forall j :: 0 <= j < |a.transitions| ==> !Enabled(a.transitions[j], r.currentState, r.input[r.position])
    ensures StepRun(a, r).Ok?
    ensures var r' := StepRun(a, r).value;
            && r'.finished && r'.accepted == Some(false)
            && r'.currentState == r.currentState && r'.position == r.position && r'.history == r.history
  {
    LookupIsFirstMatch(a.transitions, r.currentState, r.input[r.position]);
  }

  /** A step with an enabled transition takes the first one in list order,
      consumes exactly one symbol, appends exactly one snapshot, and decides
      in the same step when that symbol was the last. */
  lemma StepTakesFirstMatch(a: Automaton<DfaTransition>, r: DfaRun, i: int)
    requires !r.finished && r.position < |r.input|
    requires FirstEnabled(a.transitions, r.currentState, r.input[r.position], i)
    ensures StepRun(a, r).Ok?
    ensures var r', t := StepRun(a, r).value, a.transitions[i];
            && r'.currentState == t.to
            && r'.position == r.position + 1
            && r'.history == r.history + [DfaStep(t.to, r.input, r.position + 1, Some(t))]
            && (r'.finished <==> r'.position == |r.input|)
            && (r'.finished ==> r'.accepted == Some(IsFinal(a.states, t.to)))
            && (!r'.finished ==> r'.accepted == r.accepted)
  {
    LookupIsFirstMatch(a.transitions, r.currentState, r.input[r.position]);
  }

  lemma StepPreservesInv(a: Automaton<DfaTransition>, r: DfaRun)
    requires Inv(r)
    ensures StepRun(a, r).Ok? ==> Inv(StepRun(a, r).value)
  {
  }

  /** `step` as a partial function: no successor once the run is finished. */
  function Next(a: Automaton<DfaTransition>, r: DfaRun): Option<DfaRun> {
    match StepRun(a, r)
    case Ok(r') => Some(r')
    case Err(_) => None
  }

  function Stepper(a: Automaton<DfaTransition>): DfaRun -> Option<DfaRun> {
    (r: DfaRun) => Next(a, r)
  }

  /** The run after n further calls of `step`, stopping once it is finished. */
  function Steps(a: Automaton<DfaTransition>, r: DfaRun, n: nat): DfaRun {
    Iterate(Stepper(a), r, n)
  }

  /** Steps still needed at most: one per remaining symbol, or one for the final verdict. */
  function Remaining(r: DfaRun): nat {
    if r.position < |r.input| then |r.input| - r.position else 1
  }

  /** Every run finishes within Remaining steps. */
  lemma {:induction false} FinishesWithin(a: Automaton<DfaTransition>, r: DfaRun, n: nat)
    requires Inv(r) && n >= Remaining(r)
    ensures Steps(a, r, n).finished
    decreases n
  {
    if r.finished {
      assert Stepper(a)(r) == None;
    } else {
      var r' := StepRun(a, r).value;
      StepPreservesInv(a, r);
      assert Stepper(a)(r) == Some(r');
      if !r'.finished {
        FinishesWithin(a, r', n - 1);
      } else if n > 1 {
        assert Stepper(a)(r') == None;
        assert Iterate(Stepper(a), r', n - 1) == r';
      }
    }
  }

  /** A run started on `input` is finished after max(|input|, 1) steps. */
  lemma StartedRunFinishes(a: Automaton<DfaTransition>, input: string)
    ensures StartRun(a, input).Ok? ==>
              Steps(a, StartRun(a, input).value, if |input| == 0 then 1 else |input|).finished
  {
    if StartRun(a, input).Ok? {
      FinishesWithin(a, StartRun(a, input).value, if |input| == 0 then 1 else |input|);
    }
  }

  /** Any number of further steps keeps the run invariant. */
  lemma StepsKeepInv(a: Automaton<DfaTransition>, r: DfaRun, n: nat)
    requires Inv(r)
    ensures Inv(Steps(a, r, n))
  {
    forall x | Inv(x) && Stepper(a)(x).Some?
      ensures Inv(Stepper(a)(x).value)
    {
      StepPreservesInv(a, x);
    }
    IterateKeeps(Stepper(a), (x: DfaRun) => Inv(x), r, n);
  }

  /** Later steps only ever append to the history: every snapshot already
      taken is kept unchanged, and each step adds at most one. */
  lemma {:induction false} StepsAppendToHistory(a: Automaton<DfaTransition>, r: DfaRun, n: nat)
    ensures r.history <= Steps(a, r, n).history
    ensures |Steps(a, r, n).history| <= |r.history| + n
    decreases n
  {
    if n > 0 && !r.finished {
      var r' := StepRun(a, r).value;
      assert Stepper(a)(r) == Some(r');
      StepsAppendToHistory(a, r', n - 1);
      assert r.history <= r'.history <= Steps(a, r', n - 1).history;
    }
  }

  /** `DFASimulator`: the automaton and one optional run, stored field by field. */
  class DfaSimulator {
    const automaton: Automaton<DfaTransition>
    /** Whether a run exists (the source's `state !== null`). */
    var active: bool
    var currentState: string
    var input: string
    var position: nat
    var accepted: Option<bool>
    var finished: bool
    var history: seq<DfaStep>

    /** The run record the fields make up, if there is one. */
    function Current(): Option<DfaRun>
      reads this
    {
      if active then Some(DfaRun(currentState, input, position, accepted, finished, history)) else None
    }

    ghost predicate Valid()
      reads this
    {
      Current().Some? ==> Inv(Current().value)
    }

    constructor (automaton: Automaton<DfaTransition>)
      ensures Valid() && this.automaton == automaton && Current() == None
    {
      this.automaton := automaton;
      active, currentState, input, position := false, "", "", 0;
      accepted, finished, history := None, false, [];
    }

    method Start(input: string) returns (res: Result<DfaRun>)
      requires Valid()
      modifies this
      ensures Valid()
      ensures res == StartRun(automaton, input)
      ensures Current() == if res.Ok? then Some(res.value) else old(Current())
    {
      var initial := InitialState(automaton.states);
      if initial.None? {
        return Err(NoInitialState);
      }
      var id := initial.value.id;
      active, currentState, this.input, position := true, id, input, 0;
      accepted, finished := None, false;
      history := [DfaStep(id, input, 0, None)];
      res := Ok(Current().value);
    }

    method Step() returns (res: Result<DfaRun>)
      requires Valid()
      modifies this
      ensures Valid()
      ensures res == if old(Current()).None? then Err(SimulationInactive) else StepRun(automaton, old(Current()).value)
      ensures Current() == if res.Ok? then Some(res.value) else old(Current())
    {
      if !active || finished {
        return Err(SimulationInactive);
      }
      ghost var before := Current().value;
      StepPreservesInv(automaton, before);
      if position >= |input| {
        accepted := Some(IsFinal(automaton.states, currentState));
        finished := true;
        return Ok(Current().value);
      }
      var found := Lookup(automaton.transitions, currentState, input[position]);
      if found.None? {
        accepted := Some(false);
        finished := true;
        return Ok(Current().value);
      }
      var t := found.value;
      currentState := t.to;
      position := position + 1;
      history := history + [DfaStep(currentState, input, position, Some(t))];
      if position >= |input| {
        accepted := Some(IsFinal(automaton.states, currentState));
        finished := true;
      }
      res := Ok(Current().value);
    }

    /** `getState()`: the current run, which satisfies the run invariant. */
    method GetState() returns (s: Option<DfaRun>)
      requires Valid()
      ensures s == Current()
      ensures s.Some? ==> Inv(s.value)
    {
      s := Current();
    }

    /** `reset()`: discards the run, so that a following `step` fails. */
    method Reset()
      requires Valid()
      modifies this
      ensures Valid() && Current() == None
    {
      active := false;
    }
  }
}
