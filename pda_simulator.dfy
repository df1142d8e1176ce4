/**
 * The PDA stepper: a single greedy path through a pushdown automaton. At
 * each step the candidates are filtered from the transition list, a
 * candidate that reads the real input symbol is preferred to one that reads
 * ε, the stack is popped and pushed, and a snapshot of the stack is added
 * to the history.
 */
module PdaSimulation {
  import opened Automata

  /** One history snapshot of a PDA run, with its own copy of the stack. */
  datatype PdaStep = PdaStep(state: string, input: string, position: nat, stack: seq<string>, transition: Option<PdaTransition>)

  /** The progress of one PDA run; the top of the stack is its last cell. */
  datatype PdaRun = PdaRun(
    currentState: string,
    input: string,
    position: nat,
    stack: seq<string>,
    accepted: Option<bool>,
    finished: bool,
    history: seq<PdaStep>)

  /** The symbol `step` reads: the character at the cursor, or ε once the
      input is used up. A real symbol is only ever read with input left, and
      an input character 'ε' reads as the ε marker itself. */
  function CurrentSymbol(input: string, position: nat): (sym: string)
    ensures |sym| == 1
    ensures sym != Epsilon ==> position < |input| && sym == [input[position]]
    ensures sym == Epsilon <==> position >= |input| || input[position] == 'ε'
  {
    if position < |input| then [input[position]] else Epsilon
  }

  /** The last cell of the stack, or ε for an empty stack. A top other than
      ε is always a real cell, and a cell holding "ε" itself is
      indistinguishable from the empty stack. */
  function StackTop(stack: seq<string>): (top: string)
    ensures top != Epsilon ==> |stack| > 0 && top == stack[|stack| - 1]
    ensures top == Epsilon <==> |stack| == 0 || stack[|stack| - 1] == Epsilon
  {
    if |stack| > 0 then stack[|stack| - 1] else Epsilon
  }

  /** t may fire in q when sym is read and top is on the stack: it reads sym
      or ε, and it pops top or ε. */
  predicate IsCandidate(t: PdaTransition, q: string, sym: string, top: string) {
    && t.from == q
    && (t.inputSymbol == sym || t.inputSymbol == Epsilon)
    && (t.popSymbol == top || t.popSymbol == Epsilon)
  }

  /** i is the first candidate, in list order, whose input symbol is `want`. */
  ghost predicate FirstCandidateReading(ts: seq<PdaTransition>, q: string, sym: string, top: string, want: string, i: int) {
    && 0 <= i < |ts|
    && IsCandidate(ts[i], q, sym, top) && ts[i].inputSymbol == want
    && forall j :: 0 <= j < i ==> !(IsCandidate(ts[j], q, sym, top) && ts[j].inputSymbol == want)
  }

  /** `transitions.filter(...)`: the transitions that may fire, in list order. */
  function Candidates(ts: seq<PdaTransition>, q: string, sym: string, top: string): (cs: seq<PdaTransition>)
    ensures |cs| <= |ts|
  {
    if |ts| == 0 then []
    else if IsCandidate(ts[0], q, sym, top) then [ts[0]] + Candidates(ts[1..], q, sym, top)
    else Candidates(ts[1..], q, sym, top)
  }

  /** `find(t => t.inputSymbol === want)`: the first transition reading `want`. */
  function FirstReading(cs: seq<PdaTransition>, want: string): (r: Option<PdaTransition>)
    ensures r.Some? ==> r.value.inputSymbol == want
  {
    if |cs| == 0 then None
    else if cs[0].inputSymbol == want then Some(cs[0])
    else FirstReading(cs[1..], want)
  }

  /** The greedy choice of `step`: a candidate reading the real symbol wins
      over one reading ε. */
  function Choose(ts: seq<PdaTransition>, q: string, sym: string, top: string): Option<PdaTransition> {
    var possible := Candidates(ts, q, sym, top);
    var epsilonTransition := FirstReading(possible, Epsilon);
    var symbolTransition := FirstReading(possible, sym);
    if symbolTransition.Some? then symbolTransition else epsilonTransition
  }

  /** Searching the filtered candidates for `want` finds the first candidate
      of the whole list that reads `want`. */
  lemma {:induction false} FirstReadingOfCandidates(ts: seq<PdaTransition>, q: string, sym: string, top: string, want: string)
    ensures var r := FirstReading(Candidates(ts, q, sym, top), want);
            && (r.None? <==> forall j :: 0 <= j < |ts| ==> !(IsCandidate(ts[j], q, sym, top) && ts[j].inputSymbol == want))
            && (r.Some? ==> IsCandidate(r.value, q, sym, top))
            && (forall i :: FirstCandidateReading(ts, q, sym, top, want, i) ==> r == Some(ts[i]))
  {
    if |ts| > 0 {
      FirstReadingOfCandidates(ts[1..], q, sym, top, want);
      assert forall i :: FirstCandidateReading(ts, q, sym, top, want, i) && i > 0 ==>
               FirstCandidateReading(ts[1..], q, sym, top, want, i - 1);
      assert forall j :: 1 <= j < |ts| ==> ts[j] == ts[1..][j - 1];
      if IsCandidate(ts[0], q, sym, top) {
        var rest := Candidates(ts[1..], q, sym, top);
        assert Candidates(ts, q, sym, top) == [ts[0]] + rest;
        assert ([ts[0]] + rest)[1..] == rest;
      }
    }
  }

  /** The greedy choice: the first candidate reading the real symbol if
      there is one, else the first candidate reading ε, and nothing only
      when no transition is a candidate. */
  lemma ChooseIsGreedy(ts: seq<PdaTransition>, q: string, sym: string, top: string)
    ensures var r := Choose(ts, q, sym, top);
            && (r.None? <==> forall j :: 0 <= j < |ts| ==> !IsCandidate(ts[j], q, sym, top))
            && (r.Some? ==> IsCandidate(r.value, q, sym, top))
            && (forall i :: FirstCandidateReading(ts, q, sym, top, sym, i) ==> r == Some(ts[i]))
            && ((forall j :: 0 <= j < |ts| ==> !(IsCandidate(ts[j], q, sym, top) && ts[j].inputSymbol == sym)) ==>
                  forall i :: FirstCandidateReading(ts, q, sym, top, Epsilon, i) ==> r == Some(ts[i]))
  {
    FirstReadingOfCandidates(ts, q, sym, top, sym);
    FirstReadingOfCandidates(ts, q, sym, top, Epsilon);
  }

  /** The cells a push of `push` adds, bottom first: its characters reversed. */
  function PushedCells(push: string): (cells: seq<string>)
    ensures |cells| == |push|
  {
    Reverse(Chars(push))
  }

  /** The k-th character of the pushed string lands k cells below the top of the pushed cells. */
  lemma PushedCellsAt(push: string)
    ensures forall k :: 0 <= k < |push| ==> PushedCells(push)[|push| - 1 - k] == [push[k]]
  {
    CharsAt(push);
    ReverseAt(Chars(push));
  }

  /** Whether firing t pops a cell: t pops a real symbol and the stack is not empty. */
  predicate Pops(stack: seq<string>, t: PdaTransition) {
    t.popSymbol != Epsilon && |stack| > 0
  }

  /** The stack after firing t: pop, then push t's push string unless it is ε. */
  function UpdateStack(stack: seq<string>, t: PdaTransition): seq<string> {
    var popped := if Pops(stack, t) then stack[..|stack| - 1] else stack;
    if t.pushSymbol != Epsilon then popped + PushedCells(t.pushSymbol) else popped
  }

  /** Firing t keeps every cell below the popped one, and reading the new
      stack down from its top gives the pushed string in order, so its first
      character ends on top. */
  lemma UpdateStackCells(stack: seq<string>, t: PdaTransition)
    ensures var stack', kept, w := UpdateStack(stack, t), |stack| - (if Pops(stack, t) then 1 else 0), t.pushSymbol;
            && |stack'| == kept + (if w != Epsilon then |w| else 0)
            && (forall k :: 0 <= k < kept ==> stack'[k] == stack[k])
            && (w != Epsilon ==> forall k :: 0 <= k < |w| ==> stack'[|stack'| - 1 - k] == [w[k]])
            && (w != Epsilon && |w| > 0 ==> StackTop(stack') == [w[0]])
  {
    var stack', w := UpdateStack(stack, t), t.pushSymbol;
    if w != Epsilon {
      var popped := if Pops(stack, t) then stack[..|stack| - 1] else stack;
      PushedCellsAt(w);
      forall k | 0 <= k < |w|
        ensures stack'[|stack'| - 1 - k] == [w[k]]
      {
        assert stack'[|stack'| - 1 - k] == PushedCells(w)[|w| - 1 - k];
      }
    }
  }

  /** What holds of every run that `start` and `step` can produce: the cursor
      is within the input, and the newest snapshot shows the live state, cursor and stack. */
  ghost predicate Inv(r: PdaRun) {
    && r.position <= |r.input|
    && |r.history| > 0
    && (forall k :: 0 <= k < |r.history| ==> r.history[k].input == r.input && r.history[k].position <= r.position)
    && r.history[|r.history| - 1].state == r.currentState
    && r.history[|r.history| - 1].position == r.position
    && r.history[|r.history| - 1].stack == r.stack
    && (r.finished <==> r.accepted.Some?)
  }

  /** `start(input)`: the stack holds the bottom marker alone. */
  function StartRun(a: Automaton<PdaTransition>, input: string): (res: Result<PdaRun>)
    ensures res.Err? <==> forall j :: 0 <= j < |a.states| ==> !a.states[j].isInitial
    ensures res.Err? ==> res.error == NoInitialState
    ensures forall i :: FirstInitial(a.states, i) ==>
              res == Ok(PdaRun(a.states[i].id, input, 0, [StackBottom], None, false,
                               [PdaStep(a.states[i].id, input, 0, [StackBottom], None)]))
    ensures res.Ok? ==> Inv(res.value)
  {
    match InitialState(a.states)
    case None => Err(NoInitialState)
    case Some(s) => Ok(PdaRun(s.id, input, 0, [StackBottom], None, false, [PdaStep(s.id, input, 0, [StackBottom], None)]))
  }

  /** The verdict when no transition can fire: final state or empty stack,
      and in either case only with the whole input consumed. */
  function Verdict(a: Automaton<PdaTransition>, r: PdaRun): bool {
    (IsFinal(a.states, r.currentState) || |r.stack| == 0) && r.position >= |r.input|
  }

  /** `step()` on an existing run. */
  function StepRun(a: Automaton<PdaTransition>, r: PdaRun): (res: Result<PdaRun>)
    ensures res.Err? <==> r.finished
    ensures res.Err? ==> res.error == SimulationInactive
    ensures res.Ok? ==> res.value.input == r.input
    ensures res.Ok? ==> r.history <= res.value.history && |res.value.history| == |r.history| + (if res.value.finished then 0 else 1)
  {
    if r.finished then Err(SimulationInactive)
    else
      match Choose(a.transitions, r.currentState, CurrentSymbol(r.input, r.position), StackTop(r.stack))
      case None => Ok(r.(accepted := Some(Verdict(a, r)), finished := true))
      case Some(t) =>
        var stack := UpdateStack(r.stack, t);
        var position := if t.inputSymbol != Epsilon then r.position + 1 else r.position;
        Ok(r.(currentState := t.to, position := position, stack := stack,
              history := r.history + [PdaStep(t.to, r.input, position, stack, Some(t))]))
  }

  /** With no candidate the run ends, accepted by final state or by empty
      stack once all input is consumed; stack, cursor and history stay. */
  lemma StepWithoutCandidate(a: Automaton<PdaTransition>, r: PdaRun)
    requires !r.finished
    requires forall j :: 0 <= j < |a.transitions| ==>
               !IsCandidate(a.transitions[j], r.currentState, CurrentSymbol(r.input, r.position), StackTop(r.stack))
    ensures StepRun(a, r).Ok?
    ensures var r' := StepRun(a, r).value;
            && r'.finished
            && r'.accepted == Some((IsFinal(a.states, r.currentState) || |r.stack| == 0) && r.position >= |r.input|)
            && r'.currentState == r.currentState && r'.position == r.position
            && r'.stack == r.stack && r'.history == r.history
  {
    ChooseIsGreedy(a.transitions, r.currentState, CurrentSymbol(r.input, r.position), StackTop(r.stack));
  }

  /** A step that fires t: the new state is t's target, the stack is updated,
      the cursor advances exactly when t reads a real symbol, and one snapshot
      holding the new stack is appended. The run is never finished by firing. */
  lemma StepFiresChosen(a: Automaton<PdaTransition>, r: PdaRun)
    requires !r.finished
    requires Choose(a.transitions, r.currentState, CurrentSymbol(r.input, r.position), StackTop(r.stack)).Some?
    ensures StepRun(a, r).Ok?
    ensures var r', t := StepRun(a, r).value,
                         Choose(a.transitions, r.currentState, CurrentSymbol(r.input, r.position), StackTop(r.stack)).value;
            && !r'.finished && r'.accepted == r.accepted
            && r'.currentState == t.to
            && r'.stack == UpdateStack(r.stack, t)
            && (r'.position == r.position + 1 <==> t.inputSymbol != Epsilon)
            && (r'.position == r.position <==> t.inputSymbol == Epsilon)
            && r'.history == r.history + [PdaStep(t.to, r.input, r'.position, r'.stack, Some(t))]
  {
  }

  /** A transition that reads a real symbol is only chosen while input is
      left, so the cursor never passes the end of the input. */
  lemma StepPreservesInv(a: Automaton<PdaTransition>, r: PdaRun)
    requires Inv(r)
    ensures StepRun(a, r).Ok? ==> Inv(StepRun(a, r).value)
  {
    if !r.finished {
      var sym := CurrentSymbol(r.input, r.position);
      var chosen := Choose(a.transitions, r.currentState, sym, StackTop(r.stack));
      ChooseIsGreedy(a.transitions, r.currentState, sym, StackTop(r.stack));
      if chosen.Some? && chosen.value.inputSymbol != Epsilon {
        assert chosen.value.inputSymbol == sym;
        assert r.position < |r.input|;
      }
    }
  }

  /** `step` as a partial function: no successor once the run is finished. */
  function Next(a: Automaton<PdaTransition>, r: PdaRun): Option<PdaRun> {
    match StepRun(a, r)
    case Ok(r') => Some(r')
    case Err(_) => None
  }

  function Stepper(a: Automaton<PdaTransition>): PdaRun -> Option<PdaRun> {
    (r: PdaRun) => Next(a, r)
  }

  /** The run after n further calls of `step`, stopping once it is finished. */
  function Steps(a: Automaton<PdaTransition>, r: PdaRun, n: nat): PdaRun {
    Iterate(Stepper(a), r, n)
  }

  /** Any number of further steps keeps the run invariant. */
  lemma StepsKeepInv(a: Automaton<PdaTransition>, r: PdaRun, n: nat)
    requires Inv(r)
    ensures Inv(Steps(a, r, n))
  {
    forall x | Inv(x) && Stepper(a)(x).Some?
      ensures Inv(Stepper(a)(x).value)
    {
      StepPreservesInv(a, x);
    }
    IterateKeeps(Stepper(a), (x: PdaRun) => Inv(x), r, n);
  }

  /** Later steps only append: every stack snapshot already in the history
      is unaffected by later pops and pushes. */
  lemma StepsAppendToHistory(a: Automaton<PdaTransition>, r: PdaRun, n: nat)
    ensures r.history <= Steps(a, r, n).history
  {
    IterateRelates(Stepper(a), (x: PdaRun, y: PdaRun) => x.history <= y.history, r, n);
  }

  /** A one-state PDA with an ε-move that neither reads, pops nor pushes. */
  const EpsilonLoop: Automaton<PdaTransition> :=
    Automaton([State("q0", true, false)], [PdaTransition("q0", "q0", Epsilon, Epsilon, Epsilon)])

  ghost predicate LoopsOnEpsilon(r: PdaRun) {
    r.currentState == "q0" && !r.finished
  }

  /** `step` has no termination guarantee: on every input, the run of
      EpsilonLoop is still unfinished after any number n of steps, each of
      which fired the ε-move and added a snapshot. */
  lemma EpsilonLoopNeverFinishes(input: string, n: nat)
    ensures StartRun(EpsilonLoop, input).Ok?
    ensures var r := Steps(EpsilonLoop, StartRun(EpsilonLoop, input).value, n);
            !r.finished && |r.history| == 1 + n
  {
    assert FirstInitial(EpsilonLoop.states, 0);
    forall x | LoopsOnEpsilon(x)
      ensures Stepper(EpsilonLoop)(x).Some?
      ensures LoopsOnEpsilon(Stepper(EpsilonLoop)(x).value)
      ensures |Stepper(EpsilonLoop)(x).value.history| == |x.history| + 1
    {
      var ts, sym, top := EpsilonLoop.transitions, CurrentSymbol(x.input, x.position), StackTop(x.stack);
      assert Candidates(ts[1..], "q0", sym, top) == [];
      assert Candidates(ts, "q0", sym, top) == ts;
      assert ts[1..] == [];
      assert FirstReading(ts, Epsilon) == Some(ts[0]);
      assert FirstReading(ts[1..], sym) == None;
      assert sym != Epsilon ==> FirstReading(ts, sym) == None;
      assert Choose(ts, "q0", sym, top) == Some(ts[0]);
    }
    IterateAlwaysSteps(Stepper(EpsilonLoop), (x: PdaRun) => LoopsOnEpsilon(x), (x: PdaRun) => |x.history|,
                       StartRun(EpsilonLoop, input).value, n);
  }

  /** `PDASimulator`: the automaton and one optional run, stored field by field. */
  class PdaSimulator {
    const automaton: Automaton<PdaTransition>
    /** Whether a run exists (the source's `state !== null`). */
    var active: bool
    var currentState: string
    var input: string
    var position: nat
    var stack: seq<string>
    var accepted: Option<bool>
    var finished: bool
    var history: seq<PdaStep>

    function Current(): Option<PdaRun>
      reads this
    {
      if active then Some(PdaRun(currentState, input, position, stack, accepted, finished, history)) else None
    }

    ghost predicate Valid()
      reads this
    {
      Current().Some? ==> Inv(Current().value)
    }

    constructor (automaton: Automaton<PdaTransition>)
      ensures Valid() && this.automaton == automaton && Current() == None
    {
      this.automaton := automaton;
      active, currentState, input, position, stack := false, "", "", 0, [];
      accepted, finished, history := None, false, [];
    }

    method Start(input: string) returns (res: Result<PdaRun>)
      requires Valid()
      modifies this
      ensures Valid()
      ensures res == StartRun(automaton, input)
      ensures Current() == if res.Ok? then Some(res.value) else old(Current())
    {
      var initial := InitialState(automaton.states);
      if initial.None? {
        return Err(NoInitialState);
      }
      var id := initial.value.id;
      active, currentState, this.input, position := true, id, input, 0;
      stack := [StackBottom];
      accepted, finished := None, false;
      history := [PdaStep(id, input, 0, [StackBottom], None)];
      res := Ok(Current().value);
    }

    method Step() returns (res: Result<PdaRun>)
      requires Valid()
      modifies this
      ensures Valid()
      ensures res == if old(Current()).None? then Err(SimulationInactive) else StepRun(automaton, old(Current()).value)
      ensures Current() == if res.Ok? then Some(res.value) else old(Current())
    {
      if !active || finished {
        return Err(SimulationInactive);
      }
      ghost var before := Current().value;
      StepPreservesInv(automaton, before);
      var symbol := CurrentSymbol(input, position);
      var top := StackTop(stack);
      var chosen := Choose(automaton.transitions, currentState, symbol, top);
      if chosen.None? {
        accepted := Some((IsFinal(automaton.states, currentState) || |stack| == 0) && position >= |input|);
        finished := true;
        return Ok(Current().value);
      }
      var t := chosen.value;
      var stack' := UpdateStack(stack, t);
      var position' := if t.inputSymbol != Epsilon then position + 1 else position;
      StepFiresChosen(automaton, before);
      currentState, position, stack := t.to, position', stack';
      history := history + [PdaStep(t.to, input, position', stack', Some(t))];
      res := Ok(Current().value);
    }

    /** `getState()`: the current run, which satisfies the run invariant. */
    method GetState() returns (s: Option<PdaRun>)
      requires Valid()
      ensures s == Current()
      ensures s.Some? ==> Inv(s.value)
    {
      s := Current();
    }

    /** `reset()`: discards the run, so that a following `step` fails. */
    method Reset()
      requires Valid()
      modifies this
      ensures Valid() && Current() == None
    {
      active := false;
    }
  }
}
