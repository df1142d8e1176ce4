/**
 * The Turing machine stepper: a single tape that starts as the input's
 * characters and grows by one blank cell at either end when the head walks
 * off it, the first matching transition in list order, halting on a final
 * state or when nothing matches, and the simulator class that assigns the
 * tape (a sequence value) and the head field by field.
 */
module TuringSimulation {
  import opened Automata

  /** One history snapshot of a Turing run, with its own copy of the tape. */
  datatype TuringStep = TuringStep(state: string, input: string, position: nat, tape: seq<string>, tapePosition: nat, transition: Option<TuringTransition>)

  /** The progress of one Turing run; `position` is never moved, the head is `tapePosition`. */
  datatype TuringRun = TuringRun(
    currentState: string,
    input: string,
    position: nat,
    tape: seq<string>,
    tapePosition: nat,
    accepted: Option<bool>,
    finished: bool,
    history: seq<TuringStep>)

  /** A tape and a head on it. */
  datatype Head = Head(tape: seq<string>, pos: nat)

  /** The tape `start` builds: one cell per input character, or a single blank for the empty input. */
  function InitialTape(input: string): (tape: seq<string>)
    ensures |tape| == if |input| == 0 then 1 else |input|
  {
    if |input| == 0 then [Blank] else Chars(input)
  }

  /** The initial tape holds the input's characters in order, and only a blank for the empty input. */
  lemma InitialTapeCells(input: string)
    ensures |input| == 0 ==> InitialTape(input) == [Blank]
    ensures forall k :: 0 <= k < |input| ==> InitialTape(input)[k] == [input[k]]
  {
    CharsAt(input);
  }

  /** `tape[tapePosition] || '_'`: a missing cell and an empty-string cell both read as blank. */
  function ReadSymbol(tape: seq<string>, pos: nat): (sym: string)
    ensures sym != ""
    ensures pos < |tape| && tape[pos] != "" ==> sym == tape[pos]
    ensures pos >= |tape| || tape[pos] == "" ==> sym == Blank
  {
    if pos < |tape| && tape[pos] != "" then tape[pos] else Blank
  }

  /** t fires in q when the head reads sym. */
  predicate Matches(t: TuringTransition, q: string, sym: string) {
    t.from == q && t.read == sym
  }

  ghost predicate FirstMatch(ts: seq<TuringTransition>, q: string, sym: string, i: int) {
    0 <= i < |ts| && Matches(ts[i], q, sym) && forall j :: 0 <= j < i ==> !Matches(ts[j], q, sym)
  }

  /** The transition search of `step`: `transitions.find(...)` for q and sym. */
  function Lookup(ts: seq<TuringTransition>, q: string, sym: string): (r: Option<TuringTransition>)
    ensures r.Some? ==> Matches(r.value, q, sym) && r.value in ts
  {
    if |ts| == 0 then None
    else if Matches(ts[0], q, sym) then Some(ts[0])
    else Lookup(ts[1..], q, sym)
  }

  /** Lookup finds nothing exactly when no transition matches, and otherwise
      the first matching one in list order. */
  lemma {:induction false} LookupIsFirstMatch(ts: seq<TuringTransition>, q: string, sym: string)
    ensures Lookup(ts, q, sym).None? <==> forall j :: 0 <= j < |ts| ==> !Matches(ts[j], q, sym)
    ensures forall i :: FirstMatch(ts, q, sym, i) ==> Lookup(ts, q, sym) == Some(ts[i])
  {
    if |ts| > 0 && !Matches(ts[0], q, sym) {
      LookupIsFirstMatch(ts[1..], q, sym);
      assert forall i :: FirstMatch(ts, q, sym, i) ==> FirstMatch(ts[1..], q, sym, i - 1);
      assert forall j :: 1 <= j < |ts| ==> ts[j] == ts[1..][j - 1];
    }
  }

  /** How far a move carries the head, in the tape's own coordinates. */
  function Delta(m: Move): int {
    match m
    case L => -1
    case R => 1
    case S => 0
  }

  /** The head movement of `step`: left off the start prepends a blank and
      leaves the head on it; right off the end appends a blank; S stays. */
  function MoveHead(tape: seq<string>, pos: nat, m: Move): Head
    requires pos < |tape|
  {
    match m
    case L => if pos == 0 then Head([Blank] + tape, 0) else Head(tape, pos - 1)
    case R => if pos + 1 >= |tape| then Head(tape + [Blank], pos + 1) else Head(tape, pos + 1)
    case S => Head(tape, pos)
  }

  /** A move keeps the head on the tape and grows the tape by one blank cell
      exactly when the head walks off an end. The old cells keep their
      contents, shifted one place right only when a blank was prepended, and
      the head moves by Delta(m) relative to them. */
  lemma MoveHeadShifts(tape: seq<string>, pos: nat, m: Move)
    requires pos < |tape|
    ensures var h, shift := MoveHead(tape, pos, m), if m == L && pos == 0 then 1 else 0;
            var grows := (m == L && pos == 0) || (m == R && pos + 1 == |tape|);
            && h.pos < |h.tape|
            && |h.tape| == |tape| + (if grows then 1 else 0)
            && (forall k :: 0 <= k < |tape| ==> h.tape[k + shift] == tape[k])
            && (shift == 1 ==> h.tape[0] == Blank)
            && (m == R && grows ==> h.tape[|tape|] == Blank)
            && h.pos - shift == pos + Delta(m)
  {
  }

  /** What holds of every run that `start` and `step` can produce: the head
      is on the tape, the input cursor stays at 0, every snapshot has its head
      on its own tape, and the newest snapshot shows the live state, tape and head. */
  ghost predicate Inv(r: TuringRun) {
    && r.tapePosition < |r.tape|
    && r.position == 0
    && |r.history| > 0
    && (forall k :: 0 <= k < |r.history| ==>
          r.history[k].input == r.input && r.history[k].position == 0 && r.history[k].tapePosition < |r.history[k].tape|)
    && r.history[|r.history| - 1].state == r.currentState
    && r.history[|r.history| - 1].tape == r.tape
    && r.history[|r.history| - 1].tapePosition == r.tapePosition
    && (r.finished <==> r.accepted.Some?)
  }

  /** `start(input)`: the head on the first cell of the initial tape. */
  function StartRun(a: Automaton<TuringTransition>, input: string): (res: Result<TuringRun>)
    ensures res.Err? <==> forall j :: 0 <= j < |a.states| ==> !a.states[j].isInitial
    ensures res.Err? ==> res.error == NoInitialState
    ensures forall i :: FirstInitial(a.states, i) ==>
              res == Ok(TuringRun(a.states[i].id, input, 0, InitialTape(input), 0, None, false,
                                  [TuringStep(a.states[i].id, input, 0, InitialTape(input), 0, None)]))
    ensures res.Ok? ==> Inv(res.value)
  {
    match InitialState(a.states)
    case None => Err(NoInitialState)
    case Some(s) =>
      var tape := InitialTape(input);
      Ok(TuringRun(s.id, input, 0, tape, 0, None, false, [TuringStep(s.id, input, 0, tape, 0, None)]))
  }

  /** `step()` on an existing run whose head is on its tape, as on every run
      `start` and `step` produce. */
  function StepRun(a: Automaton<TuringTransition>, r: TuringRun): (res: Result<TuringRun>)
    requires r.tapePosition < |r.tape|
    ensures res.Err? <==> r.finished
    ensures res.Err? ==> res.error == SimulationInactive
    ensures res.Ok? ==> res.value.input == r.input && res.value.position == r.position
    ensures res.Ok? ==> res.value.tapePosition < |res.value.tape| && |r.tape| <= |res.value.tape| <= |r.tape| + 1
    ensures res.Ok? ==> r.history <= res.value.history && |res.value.history| <= |r.history| + 1
  {
    if r.finished then Err(SimulationInactive)
    else
      match Lookup(a.transitions, r.currentState, ReadSymbol(r.tape, r.tapePosition))
      case None => Ok(r.(accepted := Some(IsFinal(a.states, r.currentState)), finished := true))
      case Some(t) =>
        var h := MoveHead(r.tape[r.tapePosition := t.write], r.tapePosition, t.move);
        var r' := r.(currentState := t.to, tape := h.tape, tapePosition := h.pos,
                     history := r.history + [TuringStep(t.to, r.input, r.position, h.tape, h.pos, Some(t))]);
        if IsFinal(a.states, t.to) then Ok(r'.(accepted := Some(true), finished := true))
        else Ok(r')
  }

  /** With no matching transition the run halts, accepted exactly when the
      current state is final; tape, head and history stay. */
  lemma StepWithoutMatch(a: Automaton<TuringTransition>, r: TuringRun)
    requires !r.finished && r.tapePosition < |r.tape|
    requires forall j :: 0 <= j < |a.transitions| ==> !Matches(a.transitions[j], r.currentState, ReadSymbol(r.tape, r.tapePosition))
    ensures StepRun(a, r).Ok?
    ensures var r' := StepRun(a, r).value;
            && r'.finished && r'.accepted == Some(IsFinal(a.states, r.currentState))
            && r'.currentState == r.currentState && r'.tape == r.tape
            && r'.tapePosition == r.tapePosition && r'.history == r.history
  {
    LookupIsFirstMatch(a.transitions, r.currentState, ReadSymbol(r.tape, r.tapePosition));
  }

  /** A step with a matching transition takes the first one in list order:
      it writes under the head, then moves, appends exactly one snapshot, and
      halts with acceptance exactly when the new state is final. */
  lemma StepTakesFirstMatch(a: Automaton<TuringTransition>, r: TuringRun, i: int)
    requires !r.finished && r.tapePosition < |r.tape|
    requires FirstMatch(a.transitions, r.currentState, ReadSymbol(r.tape, r.tapePosition), i)
    ensures StepRun(a, r).Ok?
    ensures var r', t := StepRun(a, r).value, a.transitions[i];
            var h := MoveHead(r.tape[r.tapePosition := t.write], r.tapePosition, t.move);
            && r'.currentState == t.to
            && r'.tape == h.tape && r'.tapePosition == h.pos
            && r'.history == r.history + [TuringStep(t.to, r.input, r.position, h.tape, h.pos, Some(t))]
            && (r'.finished <==> IsFinal(a.states, t.to))
            && (r'.finished ==> r'.accepted == Some(true))
            && (!r'.finished ==> r'.accepted == r.accepted)
  {
    LookupIsFirstMatch(a.transitions, r.currentState, ReadSymbol(r.tape, r.tapePosition));
  }

  /** Writing w under the head and then moving changes only the cell under
      the head, which holds w; every other cell keeps its contents, one
      place further right when a blank was prepended. */
  lemma WriteThenMove(tape: seq<string>, pos: nat, w: string, m: Move)
    requires pos < |tape|
    ensures var h, shift := MoveHead(tape[pos := w], pos, m), if m == L && pos == 0 then 1 else 0;
            && |h.tape| >= |tape| + shift
            && h.tape[pos + shift] == w
            && (forall k :: 0 <= k < |tape| && k != pos ==> h.tape[k + shift] == tape[k])
  {
    var written := tape[pos := w];
    if m == L && pos == 0 {
      var t' := [Blank] + written;
      forall k | 0 <= k < |tape|
        ensures t'[k + 1] == written[k]
      {
      }
    } else if m == R && pos + 1 >= |tape| {
      var t' := written + [Blank];
      forall k | 0 <= k < |tape|
        ensures t'[k] == written[k]
      {
      }
    }
  }

  /** On the tape, a fired step writes the transition's symbol under the
      head and leaves every other cell as it was, up to the shift of a
      prepended blank. */
  lemma StepWritesUnderHead(a: Automaton<TuringTransition>, r: TuringRun, i: int)
    requires !r.finished && r.tapePosition < |r.tape|
    requires FirstMatch(a.transitions, r.currentState, ReadSymbol(r.tape, r.tapePosition), i)
    ensures StepRun(a, r).Ok?
    ensures var r', t := StepRun(a, r).value, a.transitions[i];
            var shift := if t.move == L && r.tapePosition == 0 then 1 else 0;
            && |r'.tape| >= |r.tape| + shift
            && r'.tape[r.tapePosition + shift] == t.write
            && (forall k :: 0 <= k < |r.tape| && k != r.tapePosition ==> r'.tape[k + shift] == r.tape[k])
  {
    var t := a.transitions[i];
    StepTakesFirstMatch(a, r, i);
    var moved := MoveHead(r.tape[r.tapePosition := t.write], r.tapePosition, t.move).tape;
    WriteThenMove(r.tape, r.tapePosition, t.write, t.move);
    assert StepRun(a, r).value.tape == moved;
  }

  lemma StepPreservesInv(a: Automaton<TuringTransition>, r: TuringRun)
    requires Inv(r)
    ensures StepRun(a, r).Ok? ==> Inv(StepRun(a, r).value)
  {
  }

  /** `step` as a partial function: no successor once the run is finished,
      nor for a head off the tape, which no reachable run has. */
  function Next(a: Automaton<TuringTransition>, r: TuringRun): Option<TuringRun> {
    if r.tapePosition >= |r.tape| then None
    else match StepRun(a, r)
      case Ok(r') => Some(r')
      case Err(_) => None
  }

  function Stepper(a: Automaton<TuringTransition>): TuringRun -> Option<TuringRun> {
    (r: TuringRun) => Next(a, r)
  }

  /** The run after n further calls of `step`, stopping once it is finished. */
  function Steps(a: Automaton<TuringTransition>, r: TuringRun, n: nat): TuringRun {
    Iterate(Stepper(a), r, n)
  }

  /** Any number of further steps keeps the run invariant. */
  lemma StepsKeepInv(a: Automaton<TuringTransition>, r: TuringRun, n: nat)
    requires Inv(r)
    ensures Inv(Steps(a, r, n))
  {
    forall x | Inv(x) && Stepper(a)(x).Some?
      ensures Inv(Stepper(a)(x).value)
    {
      StepPreservesInv(a, x);
    }
    IterateKeeps(Stepper(a), (x: TuringRun) => Inv(x), r, n);
  }

  /** Later steps only append: every tape snapshot already in the history
      is unaffected by later writes to the live tape. */
  lemma StepsAppendToHistory(a: Automaton<TuringTransition>, r: TuringRun, n: nat)
    ensures r.history <= Steps(a, r, n).history
  {
    IterateRelates(Stepper(a), (x: TuringRun, y: TuringRun) => x.history <= y.history, r, n);
  }

  /** A one-state machine that walks right over blanks forever. */
  const RightWalker: Automaton<TuringTransition> :=
    Automaton([State("q0", true, false)], [TuringTransition("q0", "q0", Blank, Blank, R)])

  ghost predicate WalksOnBlanks(r: TuringRun) {
    && r.currentState == "q0" && !r.finished && r.tapePosition < |r.tape|
    && forall k :: 0 <= k < |r.tape| ==> r.tape[k] == Blank
  }

  /** `step` has no termination guarantee: started on the empty input,
      RightWalker is still running after any number n of steps, each of
      which fired its transition and added a snapshot. */
  lemma RightWalkerNeverHalts(n: nat)
    ensures StartRun(RightWalker, "").Ok?
    ensures var r := Steps(RightWalker, StartRun(RightWalker, "").value, n);
            !r.finished && |r.history| == 1 + n
  {
    assert FirstInitial(RightWalker.states, 0);
    forall x | WalksOnBlanks(x)
      ensures Stepper(RightWalker)(x).Some?
      ensures WalksOnBlanks(Stepper(RightWalker)(x).value)
      ensures |Stepper(RightWalker)(x).value.history| == |x.history| + 1
    {
      var t := RightWalker.transitions[0];
      assert Lookup(RightWalker.transitions, "q0", ReadSymbol(x.tape, x.tapePosition)) == Some(t);
      MoveHeadShifts(x.tape[x.tapePosition := t.write], x.tapePosition, t.move);
    }
    IterateAlwaysSteps(Stepper(RightWalker), (x: TuringRun) => WalksOnBlanks(x), (x: TuringRun) => |x.history|,
                       StartRun(RightWalker, "").value, n);
  }

  /** `TuringSimulator`: the automaton and one optional run, stored field by field. */
  class TuringSimulator {
    const automaton: Automaton<TuringTransition>
    /** Whether a run exists (the source's `state !== null`). */
    var active: bool
    var currentState: string
    var input: string
    var position: nat
    var tape: seq<string>
    var tapePosition: nat
    var accepted: Option<bool>
    var finished: bool
    var history: seq<TuringStep>

    function Current(): Option<TuringRun>
      reads this
    {
      if active then Some(TuringRun(currentState, input, position, tape, tapePosition, accepted, finished, history)) else None
    }

    ghost predicate Valid()
      reads this
    {
      Current().Some? ==> Inv(Current().value)
    }

    constructor (automaton: Automaton<TuringTransition>)
      ensures Valid() && this.automaton == automaton && Current() == None
    {
      this.automaton := automaton;
      active, currentState, input, position, tape, tapePosition := false, "", "", 0, [], 0;
      accepted, finished, history := None, false, [];
    }

    method Start(input: string) returns (res: Result<TuringRun>)
      requires Valid()
      modifies this
      ensures Valid()
      ensures res == StartRun(automaton, input)
      ensures Current() == if res.Ok? then Some(res.value) else old(Current())
    {
      var initial := InitialState(automaton.states);
      if initial.None? {
        return Err(NoInitialState);
      }
      var id := initial.value.id;
      var cells := Chars(input);
      if |cells| == 0 {
        cells := cells + [Blank];
        assert cells == [Blank];
      }
      active, currentState, this.input, position := true, id, input, 0;
      tape, tapePosition := cells, 0;
      accepted, finished := None, false;
      history := [TuringStep(id, input, 0, cells, 0, None)];
      res := Ok(Current().value);
    }

    method Step() returns (res: Result<TuringRun>)
      requires Valid()
      modifies this
      ensures Valid()
      ensures res == if old(Current()).None? then Err(SimulationInactive) else StepRun(automaton, old(Current()).value)
      ensures Current() == if res.Ok? then Some(res.value) else old(Current())
    {
      if !active || finished {
        return Err(SimulationInactive);
      }
      ghost var before := Current().value;
      StepPreservesInv(automaton, before);
      var symbol := ReadSymbol(tape, tapePosition);
      var found := Lookup(automaton.transitions, currentState, symbol);
      if found.None? {
        accepted := Some(IsFinal(automaton.states, currentState));
        finished := true;
        return Ok(Current().value);
      }
      var t := found.value;
      var moved := MoveHead(tape[tapePosition := t.write], tapePosition, t.move);
      var tape', head := moved.tape, moved.pos;
      currentState, tape, tapePosition := t.to, tape', head;
      history := history + [TuringStep(t.to, input, position, tape', head, Some(t))];
      if IsFinal(automaton.states, t.to) {
        accepted, finished := Some(true), true;
      }
      res := Ok(Current().value);
    }

    /** `getState()`: the current run, which satisfies the run invariant. */
    method GetState() returns (s: Option<TuringRun>)
      requires Valid()
      ensures s == Current()
      ensures s.Some? ==> Inv(s.value)
    {
      s := Current();
    }

    /** `reset()`: discards the run, so that a following `step` fails. */
    method Reset()
      requires Valid()
      modifies this
      ensures Valid() && Current() == None
    {
      active := false;
    }
  }
}
