/**
 * The data model shared by the three steppers: states, the three transition
 * shapes, an automaton, the error outcomes, the string and list helpers
 * (`split`, `reverse`) and the searches over the state list.
 */
module Automata {

  datatype Option<T> = None | Some(value: T)

  /** The two failures of the steppers: `start` without an initial state,
      and `step` without an active, unfinished run. */
  datatype SimError = NoInitialState | SimulationInactive

  datatype Result<T> = Ok(value: T) | Err(error: SimError)

  /** A node of the automaton graph; its label and canvas position are cosmetic and left out. */
  datatype State = State(id: string, isInitial: bool, isFinal: bool)

  datatype DfaTransition = DfaTransition(from: string, to: string, symbol: string)

  datatype PdaTransition = PdaTransition(from: string, to: string, inputSymbol: string, popSymbol: string, pushSymbol: string)

  datatype Move = L | R | S

  datatype TuringTransition = TuringTransition(from: string, to: string, read: string, write: string, move: Move)

  /** An automaton whose transitions all have the shape T. */
  datatype Automaton<T> = Automaton(states: seq<State>, transitions: seq<T>)

  /** The empty-symbol marker of PDA transitions. */
  const Epsilon: string := "ε"
  /** The blank tape cell of the Turing machine. */
  const Blank: string := "_"
  /** The bottom-of-stack marker a PDA run starts with. */
  const StackBottom: string := "Z"

  /** String `split('')`: one single-character cell per character. */
  function Chars(w: string): (r: seq<string>)
    ensures |r| == |w|
  {
    if |w| == 0 then [] else [[w[0]]] + Chars(w[1..])
  }

  lemma {:induction false} CharsAt(w: string)
    ensures forall k :: 0 <= k < |w| ==> Chars(w)[k] == [w[k]]
  {
    if |w| > 0 {
      CharsAt(w[1..]);
      assert forall k :: 1 <= k < |w| ==> Chars(w)[k] == Chars(w[1..])[k - 1];
    }
  }

  /** Array `reverse`. */
  function Reverse<T>(s: seq<T>): (r: seq<T>)
    ensures |r| == |s|
  {
    if |s| == 0 then [] else Reverse(s[1..]) + [s[0]]
  }

  lemma {:induction false} ReverseAt<T>(s: seq<T>)
    ensures forall k :: 0 <= k < |s| ==> Reverse(s)[k] == s[|s| - 1 - k]
  {
    if |s| > 0 {
      ReverseAt(s[1..]);
      assert forall k :: 0 <= k < |s| - 1 ==> Reverse(s)[k] == Reverse(s[1..])[k];
    }
  }

  ghost predicate FirstInitial(states: seq<State>, i: int) {
    0 <= i < |states| && states[i].isInitial && forall j :: 0 <= j < i ==> !states[j].isInitial
  }

  ghost predicate FirstWithId(states: seq<State>, id: string, i: int) {
    0 <= i < |states| && states[i].id == id && forall j :: 0 <= j < i ==> states[j].id != id
  }

  /** `states.find(s => s.isInitial)`: the first state marked initial, in list order. */
  function InitialState(states: seq<State>): (r: Option<State>)
    ensures r.None? <==> forall j :: 0 <= j < |states| ==> !states[j].isInitial
    ensures forall i :: FirstInitial(states, i) ==> r == Some(states[i])
  {
    if |states| == 0 then None
    else if states[0].isInitial then Some(states[0])
    else
      assert forall i :: FirstInitial(states, i) ==> FirstInitial(states[1..], i - 1);
      InitialState(states[1..])
  }

  /** `states.find(s => s.id === id)`: the first state with this id, in list order. */
  function FindState(states: seq<State>, id: string): Option<State> {
    if |states| == 0 then None
    else if states[0].id == id then Some(states[0])
    else FindState(states[1..], id)
  }

  /** `find(...)?.isFinal || false`. */
  function IsFinal(states: seq<State>, id: string): bool {
    match FindState(states, id)
    case Some(s) => s.isFinal
    case None => false
  }

  /** A state id is final when the first state with that id is final; an id
      that names no state is not final. */
  lemma {:induction false} IsFinalOfFirstWithId(states: seq<State>, id: string)
    ensures (forall j :: 0 <= j < |states| ==> states[j].id != id) ==> !IsFinal(states, id)
    ensures forall i :: FirstWithId(states, id, i) ==> IsFinal(states, id) == states[i].isFinal
  {
    if |states| > 0 && states[0].id != id {
      IsFinalOfFirstWithId(states[1..], id);
      assert forall i :: FirstWithId(states, id, i) ==> FirstWithId(states[1..], id, i - 1);
      assert forall j :: 1 <= j < |states| ==> states[j] == states[1..][j - 1];
    }
  }

  /** n calls of a step that may refuse (None), stopping at the first refusal. */
  function Iterate<R>(step: R -> Option<R>, r: R, n: nat): R
    decreases n
  {
    if n == 0 then r
    else match step(r)
      case None => r
      case Some(r') => Iterate(step, r', n - 1)
  }

  /** A property every step preserves holds after any number of steps. */
  lemma {:induction false} IterateKeeps<R>(step: R -> Option<R>, inv: R -> bool, r: R, n: nat)
    requires forall x :: inv(x) && step(x).Some? ==> inv(step(x).value)
    requires inv(r)
    ensures inv(Iterate(step, r, n))
    decreases n
  {
    if n > 0 && step(r).Some? {
      IterateKeeps(step, inv, step(r).value, n - 1);
    }
  }

  /** A reflexive, transitive relation that every step establishes between
      its input and output relates a run to any later run. */
  lemma {:induction false} IterateRelates<R>(step: R -> Option<R>, rel: (R, R) -> bool, r: R, n: nat)
    requires forall x :: rel(x, x)
    requires forall x, y, z :: rel(x, y) && rel(y, z) ==> rel(x, z)
    requires forall x :: step(x).Some? ==> rel(x, step(x).value)
    ensures rel(r, Iterate(step, r, n))
    decreases n
  {
    if n > 0 && step(r).Some? {
      var r' := step(r).value;
      IterateRelates(step, rel, r', n - 1);
      assert rel(r, r') && rel(r', Iterate(step, r', n - 1));
    }
  }

  /** When a property guarantees that the step never refuses, keeps the
      property and raises a count by one, n steps raise the count by n. */
  lemma {:induction false} IterateAlwaysSteps<R>(step: R -> Option<R>, inv: R -> bool, count: R -> int, r: R, n: nat)
    requires forall x :: inv(x) ==> step(x).Some?
    requires forall x :: inv(x) && step(x).Some? ==> inv(step(x).value) && count(step(x).value) == count(x) + 1
    requires inv(r)
    ensures inv(Iterate(step, r, n))
    ensures count(Iterate(step, r, n)) == count(r) + n
    decreases n
  {
    if n > 0 {
      IterateAlwaysSteps(step, inv, count, step(r).value, n - 1);
    }
  }
}
