# Automata simulator execution core, modelled in Dafny

The application lets a user draw a deterministic finite automaton, a
pushdown automaton or a single-tape Turing machine and step it through a
test input. Its execution core is three steppers: `DFASimulator`,
`PDASimulator` and `TuringSimulator`. Each is bound to one automaton and
owns at most one run (a `SimulationState`). `start(input)` creates the
run, `step()` advances it by one computation step and, when it fires a
transition, appends a snapshot to its history, `getState()` returns it, and `reset()` discards it.

The model has four modules.

- `Automata` (`automata.dfy`) holds the shared data model:
  - states, the three transition shapes, the automaton, and the `ε`, `_` and `Z` markers;
  - `start`'s and `step`'s two failures, as a `Result`;
  - the string `split('')` and array `reverse` the PDA push uses;
  - the `find` searches over the state list;
  - a generic `Iterate` of a partial step function, with two lemmas about it.
- `DfaSimulation`, `PdaSimulation` and `TuringSimulation` each model one stepper. Each has:
  - a run record, the datatype for that machine's `SimulationState`;
  - pure `StartRun` and `StepRun` functions that state what `start` and `step` do;
  - an invariant kept by every reachable run, with its proof;
  - a class with the source's fields, whose `Start`, `Step`, `GetState` and `Reset` methods assign those fields. They are proved equal to the pure functions, and they keep the invariant. The stack and the tape are `seq` values: `Step` assigns the field a new sequence rather than popping, pushing or writing a cell in place.

A thrown error becomes `Err(NoInitialState)` or `Err(SimulationInactive)`,
and the simulator's run is left unchanged.

Three behaviours of the code are worth stating outright:
- A DFA run takes at most max(|input|, 1) steps. On the empty input, the
  very first step gives the verdict. A run that consumes its last symbol
  decides in that same step.
- The history is not one entry per call. A step that ends a run without
  firing a transition (DFA end of input, DFA no match, PDA no candidate,
  Turing no match) adds no entry. `StepAtEndOfInput`, `StepWithoutMatch`
  and `StepWithoutCandidate` state this.
- A Turing tape cell holding the empty string reads as blank. This is
  because the source reads `tape[pos] || '_'`.

## Model

| member | source | states |
|---|---|---|
| Automata.CharsAt | src/lib/simulators/pdaSimulator.ts:74 | `split('')`: cell k of the split string is the string of character k, and there is one cell per character |
| Automata.ReverseAt | src/lib/simulators/pdaSimulator.ts:74 | `reverse()`: cell k of the reversed list is cell n-1-k of the original |
| Automata.InitialState | src/lib/simulators/dfaSimulator.ts:12-15 | nothing is found exactly when no state is initial; otherwise the result is the first initial state in list order |
| Automata.IsFinalOfFirstWithId | src/lib/simulators/dfaSimulator.ts:39-40 | `find(...)?.isFinal \|\| false`: a state id is final exactly when the first state with that id is final; an id that names no state is not final |
| DfaSimulation.Lookup | src/lib/simulators/dfaSimulator.ts:45-48 | a transition found leaves the current state on the current character and is one of the automaton's transitions |
| DfaSimulation.LookupIsFirstMatch | src/lib/simulators/dfaSimulator.ts:45-48 | the search finds nothing exactly when no transition leaves the state on the character; otherwise it finds the first such transition in list order |
| DfaSimulation.StartRun | src/lib/simulators/dfaSimulator.ts:11-31 | fails with the no-initial-state error exactly when no state is initial; otherwise the run is in the first initial state, at position 0, undecided, unfinished, with one history entry, and satisfies the run invariant |
| DfaSimulation.StepRun | src/lib/simulators/dfaSimulator.ts:33-75 | fails with the inactive error exactly on a finished run; otherwise the input is kept, the old history is a prefix of the new one, and at most one entry is added |
| DfaSimulation.StepAtEndOfInput | src/lib/simulators/dfaSimulator.ts:38-43 | with the input used up, the step finishes the run, accepted exactly when the current state is final, with state, position and history unchanged |
| DfaSimulation.StepWithoutMatch | src/lib/simulators/dfaSimulator.ts:50-54 | with no transition for the current character, the step rejects and finishes, with state, position and history unchanged |
| DfaSimulation.StepTakesFirstMatch | src/lib/simulators/dfaSimulator.ts:45-72 | the first matching transition in list order is taken: the new state is its target, the position goes up by exactly one, exactly one snapshot with the transition is appended, and the run finishes in the same step exactly when the input is used up, with the verdict of the new state |
| DfaSimulation.StepPreservesInv | src/lib/simulators/dfaSimulator.ts:38-72 | a step keeps position ≤ \|input\|, history length = position + 1, snapshot k at position k, and finished ⇔ decided |
| DfaSimulation.FinishesWithin | src/lib/simulators/dfaSimulator.ts:38-72 | every reachable run is finished after at most Remaining further steps: one per unread symbol, or one for the verdict |
| DfaSimulation.StartedRunFinishes | src/lib/simulators/dfaSimulator.ts:11-72 | a started run is finished after max(\|input\|, 1) steps |
| DfaSimulation.StepsKeepInv | src/lib/simulators/dfaSimulator.ts:33-75 | any number of steps keeps the run invariant |
| DfaSimulation.StepsAppendToHistory | src/lib/simulators/dfaSimulator.ts:59-66 | over n steps, the history only grows at its end, by at most n entries |
| DfaSimulation.DfaSimulator.constructor | src/lib/simulators/dfaSimulator.ts:3-9 | a new simulator holds the automaton and no run |
| DfaSimulation.DfaSimulator.Start | src/lib/simulators/dfaSimulator.ts:11-31 | the result is `StartRun`'s; on success the fields hold the new run, and on failure the old run is kept |
| DfaSimulation.DfaSimulator.Step | src/lib/simulators/dfaSimulator.ts:33-75 | without a run it fails with the inactive error; otherwise the result is `StepRun` of the old run; the fields then hold the new run, or the old one unchanged on failure; the invariant is kept |
| DfaSimulation.DfaSimulator.GetState | src/lib/simulators/dfaSimulator.ts:77-79 | returns the current run, which satisfies the run invariant |
| DfaSimulation.DfaSimulator.Reset | src/lib/simulators/dfaSimulator.ts:81-83 | no run is left, so the next `Step` fails |
| PdaSimulation.CurrentSymbol | src/lib/simulators/pdaSimulator.ts:40-42 | the symbol is one character long; a symbol other than ε is only read with input left, and it is the character at the cursor; ε is read exactly when the input is used up or the character at the cursor is 'ε' itself |
| PdaSimulation.StackTop | src/lib/simulators/pdaSimulator.ts:43-45 | a top other than ε is the last cell of a non-empty stack; ε is seen exactly when the stack is empty or its last cell holds "ε" |
| PdaSimulation.FirstReadingOfCandidates | src/lib/simulators/pdaSimulator.ts:47-54 | searching the filtered candidates for an input symbol finds nothing exactly when no candidate reads it; otherwise it finds the first candidate of the whole list that reads it |
| PdaSimulation.ChooseIsGreedy | src/lib/simulators/pdaSimulator.ts:47-56 | nothing is chosen exactly when no transition is a candidate; the choice is always a candidate; the first candidate reading the real symbol wins; only without one does the first candidate reading ε win |
| PdaSimulation.PushedCellsAt | src/lib/simulators/pdaSimulator.ts:74-75 | the k-th character of the push string lands k cells below the top of the pushed cells |
| PdaSimulation.UpdateStackCells | src/lib/simulators/pdaSimulator.ts:68-76 | one cell is popped exactly when the pop symbol is not ε and the stack is non-empty; every cell below is kept; reading the new stack down from its top gives the push string in order, so its first character ends on top |
| PdaSimulation.StartRun | src/lib/simulators/pdaSimulator.ts:11-33 | fails exactly when no state is initial; otherwise the run is in the first initial state with stack [Z], and the first snapshot holds its own [Z]; the run invariant holds |
| PdaSimulation.StepRun | src/lib/simulators/pdaSimulator.ts:35-95 | fails with the inactive error exactly on a finished run; otherwise the input is kept, the old history is a prefix of the new one, and exactly one entry is added unless the run finished |
| PdaSimulation.StepWithoutCandidate | src/lib/simulators/pdaSimulator.ts:58-66 | with no candidate the run finishes, accepted exactly when (the state is final or the stack is empty) and all input is consumed; state, cursor, stack and history are unchanged |
| PdaSimulation.StepFiresChosen | src/lib/simulators/pdaSimulator.ts:68-92 | firing the chosen transition: the new state is its target, the stack is updated, the cursor advances by one exactly when it reads a real symbol, one snapshot with the new stack is appended, and the run stays unfinished |
| PdaSimulation.StepPreservesInv | src/lib/simulators/pdaSimulator.ts:40-92 | a step keeps the cursor within the input, and the newest snapshot keeps showing the live state, cursor and stack |
| PdaSimulation.StepsKeepInv | src/lib/simulators/pdaSimulator.ts:35-95 | any number of steps keeps the run invariant |
| PdaSimulation.StepsAppendToHistory | src/lib/simulators/pdaSimulator.ts:84-92 | later steps only append to the history, so the stack snapshots already taken are never changed by later pops and pushes |
| PdaSimulation.EpsilonLoopNeverFinishes | src/lib/simulators/pdaSimulator.ts:47-92 | a PDA whose one ε-move neither reads, pops nor pushes is unfinished after any number n of steps, on every input, and every one of those steps fired, so its history holds 1 + n snapshots |
| PdaSimulation.PdaSimulator.constructor | src/lib/simulators/pdaSimulator.ts:3-9 | a new simulator holds the automaton and no run |
| PdaSimulation.PdaSimulator.Start | src/lib/simulators/pdaSimulator.ts:11-33 | the result is `StartRun`'s; on success the fields hold the new run, and on failure the old run is kept |
| PdaSimulation.PdaSimulator.Step | src/lib/simulators/pdaSimulator.ts:35-95 | without a run it fails with the inactive error; otherwise the result is `StepRun` of the old run; the fields then hold the new run, or the old one unchanged on failure; the invariant is kept |
| PdaSimulation.PdaSimulator.GetState | src/lib/simulators/pdaSimulator.ts:97-99 | returns the current run, which satisfies the run invariant |
| PdaSimulation.PdaSimulator.Reset | src/lib/simulators/pdaSimulator.ts:101-103 | no run is left, so the next `Step` fails |
| TuringSimulation.InitialTape | src/lib/simulators/turingSimulator.ts:17-20 | the initial tape has one cell per input character, or one cell for the empty input |
| TuringSimulation.InitialTapeCells | src/lib/simulators/turingSimulator.ts:17-20 | the initial tape holds the input's characters in order, or a single blank for the empty input |
| TuringSimulation.ReadSymbol | src/lib/simulators/turingSimulator.ts:47 | the cell under the head if it is present and non-empty, else blank; never the empty string |
| TuringSimulation.Lookup | src/lib/simulators/turingSimulator.ts:49-51 | a transition found leaves the current state on the read symbol and is one of the automaton's transitions |
| TuringSimulation.LookupIsFirstMatch | src/lib/simulators/turingSimulator.ts:49-51 | the search finds nothing exactly when no transition matches; otherwise it finds the first match in list order |
| TuringSimulation.MoveHeadShifts | src/lib/simulators/turingSimulator.ts:63-74 | after a move the head is on the tape; the tape grows by one blank exactly when the head walks off an end; old cells keep their contents, shifted right by one only when a blank was prepended; the head moves by −1, +1 or 0 relative to them |
| TuringSimulation.WriteThenMove | src/lib/simulators/turingSimulator.ts:60-74 | writing and then moving leaves the written symbol in the old head cell and every other cell unchanged, up to the one-place shift of a prepended blank |
| TuringSimulation.StartRun | src/lib/simulators/turingSimulator.ts:11-40 | fails exactly when no state is initial; otherwise the run is in the first initial state with the initial tape, the head on cell 0, and a first snapshot holding its own copy of the tape; the run invariant holds |
| TuringSimulation.StepRun | src/lib/simulators/turingSimulator.ts:42-94 | fails with the inactive error exactly on a finished run; otherwise the input and cursor are kept, the head stays on the tape, the tape grows by at most one cell, and the history only grows at its end, by at most one entry |
| TuringSimulation.StepWithoutMatch | src/lib/simulators/turingSimulator.ts:53-58 | with no matching transition the run halts, accepted exactly when the current state is final; tape, head and history are unchanged |
| TuringSimulation.StepTakesFirstMatch | src/lib/simulators/turingSimulator.ts:47-91 | the first matching transition is taken: it writes under the head, moves the head, appends exactly one snapshot with the new tape and head, and halts with acceptance exactly when the new state is final; otherwise the verdict stays open |
| TuringSimulation.StepWritesUnderHead | src/lib/simulators/turingSimulator.ts:60-74 | a fired step writes the transition's symbol under the head and leaves every other cell as it was, up to the shift of a prepended blank |
| TuringSimulation.StepPreservesInv | src/lib/simulators/turingSimulator.ts:42-94 | a step keeps the head on the tape and the cursor at 0, keeps every snapshot's head on its own tape, keeps the newest snapshot showing the live state, tape and head, and keeps finished ⇔ decided |
| TuringSimulation.StepsKeepInv | src/lib/simulators/turingSimulator.ts:42-94 | any number of steps keeps the run invariant |
| TuringSimulation.StepsAppendToHistory | src/lib/simulators/turingSimulator.ts:76-85 | later steps only append to the history, so tape snapshots already taken are never changed by later writes |
| TuringSimulation.RightWalkerNeverHalts | src/lib/simulators/turingSimulator.ts:87-91 | a machine that walks right over blanks in a non-final state is still running after any number n of steps, and every one of those steps fired, so its history holds 1 + n snapshots |
| TuringSimulation.TuringSimulator.constructor | src/lib/simulators/turingSimulator.ts:3-9 | a new simulator holds the automaton and no run |
| TuringSimulation.TuringSimulator.Start | src/lib/simulators/turingSimulator.ts:11-40 | the result is `StartRun`'s; on success the fields hold the new run, and on failure the old run is kept |
| TuringSimulation.TuringSimulator.Step | src/lib/simulators/turingSimulator.ts:42-94 | without a run it fails with the inactive error; otherwise the result is `StepRun` of the old run; the fields then hold the new run, or the old one unchanged on failure; the invariant is kept |
| TuringSimulation.TuringSimulator.GetState | src/lib/simulators/turingSimulator.ts:96-98 | returns the current run, which satisfies the run invariant |
| TuringSimulation.TuringSimulator.Reset | src/lib/simulators/turingSimulator.ts:100-102 | no run is left, so the next `Step` fails |

The data model follows src/types/automata.ts:8-71. `State` maps to
`Automata.State` and the three transition interfaces map to the
transition datatypes. `Automaton` keeps only its states and transitions.
`SimulationState` and `SimulationStep` are split into one run and one
snapshot datatype per machine.

## Left out

- The user interface, import/export and remote persistence are not part of this model. The steppers receive an automaton that is already built.
- Cosmetic data is dropped: state labels and positions, and the automaton's name, type, alphabet and timestamps. The simulators never read them.
- Error message text is not modelled. A `throw` is an `Err` result that leaves the run unchanged.
- `start`, `step` and `getState` all return the live run record in the source, so a reference a caller kept from an earlier call changes with every later `step`, and a caller could mutate the run through it. The model returns a value each time, so aliasing through a returned reference is not modelled.
- PdaSimulation.PdaSimulator.Step, TuringSimulation.TuringSimulator.Step, PdaSimulation.StepsAppendToHistory, TuringSimulation.StepsAppendToHistory: the stack and the tape are `seq` values, not the live JavaScript array that the source pops, pushes and writes in place, and copies with a spread for each snapshot. Aliasing between the live array and a snapshot therefore cannot arise in the model, and the independence of the snapshots holds by construction rather than being proved; the update in place itself is not captured.
- The `as DFATransition[]` (and similar) casts are made explicit by typing each automaton with one transition shape. An automaton mixing transition shapes is not modelled.
- The optional `stack`, `tape` and `tapePosition` fields are always present in the run records. `start` always sets them, so the source's branches for an absent stack or tape are dead code and are not modelled: pdaSimulator.ts:43, 60, 68, 73 and 88, and the guard at turingSimulator.ts:43.
- Strings are sequences of `char`, and a Dafny `char` is a Unicode scalar value. The source indexes and splits strings by UTF-16 code unit. The two agree only for strings made of characters in the Basic Multilingual Plane, and the model covers only those. Characters outside it, which JavaScript stores as surrogate pairs, are left out: the source reads "😀" as two lone surrogates, so a DFA transition on "😀" never matches and the run on the input "😀" rejects after one step (when no transition reads a lone surrogate), while the model reads one character, can match that transition and accept.
- TuringSimulation.StepRun: requires the head to be on the tape. Every run that `start` and `step` produce satisfies this (`Inv`, `StepsKeepInv`). The source's assignment past the end of a JavaScript array, which would leave holes, is therefore not modelled. The class `Step` needs no such precondition.
- DfaSimulation.StepRun: its own contract gives only the error cases and the history shape. The effect of each case is stated by StepAtEndOfInput, StepWithoutMatch and StepTakesFirstMatch.
- PdaSimulation.StepRun: its own contract gives only the error cases and the history shape. The effect of each case is stated by StepWithoutCandidate and StepFiresChosen, with ChooseIsGreedy for the choice.
- TuringSimulation.StepRun: its own contract gives only the error cases, the history shape and the tape bounds. The effect of each case is stated by StepWithoutMatch, StepTakesFirstMatch and StepWritesUnderHead.
- Termination is proved for the DFA only. The PDA (ε-moves) and the Turing machine have no termination guarantee, and `EpsilonLoopNeverFinishes` and `RightWalkerNeverHalts` exhibit runs that never finish. A step budget is the caller's concern.
- The PDA explores one greedy path. Nondeterministic branching and backtracking are not modelled, because the source does not do them.
- PdaSimulation.StepsAppendToHistory: states the prefix property only, without the DFA's bound on the number of added entries. That bound holds per step, in `StepRun`'s ensures.
- TuringSimulation.StepsAppendToHistory: states the prefix property only, without the DFA's bound on the number of added entries. That bound holds per step, in `StepRun`'s ensures.
