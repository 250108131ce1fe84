# fsm::runtime in Dafny

A model of `fsm::runtime`, the table-driven finite state machine of the
header `include/fsm/runtime.hpp`, with its properties proved.

A machine holds two things:

- a transition table, an `unordered_map<uint64_t, Transition>`;
- the current state.

Each `Transition` carries a source state, an event, a destination state, an
optional guard and an optional action. The table stores it under the 64-bit
composite key `key(src, ev)`: the state's underlying integer goes in the high
32 bits and the event's in the low 32 bits.

The operations:

- `add_transition` writes a transition into the table. A later transition for
  the same (state, event) pair silently replaces the earlier one.
- `dispatch(ev, ctx)` looks up `key(current, ev)`.
  - No entry: it answers `NoTransition`.
  - An entry whose guard rejects the context: it answers `GuardRejected`.
  - Otherwise it runs the action on the context, moves to the destination and
    answers `Ok`.
- `current()` returns the current state.
- `to_dot` writes the table as a Graphviz `digraph`. Each state and event is
  rendered by `fsm::to_string` as the decimal text of its underlying integer.

Modules, one per file:

| file | module | contents |
|---|---|---|
| `wrappers.dfy` | `Wrappers` | `Option`: an empty `std::function` is `None` |
| `key.dfy` | `CompositeKey` | ordinals (`bv32`), `u64`, `runtime::key` |
| `decimal.dfy` | `Decimal` | `fsm::to_string`, i.e. `std::to_string` on a non-negative integer |
| `table.dfy` | `Transitions` | `Transition`, the table, lookup and insertion |
| `dispatch.dfy` | `Dispatch` | `Result`, and `Step`, the pure specification of one dispatch |
| `dot.dfy` | `Dot` | the DOT text: header, edge statements, footer |
| `runtime.dfy` | `Runtime` | class `Machine`, whose fields `table` and `current` are updated in place |
| `scenarios.dfy` | `Scenarios` | the repository's test cases, replayed as methods with exact postconditions |

How the C++ constructs are represented:

- **Context.** The context is a type parameter `C`.
  - A guard is a total function `C -> bool`.
  - An action is a function `C -> C` from the context before to the context after.
  - `Machine.Dispatch` takes the context by value and hands back the new one.
    This stands for the action's update through `Context&`.
  - The `void` context is the unit type `()`.
- **Iteration order.** `unordered_map` does not fix one. `Machine.ToDot`
  therefore also returns a ghost `order`. The output is specified for that
  order, and a lemma shows that the set of edge statements, with their
  multiplicities, does not depend on which order was taken.

## Model

| member | source | states |
|---|---|---|
| CompositeKey.Pack | include/fsm/runtime.hpp:155-158 | the shift-and-OR pattern equals state·2^32 + event; its high half gives back the state and its low half the event |
| CompositeKey.Key | include/fsm/runtime.hpp:155-158 | the key's 64 bits are the packed pattern, and the state and the event can be read back from the key |
| CompositeKey.KeyInjective | include/fsm/runtime.hpp:155-158 | two (state, event) pairs share a key if and only if they are equal: no collisions for ordinals below 2^32 |
| CompositeKey.WideOrdinalsCollide | include/fsm/runtime.hpp:155-158 | the source's shift-and-OR on 64-bit operands (`WidePack`) maps (0, 2^32) and (1, 0) to the same key, while `Pack` on 32-bit ordinals keeps the pairs (0, 0) and (1, 0) apart; this is why ordinals are limited to 32 bits |
| Decimal.NatToDecimal | include/fsm/runtime.hpp:169-176 | the rendering is canonical: at least one digit, only digits, no leading zero |
| Decimal.DecimalRoundTrip | include/fsm/runtime.hpp:169-176 | reading the rendering back as a decimal number gives the number |
| Decimal.CanonicalRoundTrip | include/fsm/runtime.hpp:169-176 | every canonical digit string is the rendering of the number it denotes (the converse round trip) |
| Decimal.DecimalInjective | include/fsm/runtime.hpp:169-176 | two numbers have equal renderings if and only if they are equal |
| Decimal.ToString | include/fsm/runtime.hpp:169-176 | the text of an ordinal is canonical decimal and denotes the ordinal's value |
| Decimal.ToStringInjective | include/fsm/runtime.hpp:169-176 | two ordinals have equal text if and only if they are equal |
| Transitions.Lookup | include/fsm/runtime.hpp:102-106 | `find(key(s, e))` finds an entry exactly when the key is present, returns the stored transition, and in a well-keyed table that transition has source s and event e |
| Transitions.Insert | include/fsm/runtime.hpp:90-92 | after inserting `tr`, looking up (tr.src, tr.ev) gives `tr`; looking up any other pair is unchanged |
| Transitions.InsertKeys | include/fsm/runtime.hpp:90-92 | insertion adds exactly the key of the new transition and keeps every entry under the key of its own (src, ev) |
| Transitions.Build | include/fsm/runtime.hpp:90-92 | a table filled by a sequence of `add_transition` calls is well keyed |
| Transitions.BuildLookup | include/fsm/runtime.hpp:90-92 | last write wins: after a sequence of insertions, looking up (s, e) finds the last transition inserted for (s, e), or nothing if there was none |
| Transitions.LastMatchSpec | include/fsm/runtime.hpp:90-92 | the last match is absent exactly when no transition for (s, e) was given; otherwise it is the one at the highest matching index |
| Dispatch.Step | include/fsm/runtime.hpp:101-115 | NoTransition exactly when the lookup fails; GuardRejected exactly when an entry exists and its guard is present and false; both leave state and context unchanged; Ok moves to the entry's destination with the context after the action (unchanged when there is no action) |
| Dispatch.DispatchAfterInserts | include/fsm/runtime.hpp:90-115 | on a table built by insertions, a pair never inserted gives NoTransition and changes nothing; otherwise the last transition inserted for the pair decides: its guard decides GuardRejected, and its destination and action decide the Ok outcome |
| Dot.EdgeLineInjective | include/fsm/runtime.hpp:140-142 | two edge statements are equal if and only if their source, event and destination are equal |
| Dot.LinesAt | include/fsm/runtime.hpp:138-143 | the i-th statement emitted is that of the i-th entry visited |
| Dot.Render | include/fsm/runtime.hpp:136-146 | the text starts with the `digraph FSM {` / `rankdir=LR;` header, followed by the edge statements in order and the closing brace |
| Dot.EnumerationLength | include/fsm/runtime.hpp:138 | a visiting order that lists every key exactly once is as long as the table |
| Dot.OneLinePerEntry | include/fsm/runtime.hpp:138-143 | the text holds exactly one edge statement per table entry, and each entry's statement names its source, destination and event |
| Dot.MapKeysPermute | include/fsm/runtime.hpp:138-143 | visiting the same keys in another order yields the same statements, with the same multiplicities |
| Dot.OrderIndependent | include/fsm/runtime.hpp:138-143 | whichever order the table is walked in, the multiset of edge statements is the same |
| Runtime.Machine.constructor | include/fsm/runtime.hpp:81 | the machine starts in the given state with an empty table |
| Runtime.Machine.AddTransition | include/fsm/runtime.hpp:90-92 | the new table is the old one with `tr` stored under key(tr.src, tr.ev); the current state is unchanged and the table stays well keyed |
| Runtime.Machine.Dispatch | include/fsm/runtime.hpp:101-115 | on a valid machine, the result code, the new current state and the context after the call are those of `Step` on the old state; on Ok the entry taken is the one for (old current, ev) and the new state is its destination; the table is not modified and the machine stays valid |
| Runtime.Machine.ToDot | include/fsm/runtime.hpp:136-146 | the text is `Render` of the table in some visiting order that lists every key exactly once (stated both for the order returned and as an existence claim); the machine is not modified |
| Scenarios.TimerCycle | test/fsm_runtime_tests.cpp:12-33 | the machine starts in Red; three Timer dispatches answer Ok, visit Green, Yellow and Red, and leave the counter at 1, 2 and 3 |
| Scenarios.GuardRejection | test/fsm_runtime_tests.cpp:35-46 | a false guard answers GuardRejected; the state stays Red and the context is untouched |
| Scenarios.DotSingleEdge | test/fsm_runtime_tests.cpp:48-60 | the text starts with "digraph FSM" and its one edge statement is `"0" -> "1" [label="0"];` |
| Scenarios.DotThreeEdges | test/dot_graph_test.cpp:9-17 | the three-light table's text is the header, a list of edge statements and the footer, and that list holds exactly the three edges, once each |
| Scenarios.EmptyTable | test/edge_cases_test.cpp:11-14 | with an empty table the dispatch answers NoTransition and the state stays Locked |
| Scenarios.PartialTable | test/edge_cases_test.cpp:16-24 | the first Coin answers Ok, the second NoTransition, and the machine ends Unlocked |
| Scenarios.IndependentInstances | test/edge_cases_test.cpp:27-41 | dispatching on one machine leaves the other's state alone |
| Scenarios.Overwrite | test/extra_runtime_tests.cpp:8-21 | the second transition for (A, X) replaces the first: dispatch answers Ok and moves to C |
| Scenarios.GuardAndAction | test/extra_runtime_tests.cpp:24-49 | a true guard runs the action once and transitions; a false guard answers GuardRejected, stays in Start, and does not run the action |
| Scenarios.IntegralStates | test/extra_runtime_tests.cpp:52-68 | the test's expectation with the integers as their own ordinals: 0 --0--> 1 --1--> 2 answers Ok twice |
| Scenarios.IntContext | test/int_type_test.cpp:4-10 | the test's expectation for `runtime<int, int, int>`, with the integers as their own ordinals: the machine moves from 0 to 2 on event 1 and leaves the context at 0 |
| Scenarios.UnitContext | test/void_context_test.cpp:7-13 | the test's expectation with the unit type `()` for the `void` context: A --X--> B answers Ok and ends in B |

`Runtime.Machine.Current` (include/fsm/runtime.hpp:121) is the plain accessor
`current()`. It reads `this` and has no contract of its own. The scenarios
read the state through it.

## Left out

- Hashing and bucket layout of `unordered_map`: the table is a Dafny `map` from `u64` keys to transitions.
- Iteration order of `unordered_map`: it is left open. `Machine.ToDot` returns the order it took as a ghost value, and `Dot.OrderIndependent` shows that the emitted statements do not depend on it.
- Ordinal values of 2^32 or above, and negative ordinals: ordinals are unsigned 32-bit values (`bv32`), which `runtime::key` keeps apart. `CompositeKey.WideOrdinalsCollide` shows the collision beyond them. Sign extension of a negative underlying value is not modelled. A plain `enum class` has `int` as its underlying type, so there only values below 2^31 are non-negative and covered.
- Guards and actions with effects other than on the context, such as the `guard_called` flag set in test/fsm_runtime_tests.cpp:39: they are pure functions of the context. The test's fact that the guard was called is therefore not stated.
- The static `action_counter` of test/extra_runtime_tests.cpp:28: the model carries it as the `int` context of `Scenarios.GuardAndAction`.
- An action that reaches back into the machine (aliasing, re-entrant dispatch): it cannot be expressed, because an action only maps the context.
- Non-enum State/Event types and `Context = void`: `include/fsm/runtime.hpp` cannot be instantiated with either as written. `runtime::key` (include/fsm/runtime.hpp:156-157) casts through `std::underlying_type_t`, which is not defined for a non-enum type. With `Context = void`, the `Guard` and `Action` types (include/fsm/runtime.hpp:51-52) and the `Context& ctx` parameter of `dispatch` (include/fsm/runtime.hpp:101) form references to `void`. `include/fsm/runtime.hpp` also declares no one-argument `dispatch(ev)`. So `runtime<S, E>` with the default context, `runtime<uint8_t, uint8_t>` and `runtime<int, int, int>` are ill-formed, and the test files that use them (test/edge_cases_test.cpp, test/extra_runtime_tests.cpp, test/int_type_test.cpp, test/void_context_test.cpp, test/dot_graph_test.cpp) would not build against it. Scenarios.EmptyTable, Scenarios.PartialTable, Scenarios.IndependentInstances, Scenarios.Overwrite, Scenarios.GuardAndAction, Scenarios.IntegralStates, Scenarios.IntContext, Scenarios.UnitContext and Scenarios.DotThreeEdges replay those tests' expectations. Integer states and events stand for their own ordinals, and the unit type `()` stands for `void`.
- Specialisations of `fsm::to_string` for user enum types: only the default, the decimal text of the underlying integer, is modelled.
- Writing the DOT file, running Graphviz and checking the PNG (test/dot_graph_test.cpp:19-41): these are file and process I/O.
- Thread safety: nothing is shared between machines, and concurrent use of one machine is not modelled.
- Runtime.Machine.ToDot: the edge statements are gathered in their own string and the header is prepended at the end. The C++ code appends to the growing `dot` string. The result is the same text.
- Scenarios.DotSingleEdge: states the text as `Header + edge + Footer`. This is stronger than the test's substring checks.
- CompositeKey.Key: states the key as a 64-bit pattern (`Bits(k) == Pack(s, e)`). The integer form state·2^32 + event is stated on the pattern by `CompositeKey.Pack`, not on the key's integer value.
- Exceptions thrown by a guard or an action are not modelled.
