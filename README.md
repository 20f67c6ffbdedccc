# Redux counter study, modelled in Dafny

The repository is a study file on Redux (`study/redux.js`). Its only behaviour is a counter
example: a reducer in two versions, an `incrementCount` action generator in two versions, and a
store that is created from the reducer and then receives a fixed sequence of dispatches. This
project models that example.

- `wrappers.dfy`: `Option` (JavaScript's `undefined`) and `Result` (an exception thrown).
- `counter.dfy`: the state `{ count }`, actions (a string `type` tag with an optional
  `incrementBy`), and both reducers as pure functions. `Option<State>` carries the
  `state = { count: 0 }` parameter default. The payload is sorted by `typeof` into `Num(n)` or
  `NotNum`.
- `action_generators.dfy`: both `incrementCount` generators. The argument may be missing (the
  `= {}` default applies), `null` (both versions throw), or any other value, of which only
  `incrementBy` is read.
- `store.dfy`: the store as a class. It holds the reducer and one state slot. The constructor
  runs the reducer once with no state. `Dispatch` replaces the state with `reducer(state, action)`.
  The class invariant says the state is the left fold (`Replay`) of the reducer over the actions
  dispatched so far. Lemmas describe that fold. `Walkthrough` replays the file's own dispatches.
- `state_objects.dfy`: both reducers over state objects instead of values. This makes object
  identity visible, and with it the write to the previous state in the first reducer's RESET
  branch (see Findings).

Notes on the source:
- The dispatches at lines 59-73 are INCREMENT, INCREMENT, RESET, DECREMENT. They give counts
  1, 2, 0, -1.
- The second generator (lines 145-150) passes a non-number `incrementBy` through unchanged. It
  does not fall back to 1. Only the reducer's own `typeof` check turns it into a step of 1.
- The second reducer (lines 97-113) is a bare `switch` with no enclosing function. It is modelled
  with the first reducer's signature, `(state = { count: 0 }, action)`.

## Model

| member | source | states |
|---|---|---|
| `Counter.Reducer1` | study/redux.js:40-57 | INCREMENT adds exactly 1, whatever the payload. DECREMENT subtracts 1. RESET gives count 0. Any other tag returns the previous state. A missing state counts as `{ count: 0 }`. |
| `Counter.Reducer2` | study/redux.js:97-113 | INCREMENT adds `incrementBy` when it is a number and 1 otherwise. DECREMENT subtracts 1. RESET gives 0. Any other tag returns the previous state unchanged. |
| `Counter.IncrementStep` | study/redux.js:99 | The step is the payload's number when `typeof` says number, and 1 in every other case (absent or not a number). |
| `Counter.Reducer1IsReducer2WithoutPayload` | study/redux.js:98-102 | On any state and action, the first reducer equals the second reducer applied to the action without its `incrementBy`. |
| `Counter.ReducersDisagreeIff` | study/redux.js:98-102 | The two reducers give different states if and only if the action is an INCREMENT whose payload is a number other than 1. |
| `Counter.ResetForgetsPrior` | study/redux.js:50-53 | RESET maps every previous state, including a missing one, to `{ count: 0 }`, in both reducers. |
| `Counter.InitialStateIsZero` | study/redux.js:40 | Called with no state and an unhandled action, as `createStore` does, both reducers yield `{ count: 0 }`. |
| `ActionGenerators.IncrementCount1` | study/redux.js:124-129 | Fails exactly on a `null` argument. Otherwise it returns an INCREMENT whose `incrementBy` is always a number: the payload's number if it has one, else 1. |
| `ActionGenerators.IncrementCount2` | study/redux.js:145-150 | Fails exactly on a `null` argument. Otherwise it returns an INCREMENT whose `incrementBy` is the supplied value, whatever its type, or 1 when absent or when no argument is given. |
| `ActionGenerators.GeneratorsDifferIff` | study/redux.js:145-153 | The two generators build different actions if and only if the payload object holds an `incrementBy` that is not a number. |
| `ActionGenerators.GeneratorsSameEffect` | study/redux.js:151-154 | Dispatched to the payload-aware reducer, both generators' actions yield the same next state for every state and argument. Dropping the `typeof` check from the generator is therefore safe only because the reducer repeats it. |
| `ActionGenerators.GeneratedIncrement` | study/redux.js:130 | With the payload-aware reducer, a generated action adds the argument's number, or 1 when there is none. |
| `Store.ReplayAppend` | study/redux.js:76-78 | Dispatching `xs` and then `ys` ends in the same state as dispatching `xs + ys`. |
| `Store.ReplayWithoutReset` | study/redux.js:97-106 | With no RESET in the sequence, the final count is the starting count plus the sum of the individual steps (`incrementBy` or 1, and -1). |
| `Store.ReplayAfterLastReset` | study/redux.js:107-110 | After a RESET followed by no other RESET, the count is the sum of the steps since that RESET, whatever came before it. |
| `Store.Reducer1IgnoresPayloads` | study/redux.js:40-57 | Over any sequence, the first reducer reaches the same state as the second reducer on the same actions with all payloads dropped. |
| `Store.UnhandledKeepsState` | study/redux.js:84 | A sequence of actions with unhandled tags leaves the state unchanged, under either reducer. |
| `Store.CounterStoreStartsAtZero` | study/redux.js:40 | For either counter reducer, the call `createStore` makes (no state, the store's init action) yields `{ count: 0 }`. |
| `Store.CounterStore.constructor` | study/redux.js:40 | `createStore(reducer)` calls the reducer once with no state and the store's init action. It starts with that result and no dispatched actions. With either counter reducer, that result is `{ count: 0 }`. |
| `Store.CounterStore.GetState` | study/redux.js:24 | Returns the reducer folded over every action dispatched so far, starting from the initial state. |
| `Store.CounterStore.Dispatch` | study/redux.js:76-78 | Replaces the state with `reducer(state, action)` unconditionally. It appends the action to the history and keeps the fold invariant. |
| `Store.Walkthrough` | study/redux.js:59-73 | The dispatches of lines 59-73, then line 130's generated `{ incrementBy: 5 }`, pass through counts 0, 1, 2, 0, -1. The last count is 0 with the first reducer and 4 with the payload-aware one. |
| `StateObjects.ReduceInPlace` | study/redux.js:40-57 | The first reducer over objects. Its result holds `Reducer1`'s count. Handled tags allocate a new object. Other tags return the same object. RESET also sets the input object's count to 0. |
| `StateObjects.Reduce` | study/redux.js:97-113 | The second reducer over objects. Its result holds `Reducer2`'s count. It has the same identity rules as `ReduceInPlace`. The input object's count never changes. |
| `StateObjects.ReduceFixed` | study/redux.js:50-53 | The first reducer with RESET written as `count: 0`. Its result holds `Reducer1`'s count. It has the same identity rules as `ReduceInPlace`. The input object's count never changes. |
| `StateObjects.ResetOverwritesPrior` | study/redux.js:50-53 | A state with count 2 that was read before a RESET reads 0 after the first reducer runs. |
| `StateObjects.ResetKeepsPrior` | study/redux.js:50-53 | With the corrected RESET branch, the same state still reads 2 afterwards. |

## Findings

| source | as written | input that shows it | evidently intended | confidence | as-written member | corrected member |
|---|---|---|---|---|---|---|
| study/redux.js:52 | `count: state.count = 0` assigns 0 to the previous state's `count` before building the new object | previous state `{ count: 2 }`, action `{ type: 'RESET' }`: the previous object reads `{ count: 0 }` afterwards | `count: 0`, leaving the previous state untouched, as the comments at lines 37 and 162 require and line 109 writes | high, not executed | `StateObjects.ResetOverwritesPrior` | `StateObjects.ReduceFixed` |

The returned count is 0 either way. The value-level `Counter.Reducer1` returns only a value, so
its results are those of the corrected branch. The write shows only through object identity,
which is why `StateObjects` models it. `StateObjects.ResetKeepsPrior` exhibits the corrected
behaviour.

## Left out

- Subscribers: `store.subscribe`, its unsubscribe handle and notification order (lines 86-91). They belong to the Redux library, which is not part of this model, and the file only describes them in comments.
- `combineReducers` and reducer composition (lines 164-167): described in comments only, with no code.
- JavaScript numbers: `count` and `incrementBy` are unbounded integers. NaN, Infinity, fractions and rounding of large values are not modelled. `typeof 'number'` is modelled as the `Num` payload case.
- The random suffix of Redux's init action type is dropped (`"@@redux/INIT"` is used). The library's checks on dispatched actions (plain object, `type` defined) and its re-entrancy guard are not modelled.
- The store holds its state as a value. Object identity (the same object returned for an unhandled tag, and writes into a previous state) is modelled only in `StateObjects`, not across a store's history.
- The explanatory prose on React, props and component state (lines 1-38) has no behaviour.
