/**
 * The store of study/redux.js: one state slot, set by running the reducer once
 * at creation and replaced by `reducer(state, action)` on every dispatch.
 */
module Store {
  import opened Wrappers
  import opened Counter
  import opened ActionGenerators

  /** A reducer as `createStore` receives it. */
  type Reducer = (Option<State>, Action) -> State

  /** The state reached by dispatching `actions` one after the other from `s`. */
  function Replay(reducer: Reducer, s: State, actions: seq<Action>): State
    decreases |actions|
  {
    if actions == [] then s else Replay(reducer, reducer(Some(s), actions[0]), actions[1..])
  }

  /** Dispatching `xs` and then `ys` is dispatching `xs + ys`. */
  lemma {:induction false} ReplayAppend(reducer: Reducer, s: State, xs: seq<Action>, ys: seq<Action>)
    ensures Replay(reducer, s, xs + ys) == Replay(reducer, Replay(reducer, s, xs), ys)
    decreases |xs|
  {
    if xs != [] {
      assert (xs + ys)[1..] == xs[1..] + ys;
      ReplayAppend(reducer, reducer(Some(s), xs[0]), xs[1..], ys);
    } else {
      assert xs + ys == ys;
    }
  }

  /** The change in count an action makes under the payload-aware reducer, RESET aside. */
  function Delta(action: Action): int {
    if action.kind == INCREMENT then IncrementStep(action.incrementBy)
    else if action.kind == DECREMENT then -1
    else 0
  }

  /** The total change a sequence of actions makes, RESET aside. */
  function Net(actions: seq<Action>): int {
    if actions == [] then 0 else Delta(actions[0]) + Net(actions[1..])
  }

  predicate NoReset(actions: seq<Action>) {
    forall i :: 0 <= i < |actions| ==> actions[i].kind != RESET
  }

  /** Without a RESET, the count moves by the sum of the individual changes. */
  lemma {:induction false} ReplayWithoutReset(s: State, actions: seq<Action>)
    requires NoReset(actions)
    ensures Replay(Reducer2, s, actions) == State(s.count + Net(actions))
    decreases |actions|
  {
    if actions != [] {
      assert actions[0].kind != RESET;
      ReplayWithoutReset(Reducer2(Some(s), actions[0]), actions[1..]);
    }
  }

  /** After the last RESET, the count is the sum of the changes made since, whatever came before. */
  lemma ReplayAfterLastReset(s: State, before: seq<Action>, reset: Action, after: seq<Action>)
    requires reset.kind == RESET && NoReset(after)
    ensures Replay(Reducer2, s, before + [reset] + after) == State(Net(after))
  {
    ReplayAppend(Reducer2, s, before + [reset], after);
    ReplayAppend(Reducer2, s, before, [reset]);
    ReplayWithoutReset(State(0), after);
  }

  /** The actions with their payloads dropped. */
  function UnpaidAll(actions: seq<Action>): (r: seq<Action>)
    ensures |r| == |actions|
    ensures forall i :: 0 <= i < |actions| ==> r[i] == Unpaid(actions[i])
  {
    if actions == [] then [] else [Unpaid(actions[0])] + UnpaidAll(actions[1..])
  }

  /** Over a whole sequence, the first reducer is the second one ignoring every payload. */
  lemma {:induction false} Reducer1IgnoresPayloads(s: State, actions: seq<Action>)
    ensures Replay(Reducer1, s, actions) == Replay(Reducer2, s, UnpaidAll(actions))
    decreases |actions|
  {
    if actions != [] {
      Reducer1IsReducer2WithoutPayload(Some(s), actions[0]);
      assert UnpaidAll(actions)[1..] == UnpaidAll(actions[1..]);
      Reducer1IgnoresPayloads(Reducer1(Some(s), actions[0]), actions[1..]);
    }
  }

  /** A sequence of unhandled actions leaves the state as it was, for either reducer. */
  lemma {:induction false} UnhandledKeepsState(reducer: Reducer, s: State, actions: seq<Action>)
    requires reducer == Reducer1 || reducer == Reducer2
    requires forall i :: 0 <= i < |actions| ==> !Handled(actions[i].kind)
    ensures Replay(reducer, s, actions) == s
    decreases |actions|
  {
    if actions != [] {
      UnhandledKeepsState(reducer, s, actions[1..]);
    }
  }

  /** A store created with either counter reducer starts at `{ count: 0 }`. */
  lemma CounterStoreStartsAtZero(reducer: Reducer)
    requires reducer == Reducer1 || reducer == Reducer2
    ensures reducer(None, InitAction) == State(0)
  {
    InitActionNotHandled();
    InitialStateIsZero(InitAction);
  }

  /** The store: the reducer it was created with and the current state. */
  class CounterStore {
    const reducer: Reducer
    /** The state the reducer produced at creation. */
    ghost const initial: State
    var state: State
    /** Every action dispatched so far, in order. */
    ghost var dispatched: seq<Action>

    /** The state is the reducer folded over the dispatched actions from the initial state. */
    ghost predicate Valid()
      reads this
    {
      initial == reducer(None, InitAction) && state == Replay(reducer, initial, dispatched)
    }

    /** `createStore(reducer)`: calls the reducer once, with no state, to set the default. */
    constructor (reducer: Reducer)
      ensures Valid() && this.reducer == reducer
      ensures state == reducer(None, InitAction) && dispatched == []
      ensures reducer == Reducer1 || reducer == Reducer2 ==> state == State(0)
    {
      if reducer == Reducer1 || reducer == Reducer2 {
        CounterStoreStartsAtZero(reducer);
      }
      this.reducer := reducer;
      initial := reducer(None, InitAction);
      state := reducer(None, InitAction);
      dispatched := [];
    }

    /** `store.getState()`. */
    method GetState() returns (s: State)
      requires Valid()
      ensures s == Replay(reducer, initial, dispatched)
    {
      s := state;
    }

    /** `store.dispatch(action)`: the state is replaced by the reducer's result, equal or not. */
    method Dispatch(action: Action)
      requires Valid()
      modifies this
      ensures Valid()
      ensures state == reducer(Some(old(state)), action)
      ensures dispatched == old(dispatched) + [action]
    {
      ReplayAppend(reducer, initial, dispatched, [action]);
      state := reducer(Some(state), action);
      dispatched := dispatched + [action];
    }
  }

  /** The counts a store goes through for the dispatches of the walkthrough. */
  method Walkthrough(reducer: Reducer) returns (counts: seq<int>)
    ensures reducer == Reducer1 ==> counts == [0, 1, 2, 0, -1, 0]
    ensures reducer == Reducer2 ==> counts == [0, 1, 2, 0, -1, 4]
  {
    var store := new CounterStore(reducer);
    counts := [store.state.count];
    store.Dispatch(Action(INCREMENT, None));
    counts := counts + [store.state.count];
    store.Dispatch(Action(INCREMENT, None));
    counts := counts + [store.state.count];
    store.Dispatch(Action(RESET, None));
    counts := counts + [store.state.count];
    store.Dispatch(Action(DECREMENT, None));
    counts := counts + [store.state.count];
    var generated := IncrementCount1(Obj(Some(Num(5))));
    store.Dispatch(generated.value);
    counts := counts + [store.state.count];
  }
}
