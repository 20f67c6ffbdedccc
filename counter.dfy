/**
 * The counter reducers of study/redux.js: pure transition functions from the
 * previous state and an action to the next state.
 */
module Counter {
  import opened Wrappers

  /** The store's state object `{ count }`. */
  datatype State = State(count: int)

  /** The value found in an action's `incrementBy` property, sorted by `typeof`. */
  datatype Payload = Num(n: int) | NotNum

  /** An action object: its `type` tag and its optional `incrementBy` property. */
  datatype Action = Action(kind: string, incrementBy: Option<Payload>)

  const INCREMENT: string := "INCREMENT"
  const DECREMENT: string := "DECREMENT"
  const RESET: string := "RESET"

  /** The action the store dispatches by itself when it is created. */
  const InitAction: Action := Action("@@redux/INIT", None)

  /** The three tags the reducers switch on. */
  predicate Handled(kind: string) {
    kind == INCREMENT || kind == DECREMENT || kind == RESET
  }

  /** The `state = { count: 0 }` parameter default: an absent state is replaced by a zero count. */
  function Prior(state: Option<State>): (s: State)
    ensures state.Some? ==> s == state.value
    ensures state.None? ==> s.count == 0
  {
    match state
    case Some(s) => s
    case None => State(0)
  }

  /** `typeof incrementBy === 'number'`: the property is present and holds a number. */
  predicate IsNumber(incrementBy: Option<Payload>) {
    incrementBy.Some? && incrementBy.value.Num?
  }

  /** The step of the payload-aware INCREMENT: the payload if `typeof` says number, else 1. */
  function IncrementStep(incrementBy: Option<Payload>): (step: int)
    ensures IsNumber(incrementBy) ==> step == incrementBy.value.n
    ensures !IsNumber(incrementBy) ==> step == 1
  {
    match incrementBy
    case Some(Num(n)) => n
    case _ => 1
  }

  /** The first reducer: fixed steps, any payload is ignored. */
  function Reducer1(state: Option<State>, action: Action): (r: State)
    ensures action.kind == INCREMENT ==> r.count == Prior(state).count + 1
    ensures action.kind == DECREMENT ==> r.count == Prior(state).count - 1
    ensures action.kind == RESET ==> r.count == 0
    ensures !Handled(action.kind) ==> r == Prior(state)
  {
    var s := Prior(state);
    if action.kind == INCREMENT then State(s.count + 1)
    else if action.kind == DECREMENT then State(s.count - 1)
    else if action.kind == RESET then State(0)
    else s
  }

  /** The second reducer: INCREMENT honours a numeric `incrementBy`. */
  function Reducer2(state: Option<State>, action: Action): (r: State)
    ensures action.kind == INCREMENT && IsNumber(action.incrementBy) ==>
              r.count == Prior(state).count + action.incrementBy.value.n
    ensures action.kind == INCREMENT && !IsNumber(action.incrementBy) ==>
              r.count == Prior(state).count + 1
    ensures action.kind == DECREMENT ==> r.count == Prior(state).count - 1
    ensures action.kind == RESET ==> r.count == 0
    ensures !Handled(action.kind) ==> r == Prior(state)
  {
    var s := Prior(state);
    if action.kind == INCREMENT then State(s.count + IncrementStep(action.incrementBy))
    else if action.kind == DECREMENT then State(s.count - 1)
    else if action.kind == RESET then State(0)
    else s
  }

  /** The same action with its `incrementBy` property removed. */
  function Unpaid(action: Action): Action {
    action.(incrementBy := None)
  }

  /** The first reducer is the second one run on actions whose payload was dropped. */
  lemma Reducer1IsReducer2WithoutPayload(state: Option<State>, action: Action)
    ensures Reducer1(state, action) == Reducer2(state, Unpaid(action))
  {
  }

  /**
   * The two reducers differ exactly on an INCREMENT whose payload is a number
   * other than 1.
   */
  lemma ReducersDisagreeIff(state: Option<State>, action: Action)
    ensures Reducer1(state, action) != Reducer2(state, action)
        <==> action.kind == INCREMENT && IsNumber(action.incrementBy) && action.incrementBy.value.n != 1
  {
  }

  /** RESET forgets the previous state: any two states reset to the same value. */
  lemma ResetForgetsPrior(s1: Option<State>, s2: Option<State>, action: Action)
    requires action.kind == RESET
    ensures Reducer1(s1, action) == Reducer1(s2, action) == State(0)
    ensures Reducer2(s1, action) == Reducer2(s2, action) == State(0)
  {
  }

  /** The state the store starts from is `{ count: 0 }` for either reducer. */
  lemma InitialStateIsZero(action: Action)
    requires !Handled(action.kind)
    ensures Reducer1(None, action) == State(0)
    ensures Reducer2(None, action) == State(0)
  {
  }

  /** The store's own init action is not one of the handled tags. */
  lemma InitActionNotHandled()
    ensures !Handled(InitAction.kind)
  {
  }
}
