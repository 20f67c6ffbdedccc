/**
 * The two `incrementCount` action generators of study/redux.js, which build an
 * INCREMENT action from an optional payload object.
 */
module ActionGenerators {
  import opened Wrappers
  import opened Counter

  /**
   * The argument passed to a generator: nothing (`undefined`, so the `= {}`
   * default applies), `null`, or any other value, of which only the
   * `incrementBy` property is read.
   */
  datatype Arg = NoArg | NullArg | Obj(incrementBy: Option<Payload>)

  /** Reading a property of `null`, or destructuring it, throws. */
  datatype TypeError = CannotReadPropertiesOfNull

  /** The `incrementBy` property seen by the body once the `= {}` default is applied. */
  function PropertyOf(payload: Arg): Option<Payload>
    requires !payload.NullArg?
  {
    if payload.Obj? then payload.incrementBy else None
  }

  /** First generator: keeps `incrementBy` only if `typeof` says it is a number, else 1. */
  function IncrementCount1(payload: Arg): (r: Result<Action, TypeError>)
    ensures r.Failure? <==> payload.NullArg?
    ensures r.Success? ==> r.value.kind == INCREMENT && IsNumber(r.value.incrementBy)
    ensures r.Success? && IsNumber(PropertyOf(payload)) ==> r.value.incrementBy == PropertyOf(payload)
    ensures r.Success? && !IsNumber(PropertyOf(payload)) ==> r.value.incrementBy == Some(Num(1))
  {
    match payload
    case NullArg => Failure(CannotReadPropertiesOfNull)
    case NoArg => Success(Action(INCREMENT, Some(Num(1))))
    case Obj(Some(Num(n))) => Success(Action(INCREMENT, Some(Num(n))))
    case Obj(_) => Success(Action(INCREMENT, Some(Num(1))))
  }

  /** Second generator: a destructuring default, so only a missing `incrementBy` becomes 1. */
  function IncrementCount2(payload: Arg): (r: Result<Action, TypeError>)
    ensures r.Failure? <==> payload.NullArg?
    ensures r.Success? ==> r.value.kind == INCREMENT && r.value.incrementBy.Some?
    ensures r.Success? && PropertyOf(payload).Some? ==> r.value.incrementBy == PropertyOf(payload)
    ensures r.Success? && PropertyOf(payload).None? ==> r.value.incrementBy == Some(Num(1))
  {
    match payload
    case NullArg => Failure(CannotReadPropertiesOfNull)
    case NoArg => Success(Action(INCREMENT, Some(Num(1))))
    case Obj(None) => Success(Action(INCREMENT, Some(Num(1))))
    case Obj(Some(p)) => Success(Action(INCREMENT, Some(p)))
  }

  /** The generators build different actions exactly when the payload holds a non-number. */
  lemma GeneratorsDifferIff(payload: Arg)
    ensures IncrementCount1(payload) != IncrementCount2(payload)
        <==> payload.Obj? && payload.incrementBy == Some(NotNum)
  {
  }

  /**
   * Under the payload-aware reducer both generators have the same effect: the
   * reducer's own `typeof` check undoes the pass-through of the second one.
   */
  lemma GeneratorsSameEffect(state: Option<State>, payload: Arg)
    requires !payload.NullArg?
    ensures Reducer2(state, IncrementCount1(payload).value) == Reducer2(state, IncrementCount2(payload).value)
  {
  }

  /** Dispatched to the payload-aware reducer, a generated action adds the number given, or 1. */
  lemma GeneratedIncrement(state: Option<State>, payload: Arg)
    requires !payload.NullArg?
    ensures Reducer2(state, IncrementCount1(payload).value).count
            == Prior(state).count + IncrementStep(PropertyOf(payload))
  {
  }
}
