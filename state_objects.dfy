/**
 * The reducers of study/redux.js over state OBJECTS rather than values, so
 * that object identity and writes to the previous state can be seen: the
 * default branch hands back the very object it was given, the handled
 * branches allocate a new one, and the first reducer's RESET branch also
 * writes 0 into the previous state (`count: state.count = 0`).
 */
module StateObjects {
  import opened Wrappers
  import opened Counter

  /** A `{ count }` object. */
  class CountObject {
    var count: int

    constructor (count: int)
      ensures this.count == count
    {
      this.count := count;
    }
  }

  /** The value an object (or `undefined`, as null) holds. */
  ghost function Snapshot(o: CountObject?): Option<State>
    reads o
  {
    if o == null then None else Some(State(o.count))
  }

  /** The first reducer as written: RESET evaluates `state.count = 0`, a write to its input. */
  method ReduceInPlace(state: CountObject?, action: Action) returns (r: CountObject)
    modifies state
    ensures r.count == Reducer1(old(Snapshot(state)), action).count
    ensures state != null ==> state.count == (if action.kind == RESET then 0 else old(state.count))
    ensures Handled(action.kind) || state == null ==> fresh(r)
    ensures !Handled(action.kind) && state != null ==> r == state
  {
    var s := state;
    if s == null {
      s := new CountObject(0);
    }
    if action.kind == INCREMENT {
      r := new CountObject(s.count + 1);
    } else if action.kind == DECREMENT {
      r := new CountObject(s.count - 1);
    } else if action.kind == RESET {
      s.count := 0;
      r := new CountObject(s.count);
    } else {
      r := s;
    }
  }

  /** The first reducer with RESET building `{ count: 0 }`: the input is only read. */
  method ReduceFixed(state: CountObject?, action: Action) returns (r: CountObject)
    ensures r.count == Reducer1(old(Snapshot(state)), action).count
    ensures state != null ==> state.count == old(state.count)
    ensures Handled(action.kind) || state == null ==> fresh(r)
    ensures !Handled(action.kind) && state != null ==> r == state
  {
    var s := state;
    if s == null {
      s := new CountObject(0);
    }
    if action.kind == INCREMENT {
      r := new CountObject(s.count + 1);
    } else if action.kind == DECREMENT {
      r := new CountObject(s.count - 1);
    } else if action.kind == RESET {
      r := new CountObject(0);
    } else {
      r := s;
    }
  }

  /** The second reducer: RESET builds `{ count: 0 }` and the input is only read. */
  method Reduce(state: CountObject?, action: Action) returns (r: CountObject)
    ensures r.count == Reducer2(old(Snapshot(state)), action).count
    ensures state != null ==> state.count == old(state.count)
    ensures Handled(action.kind) || state == null ==> fresh(r)
    ensures !Handled(action.kind) && state != null ==> r == state
  {
    var s := state;
    if s == null {
      s := new CountObject(0);
    }
    if action.kind == INCREMENT {
      r := new CountObject(s.count + IncrementStep(action.incrementBy));
    } else if action.kind == DECREMENT {
      r := new CountObject(s.count - 1);
    } else if action.kind == RESET {
      r := new CountObject(0);
    } else {
      r := s;
    }
  }

  /**
   * A state read before a RESET, with count 2, reads 0 afterwards under the
   * first reducer: the reducer changed the state it was given.
   */
  method ResetOverwritesPrior() returns (before: int, after: int)
    ensures before == 2 && after == 0
  {
    var prior := new CountObject(2);
    before := prior.count;
    var next := ReduceInPlace(prior, Action(RESET, None));
    after := prior.count;
  }

  /** The same RESET under the corrected first reducer leaves the earlier state at 2. */
  method ResetKeepsPrior() returns (before: int, after: int)
    ensures before == 2 && after == 2
  {
    var prior := new CountObject(2);
    before := prior.count;
    var next := ReduceFixed(prior, Action(RESET, None));
    after := prior.count;
  }
}
