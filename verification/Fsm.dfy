/** The transaction states and the state machine that tells its subscribers about each change. */
module Fsm {

  datatype State = Calling | Trying | Proceeding | Completed | Confirmed | Terminated

  /** The derived order of the states. */
  function Rank(s: State): nat {
    match s
    case Calling => 0
    case Trying => 1
    case Proceeding => 2
    case Completed => 3
    case Confirmed => 4
    case Terminated => 5
  }

  /** `trail` is the first state followed by every state ever set, which is what a subscriber is told. */
  class StateMachine {
    var state: State
    var trail: seq<State>

    ghost predicate Valid()
      reads this
    {
      |trail| > 0 && state == trail[|trail| - 1]
    }

    constructor (state: State)
      ensures Valid() && trail == [state]
    {
      this.state := state;
      this.trail := [state];
    }

    method SetState(s: State)
      modifies this
      ensures Valid() && state == s && trail == old(trail) + [s]
    {
      state := s;
      trail := trail + [s];
    }
  }
}
