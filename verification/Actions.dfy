/** The action objects: status, one-shot promise and the two edge lists, and the list that owns them. */
module Actions {
  import opened ActionStatus

  class Action {
    var id: int
    var status: Status
    var promise: Promise
    // other actions that depend on this one
    var dependers: seq<Action>
    // other actions on which this one depends
    var dependees: seq<Action>

    constructor ()
      ensures id == -1 && status == INIT && promise == Unset && dependers == [] && dependees == []
    {
      id, status, promise, dependers, dependees := -1, INIT, Unset, [], [];
    }

    method AddDependency(action: Action)
      modifies this`dependers, action`dependees
      ensures dependers == old(dependers) + [action]
      ensures action.dependees == old(action.dependees) + [this]
    {
      dependers := dependers + [action];
      action.dependees := action.dependees + [this];
    }

    method AddDependee(action: Action)
      modifies this`dependees, action`dependers
      ensures dependees == old(dependees) + [action]
      ensures action.dependers == old(action.dependers) + [this]
    {
      dependees := dependees + [action];
      action.dependers := action.dependers + [this];
    }

    /** A settled action gets a new promise; an unsettled one is left alone. */
    method Reset()
      modifies this`status, this`promise
      ensures old(status) == INIT || old(status) == RUNNING ==> status == old(status) && promise == old(promise)
      ensures old(status) == SUCCEEDED || old(status) == FAILED ==> status == INIT && promise == Unset
    {
      if status == INIT || status == RUNNING {
        return;
      }
      status := INIT;
      promise := Unset;
    }

    /** `run()` up to the call of the body. */
    method BeginRun()
      requires status == INIT
      modifies this`status
      ensures status == RUNNING
    {
      status := RUNNING;
    }

    /** `run()` after the body: nothing more happens here when the body threw. */
    method EndRun(outcome: Outcome)
      requires status == RUNNING && promise == Unset
      modifies this`status, this`promise
      ensures outcome == ReturnsOk ==> status == SUCCEEDED && promise == Value
      ensures outcome == ReturnsError ==> status == FAILED && promise == Broken
      ensures outcome == Throws ==> status == RUNNING && promise == Unset
    {
      match outcome {
        case ReturnsOk =>
          status := SUCCEEDED;
          promise := Value;
        case ReturnsError =>
          status := FAILED;
          promise := Broken;
        case Throws =>
      }
    }

    /** The status is written first; fulfilling a promise a second time then throws. */
    method MarkFailed() returns (thrown: bool)
      modifies this`status, this`promise
      ensures status == FAILED
      ensures promise == if old(promise) == Unset then Broken else old(promise)
      ensures thrown <==> old(promise) != Unset
    {
      status := FAILED;
      thrown := promise != Unset;
      if !thrown {
        promise := Broken;
      }
    }
  }
}
