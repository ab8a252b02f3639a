/** The device: it finishes submitted work in order, at any time it likes. */
module Device {
  datatype Option<T> = None | Some(value: T)

  class Gpu {
    var completed: nat  // the fence value reached so far
    var signaled: nat   // the last value it was asked to signal

    ghost predicate Valid() reads this {
      completed <= signaled
    }

    constructor ()
      ensures Valid() && completed == 0 && signaled == 0
    {
      completed, signaled := 0, 0;
    }

    /** Asks for a higher value, to be reached after everything submitted before. */
    method Signal(value: nat)
      requires Valid() && value >= signaled
      modifies this`signaled
      ensures Valid() && signaled == value
    {
      signaled := value;
    }

    /** Reading the fence; the device may have moved on. */
    method Poll() returns (value: nat)
      requires Valid()
      modifies this`completed
      ensures Valid() && value == completed && completed >= old(completed)
    {
      var now: nat :| completed <= now <= signaled;
      completed := now;
      value := completed;
    }

    /** Spinning until the fence has reached a value it will reach. */
    method WaitForSignal(fence: nat)
      requires Valid() && fence <= signaled
      modifies this`completed
      ensures Valid() && completed >= fence && completed >= old(completed)
    {
      var now: nat :| completed <= now <= signaled && fence <= now;
      completed := now;
    }
  }
}
