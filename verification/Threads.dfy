/** The data structures of the coroutine library. */
module Threads {

  datatype Option<+T> = None | Some(value: T)

  datatype State = Running | Runnable | IoWait | LockWait | CondWait | Sleeping | Zombie | Suspended

  datatype Timeout = Forever | After(usecs: nat)

  datatype Stack = Stack(id: nat, size: nat)

  /** Where a switched-out thread resumes: the library call it is inside of. */
  datatype Point =
    | AtUser                                             // user code: not started yet, or inside a yield
    | AtIdle                                             // the idle loop
    | InPoll(npds: nat, onIoq: bool, ready: nat)
    | InSleep
    | InWait(cond: Cond)
    | InJoin(target: Thread, cond: Cond)
    | InLock(lock: Mutex)
    | InExit                                             // between the two halves of thread exit
    | Gone                                               // past the last switch

  class Cond {
    var waitQ: seq<Thread>

    constructor ()
      ensures waitQ == []
    {
      waitQ := [];
    }
  }

  class Mutex {
    var owner: Thread?
    var waitQ: seq<Thread>

    constructor ()
      ensures owner == null && waitQ == []
    {
      owner, waitQ := null, [];
    }
  }

  /** The part of a thread that the scheduler rewrites; the booleans are the flag bits INTERRUPT and TIMEDOUT. */
  datatype Control = Control(state: State, at: Point, interrupt: bool, timedOut: bool,
                             term: Cond?, retval: int, stack: Option<Stack>)

  class Thread {
    var control: Control
    var onSleepQ: bool    // the flag bit ON_SLEEPQ
    var due: nat          // wake-up time while sleeping
    var left: Thread?     // children in the timeout heap
    var right: Thread?
    var heapIndex: nat    // position in the timeout heap, counted from 1

    constructor (control: Control)
      ensures this.control == control && !onSleepQ && due == 0
      ensures left == null && right == null && heapIndex == 0
    {
      this.control, onSleepQ, due := control, false, 0;
      left, right, heapIndex := null, null, 0;
    }
  }
}
