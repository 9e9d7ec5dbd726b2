/** The native peer of MemoryGoal and its Listener, as objects updated in
    place. Listener.Deliver proves each notification handler against the
    transition Step of module ListenerSpec, and DeliverAll carries that over
    a whole notification sequence to Run, so what the lemmas there say about
    event sequences holds of a Listener that the host drives with those
    events. */
module MemoryGoal {
  import opened ListenerSpec

  /** The probe the peer registers with the host: a switch that is on while
      the target method runs, and four counters that grow only while it is
      on. The counters are Java `long`s in the source; they are unbounded
      here. */
  class Listener {
    const methodInfo: MethodInfo
    var active: bool
    var allocatedBytes: nat
    var freedBytes: nat
    var allocationCount: nat
    var deallocationCount: nat

    /** The fields as a ListenerState value. */
    function State(): ListenerState
      reads this
    {
      ListenerState(active, allocatedBytes, freedBytes, allocationCount, deallocationCount)
    }

    constructor (methodInfo: MethodInfo)
      ensures this.methodInfo == methodInfo
      ensures !active
      ensures allocatedBytes == 0 && freedBytes == 0 && allocationCount == 0 && deallocationCount == 0
      ensures State() == Initial()
    {
      this.methodInfo := methodInfo;
      active := false;
      allocatedBytes, freedBytes := 0, 0;
      allocationCount, deallocationCount := 0, 0;
    }

    /** objectCreated; `size` is the heap size the host reports for the object. */
    method ObjectCreated(size: nat)
      modifies this
      ensures old(active) ==> allocationCount == old(allocationCount) + 1 && allocatedBytes == old(allocatedBytes) + size
      ensures !old(active) ==> allocationCount == old(allocationCount) && allocatedBytes == old(allocatedBytes)
      ensures active == old(active) && freedBytes == old(freedBytes) && deallocationCount == old(deallocationCount)
    {
      if active {
        allocationCount := allocationCount + 1;
        allocatedBytes := allocatedBytes + size;
      }
    }

    /** objectReleased; `size` is the heap size the host reports for the object. */
    method ObjectReleased(size: nat)
      modifies this
      ensures old(active) ==> deallocationCount == old(deallocationCount) + 1 && freedBytes == old(freedBytes) + size
      ensures !old(active) ==> deallocationCount == old(deallocationCount) && freedBytes == old(freedBytes)
      ensures active == old(active) && allocatedBytes == old(allocatedBytes) && allocationCount == old(allocationCount)
    {
      if active {
        deallocationCount := deallocationCount + 1;
        freedBytes := freedBytes + size;
      }
    }

    /** instructionExecuted; `owner` is the method of the executed
        instruction and `isReturn` whether it is a return instruction. */
    method InstructionExecuted(owner: MethodInfo, isReturn: bool)
      modifies this
      ensures !old(active) ==> (active <==> owner == methodInfo)
      ensures old(active) ==> (!active <==> isReturn && owner == methodInfo)
      ensures allocatedBytes == old(allocatedBytes) && freedBytes == old(freedBytes)
      ensures allocationCount == old(allocationCount) && deallocationCount == old(deallocationCount)
    {
      if !active {
        if owner == methodInfo {
          active := true;
        }
      } else {
        if isReturn && owner == methodInfo {
          active := false;
        }
      }
    }

    /** getNetAllocatedBytes. */
    function NetAllocatedBytes(): (r: int)
      reads this
      ensures r == Net(State())
    {
      allocatedBytes - freedBytes
    }

    /** How the host hands one notification to this listener. */
    method Deliver(e: Event)
      modifies this
      ensures State() == Step(methodInfo, old(State()), e)
    {
      match e
      case InstructionExecuted(owner, isReturn) => InstructionExecuted(owner, isReturn);
      case ObjectCreated(size) => ObjectCreated(size);
      case ObjectReleased(size) => ObjectReleased(size);
    }
  }

  /** The host VM notifying `l` of every event of `es`, in order. */
  method DeliverAll(l: Listener, es: seq<Event>)
    modifies l
    ensures l.State() == Run(l.methodInfo, old(l.State()), es)
  {
    ghost var s0 := l.State();
    var i := 0;
    while i < |es|
      invariant 0 <= i <= |es|
      invariant l.State() == Run(l.methodInfo, s0, es[..i])
    {
      ghost var before := l.State();
      l.Deliver(es[i]);
      assert l.State() == Run(l.methodInfo, before, [es[i]]) by {
        assert [es[i]][1..] == [];
      }
      RunAppend(l.methodInfo, s0, es[..i], [es[i]]);
      assert es[..i] + [es[i]] == es[..i + 1];
      i := i + 1;
    }
    assert es[..i] == es;
  }

  /** The host VM's side of listener registration: the set of listeners it
      currently notifies. */
  class Env {
    ghost var listeners: set<Listener>

    constructor ()
      ensures listeners == {}
    {
      listeners := {};
    }

    method AddListener(l: Listener)
      modifies this
      ensures listeners == old(listeners) + {l}
    {
      listeners := listeners + {l};
    }

    method RemoveListener(l: Listener)
      modifies this
      ensures listeners == old(listeners) - {l}
    {
      listeners := listeners - {l};
    }
  }

  /** The native peer: holds the listener of the check in progress. */
  class MemoryGoalPeer {
    var listener: Listener?

    constructor ()
      ensures listener == null
    {
      listener := null;
    }

    /** preCheck: arms a fresh listener for `methodInfo`, the method under
        test, and registers it. A listener armed by an earlier preCheck is
        replaced in the field but stays registered with the host. */
    method PreCheck(env: Env, methodInfo: MethodInfo) returns (r: bool)
      modifies this, env
      ensures r
      ensures listener != null && fresh(listener)
      ensures listener.methodInfo == methodInfo && listener.State() == Initial()
      ensures env.listeners == old(env.listeners) + {listener}
    {
      listener := new Listener(methodInfo);
      env.AddListener(listener);
      r := true;
    }

    /** postCheck: deregisters the armed listener, disarms the peer and
        reports whether the net growth is within `maxGrowth`. */
    method PostCheck(env: Env, maxGrowth: int) returns (r: bool)
      requires listener != null
      modifies this, env
      ensures listener == null
      ensures env.listeners == old(env.listeners) - {old(listener)}
      ensures old(listener).State() == old(listener.State())
      ensures r <==> old(listener.NetAllocatedBytes()) <= maxGrowth
    {
      var currentListener := listener;
      env.RemoveListener(currentListener);
      listener := null;
      r := currentListener.NetAllocatedBytes() <= maxGrowth;
    }
  }
}
