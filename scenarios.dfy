/** Whole checks as the test harness runs them: preCheck arms the peer, the
    host delivers the notifications of one run of the method under test to
    the armed listener, and postCheck judges the growth. The five fixed runs
    are proved from the contracts of MemoryGoalPeer and Listener alone;
    CheckInterval proves the verdict for every run with one activation
    interval, through DeliverAll and ListenerSpec.Interval. */
module Scenarios {
  import opened ListenerSpec
  import opened MemoryGoal

  /** Two allocations of 100 and 50 bytes inside the method, limit 200: passes. */
  method WithinLimit(target: MethodInfo) returns (net: int, passed: bool)
    ensures net == 150 && passed
  {
    var env := new Env();
    var peer := new MemoryGoalPeer();
    var armed := peer.PreCheck(env, target);
    var l := peer.listener;
    l.InstructionExecuted(target, false);
    l.ObjectCreated(100);
    l.ObjectCreated(50);
    l.InstructionExecuted(target, true);
    net := l.NetAllocatedBytes();
    passed := peer.PostCheck(env, 200);
    assert l !in env.listeners;
  }

  /** One allocation of 300 bytes inside the method, limit 200: fails. */
  method OverLimit(target: MethodInfo) returns (net: int, passed: bool)
    ensures net == 300 && !passed
  {
    var env := new Env();
    var peer := new MemoryGoalPeer();
    var armed := peer.PreCheck(env, target);
    var l := peer.listener;
    l.InstructionExecuted(target, false);
    l.ObjectCreated(300);
    l.InstructionExecuted(target, true);
    net := l.NetAllocatedBytes();
    passed := peer.PostCheck(env, 200);
  }

  /** An allocation released again inside the method, limit 0: passes. */
  method ReleasedInside(target: MethodInfo) returns (net: int, passed: bool)
    ensures net == 0 && passed
  {
    var env := new Env();
    var peer := new MemoryGoalPeer();
    var armed := peer.PreCheck(env, target);
    var l := peer.listener;
    l.InstructionExecuted(target, false);
    l.ObjectCreated(100);
    l.ObjectReleased(100);
    l.InstructionExecuted(target, true);
    net := l.NetAllocatedBytes();
    passed := peer.PostCheck(env, 0);
  }

  /** The method under test never runs; only another method allocates, limit 0: passes. */
  method NeverCalled(target: MethodInfo, other: MethodInfo) returns (net: int, passed: bool)
    requires other != target
    ensures net == 0 && passed
  {
    var env := new Env();
    var peer := new MemoryGoalPeer();
    var armed := peer.PreCheck(env, target);
    var l := peer.listener;
    l.InstructionExecuted(other, false);
    l.ObjectCreated(64);
    l.InstructionExecuted(other, true);
    net := l.NetAllocatedBytes();
    passed := peer.PostCheck(env, 0);
  }

  /** 500 bytes allocated inside, released only after the method returned,
      limit 0: the release is not counted, so the check fails. */
  method ReleasedAfterExit(target: MethodInfo) returns (net: int, passed: bool)
    ensures net == 500 && !passed
  {
    var env := new Env();
    var peer := new MemoryGoalPeer();
    var armed := peer.PreCheck(env, target);
    var l := peer.listener;
    l.InstructionExecuted(target, false);
    l.ObjectCreated(500);
    l.InstructionExecuted(target, true);
    l.ObjectReleased(500);
    net := l.NetAllocatedBytes();
    passed := peer.PostCheck(env, 0);
  }

  /** Drives a fresh listener through one activation interval (see
      ListenerSpec.Interval) and reports its net growth. */
  method MeasureInterval(l: Listener, pre: seq<Event>, entry: Event, body: seq<Event>, exit: Event, post: seq<Event>)
    requires l.State() == Initial()
    requires NoTargetInstruction(l.methodInfo, pre) && Enters(l.methodInfo, entry)
    requires NoTargetReturn(l.methodInfo, body) && Exits(l.methodInfo, exit)
    requires NoTargetInstruction(l.methodInfo, post)
    modifies l
    ensures !l.active
    ensures l.NetAllocatedBytes() == CreatedBytes(body) - ReleasedBytes(body)
  {
    DeliverAll(l, pre + [entry] + body + [exit] + post);
    Interval(l.methodInfo, Initial(), pre, entry, body, exit, post);
  }

  /** A whole check over any run of the method under test that has one
      activation interval: the verdict is decided by the bytes created minus
      the bytes released inside the interval alone. */
  method CheckInterval(target: MethodInfo, pre: seq<Event>, entry: Event, body: seq<Event>, exit: Event,
                       post: seq<Event>, maxGrowth: int) returns (passed: bool)
    requires NoTargetInstruction(target, pre) && Enters(target, entry)
    requires NoTargetReturn(target, body) && Exits(target, exit)
    requires NoTargetInstruction(target, post)
    ensures passed <==> CreatedBytes(body) - ReleasedBytes(body) <= maxGrowth
  {
    var env := new Env();
    var peer := new MemoryGoalPeer();
    var armed := peer.PreCheck(env, target);
    MeasureInterval(peer.listener, pre, entry, body, exit, post);
    passed := peer.PostCheck(env, maxGrowth);
  }
}
