# MemoryGoal memory-growth probe, modelled in Dafny

jpf-core's native peer for `gov.nasa.jpf.test.MemoryGoal`
(`src/peers/gov/nasa/jpf/vm/JPF_gov_nasa_jpf_test_MemoryGoal.java`) measures
how much heap the method under test leaves behind. `preCheck` arms a
`Listener` for the target method and registers it with the VM. The
listener sits inactive until an instruction of the target method is executed.
From then on it counts every object the VM creates or releases, with the
heap size the VM reports, until a return instruction of the target method is
executed. `postCheck` deregisters the listener and passes the check when
allocated minus freed bytes is at most the goal's `maxGrowth`.

The project has three modules:

- `ListenerSpec` (`listener_spec.dfy`) holds the listener as a value. It has the
  notifications the VM delivers (`Event`) and the listener's fields
  (`ListenerState`). Each notification is a transition function (`Created`,
  `Released`, `Executed`, dispatched by `Step`), and `Run` folds a whole
  notification sequence. The lemmas say what the fold means: boundary
  exclusion on both sides of the interval, net growth as the sum over the
  interval, and the "first owning return since activation closes the interval"
  rule inside recursive calls.
- `MemoryGoal` (`memory_goal.dfy`) holds the objects the source updates in place.
  `Listener` is a class with the source's five mutable fields, and its three
  handlers are `modifies this` methods. `Listener.Deliver` proves them against
  `Step`, and `DeliverAll` carries that over a whole notification sequence to
  `Run`. `MemoryGoalPeer` has the peer's `listener` field, with
  `PreCheck`/`PostCheck`. `Env` stands for the VM's listener registry as a
  ghost set.
- `Scenarios` (`scenarios.dfy`) runs whole checks through the classes. Five
  fixed runs prove their net growth and verdict from the class contracts
  alone. `CheckInterval` proves the verdict of `postCheck` for every run with
  one activation interval, from `DeliverAll` and `ListenerSpec.Interval`.

Interfaces to the host are parameters:

- The `MethodInfo` that reflection resolves from the `Method` object is a
  parameter of `PreCheck`.
- Method identity is an opaque type that is only compared with `==`.
- The `maxGrowth` field read through `MJIEnv` is an `int` parameter of `PostCheck`.
- An executed instruction is reduced to the method that owns it and whether it
  is a return instruction.
- An object event is reduced to the heap size `ElementInfo.getHeapSize()`
  reports. That size is trusted as given.

## Model

| member | source | states |
|---|---|---|
| `MemoryGoal.Listener.constructor` | src/peers/gov/nasa/jpf/vm/JPF_gov_nasa_jpf_test_MemoryGoal.java:40-50 | a new listener keeps its target method, is inactive, and has all four counters at 0 |
| `MemoryGoal.Listener.ObjectCreated` | src/peers/gov/nasa/jpf/vm/JPF_gov_nasa_jpf_test_MemoryGoal.java:53-58 | while active it adds exactly 1 to allocationCount and size to allocatedBytes; while inactive it changes nothing; active, freedBytes and deallocationCount never change |
| `MemoryGoal.Listener.ObjectReleased` | src/peers/gov/nasa/jpf/vm/JPF_gov_nasa_jpf_test_MemoryGoal.java:61-66 | while active it adds exactly 1 to deallocationCount and size to freedBytes; while inactive it changes nothing; active, allocatedBytes and allocationCount never change |
| `MemoryGoal.Listener.InstructionExecuted` | src/peers/gov/nasa/jpf/vm/JPF_gov_nasa_jpf_test_MemoryGoal.java:69-79 | from inactive it becomes active iff the owner is the target; from active it becomes inactive iff the instruction is a return and the owner is the target; no counter changes |
| `MemoryGoal.Listener.NetAllocatedBytes` | src/peers/gov/nasa/jpf/vm/JPF_gov_nasa_jpf_test_MemoryGoal.java:82-84 | the net growth of the listener's current state, allocated minus freed bytes, which may be negative |
| `MemoryGoal.Listener.Deliver` | src/peers/gov/nasa/jpf/vm/JPF_gov_nasa_jpf_test_MemoryGoal.java:52-79 | each of the three handlers moves the listener's fields exactly as the transition Step does for one notification |
| `MemoryGoal.DeliverAll` | src/peers/gov/nasa/jpf/vm/JPF_gov_nasa_jpf_test_MemoryGoal.java:52-79 | after the VM delivers a whole sequence of notifications, the listener's fields are exactly the fold Run of that sequence from its earlier state |
| `ListenerSpec.Created` | src/peers/gov/nasa/jpf/vm/JPF_gov_nasa_jpf_test_MemoryGoal.java:53-58 | never changes active; a no-op while inactive; while active exactly one more allocation and size more bytes; the freed side is untouched; net grows by size only while active |
| `ListenerSpec.Released` | src/peers/gov/nasa/jpf/vm/JPF_gov_nasa_jpf_test_MemoryGoal.java:61-66 | never changes active; a no-op while inactive; while active exactly one more deallocation and size more freed bytes; the allocated side is untouched; net shrinks by size only while active |
| `ListenerSpec.Executed` | src/peers/gov/nasa/jpf/vm/JPF_gov_nasa_jpf_test_MemoryGoal.java:69-79 | leaves all four counters alone; from inactive, active afterwards iff the owner is the target, return or not; from active, inactive afterwards iff it is a return owned by the target |
| `ListenerSpec.Step` | src/peers/gov/nasa/jpf/vm/JPF_gov_nasa_jpf_test_MemoryGoal.java:52-79 | counters never decrease; only an instruction can flip active, and an instruction changes no counter; inactive and not a target instruction: nothing changes; active and not a target return: stays active |
| `ListenerSpec.Run` | src/peers/gov/nasa/jpf/vm/JPF_gov_nasa_jpf_test_MemoryGoal.java:52-79 | over any notification sequence the four counters are non-decreasing |
| `ListenerSpec.RunAppend` | src/peers/gov/nasa/jpf/vm/JPF_gov_nasa_jpf_test_MemoryGoal.java:52-79 | delivering a and then b leaves the listener as delivering a + b does |
| `ListenerSpec.IdleRun` | src/peers/gov/nasa/jpf/vm/JPF_gov_nasa_jpf_test_MemoryGoal.java:53-73 | an inactive listener that sees no instruction of the target stays exactly as it was, whatever objects are created or released and whatever other methods execute |
| `ListenerSpec.NeverEnteredNetZero` | src/peers/gov/nasa/jpf/vm/JPF_gov_nasa_jpf_test_MemoryGoal.java:41-73 | if the target method never runs, a fresh listener ends unchanged, net growth 0 |
| `ListenerSpec.StaysInactiveIff` | src/peers/gov/nasa/jpf/vm/JPF_gov_nasa_jpf_test_MemoryGoal.java:70-73 | from inactive, the listener is inactive after every prefix of a sequence iff the sequence holds no instruction of the target |
| `ListenerSpec.ActiveRun` | src/peers/gov/nasa/jpf/vm/JPF_gov_nasa_jpf_test_MemoryGoal.java:53-79 | an active listener that sees no return of the target stays active and counts every creation and release of the sequence |
| `ListenerSpec.Interval` | src/peers/gov/nasa/jpf/vm/JPF_gov_nasa_jpf_test_MemoryGoal.java:53-84 | over one activation interval (events before entry, the entry, the body, the first target return, events after exit) exactly the body's object events are counted; net grows by the body's created minus released bytes, and the listener ends inactive |
| `ListenerSpec.InnerReturnCloses` | src/peers/gov/nasa/jpf/vm/JPF_gov_nasa_jpf_test_MemoryGoal.java:70-78 | in a recursive call the inner return closes the interval; objects created or released before the outer call's next instruction are not counted; the next target instruction reopens it |
| `ListenerSpec.LoneReturnOpens` | src/peers/gov/nasa/jpf/vm/JPF_gov_nasa_jpf_test_MemoryGoal.java:70-78 | while inactive a return of the target is not told apart from other target instructions: a lone return opens the interval, and with no later target return everything after it is counted |
| `MemoryGoal.Env.AddListener` | src/peers/gov/nasa/jpf/vm/JPF_gov_nasa_jpf_test_MemoryGoal.java:92 | the listener is added to the VM's registered listeners |
| `MemoryGoal.Env.RemoveListener` | src/peers/gov/nasa/jpf/vm/JPF_gov_nasa_jpf_test_MemoryGoal.java:101 | the listener is removed from the VM's registered listeners |
| `MemoryGoal.MemoryGoalPeer.constructor` | src/peers/gov/nasa/jpf/vm/JPF_gov_nasa_jpf_test_MemoryGoal.java:35 | a new peer holds no listener |
| `MemoryGoal.MemoryGoalPeer.PreCheck` | src/peers/gov/nasa/jpf/vm/JPF_gov_nasa_jpf_test_MemoryGoal.java:88-94 | returns true; the field holds a fresh, inactive, zeroed listener for the given method, and that listener is added to the registered ones |
| `MemoryGoal.MemoryGoalPeer.PostCheck` | src/peers/gov/nasa/jpf/vm/JPF_gov_nasa_jpf_test_MemoryGoal.java:97-106 | needs an armed listener; deregisters it, nulls the field, leaves the listener's counters as they were, and returns whether its net growth is at most maxGrowth |
| `Scenarios.WithinLimit` | src/peers/gov/nasa/jpf/vm/JPF_gov_nasa_jpf_test_MemoryGoal.java:53-106 | entry, creations of 100 and 50 bytes, exit, limit 200: net 150, passes |
| `Scenarios.OverLimit` | src/peers/gov/nasa/jpf/vm/JPF_gov_nasa_jpf_test_MemoryGoal.java:53-106 | entry, creation of 300 bytes, exit, limit 200: net 300, fails |
| `Scenarios.ReleasedInside` | src/peers/gov/nasa/jpf/vm/JPF_gov_nasa_jpf_test_MemoryGoal.java:53-106 | entry, 100 bytes created and released, exit, limit 0: net 0, passes |
| `Scenarios.NeverCalled` | src/peers/gov/nasa/jpf/vm/JPF_gov_nasa_jpf_test_MemoryGoal.java:53-106 | only another method runs and allocates, limit 0: net 0, passes |
| `Scenarios.ReleasedAfterExit` | src/peers/gov/nasa/jpf/vm/JPF_gov_nasa_jpf_test_MemoryGoal.java:53-106 | 500 bytes created inside, released after the exit, limit 0: the release is excluded, net 500, fails |
| `Scenarios.MeasureInterval` | src/peers/gov/nasa/jpf/vm/JPF_gov_nasa_jpf_test_MemoryGoal.java:53-84 | a fresh listener driven through one activation interval ends inactive, and getNetAllocatedBytes gives the body's created minus released bytes |
| `Scenarios.CheckInterval` | src/peers/gov/nasa/jpf/vm/JPF_gov_nasa_jpf_test_MemoryGoal.java:88-106 | preCheck, any run with one activation interval, then postCheck: the check passes iff the bytes created minus released inside the interval are at most maxGrowth |

## Left out

- `MJIEnv` plumbing is not modelled. `JPF_java_lang_reflect_Method.getMethodInfo(env, methodRef)` (line 89) becomes the `MethodInfo` parameter of `PreCheck`. `getLongField(objRef, "maxGrowth")` (line 98) becomes the `maxGrowth` parameter of `PostCheck`. Once those two calls are parameters, `objRef` and `methodRef` are not needed and are dropped. `testContextRef`, `resultRef` and `exRef` are never read by the source and are dropped too.
- `env.addListener`/`env.removeListener` (lines 92, 101) are VM code outside this model. They are modelled as inserting into and removing from a ghost set of registered listeners. Registration cannot fail in the model.
- `ElementInfo.getHeapSize()` (lines 56, 64) is computed by the VM. It is a trusted `nat` on the event.
- `instanceof JVMReturnInstruction` and `Instruction.getMethodInfo()` (lines 71, 75) become the `isReturn` and `owner` fields of an `InstructionExecuted` event.
- The `VM`, `ThreadInfo` and `nextInstruction` parameters of the handlers are never consulted, so they are dropped. The other callbacks that `ListenerAdapter` inherits do nothing for this probe and are not modelled.
- MemoryGoal.Listener.ObjectCreated: the counters are Java `long`s that would wrap after 2^63. The model counts them as unbounded `nat`. Net growth is an unbounded `int`, and so is the `maxGrowth` comparison.
- MemoryGoal.Listener.ObjectReleased: the same unbounded-counter simplification applies.
- Concurrency is not modelled. The probe has one shared `active` flag and no per-thread state, so if two threads run the target method, their instructions interleave in one switch. The model delivers one event sequence in order.
- MemoryGoal.MemoryGoalPeer.PostCheck: calling `postCheck` with no armed listener (before any `preCheck`, or a second time) makes the source dereference `null` (lines 100-105). The model states this as a precondition and does not model the exception.
- The end of the interval follows the code, not a reading of it as "the method's dynamic extent". Only a return instruction of the target closes the interval. If the target is left by an exception, no such return executes, and the listener keeps counting until `postCheck`. `ListenerSpec.ActiveRun` states this.
- In a recursive target, the first inner return closes the interval. It is then reopened by the next instruction of the outer call (`ListenerSpec.InnerReturnCloses`). The model keeps this behaviour and does not add call-depth tracking.
- A target whose first executed instruction is its own return (an empty method, a lone RETURN) opens the interval on that return, because the inactive branch (lines 70-72) does not look at the instruction kind. With no later target return the listener counts everything up to `postCheck`, including the harness's own allocations. The model keeps this (`ListenerSpec.LoneReturnOpens`).
- A second `preCheck` without a `postCheck` is modelled as the source does it. The field is overwritten, and the earlier listener stays registered with the VM.
- The model takes events in the order the VM delivers them. Whether the VM notifies about an object created by an instruction before or after it notifies that the instruction executed is decided in VM code that is not part of this model.
