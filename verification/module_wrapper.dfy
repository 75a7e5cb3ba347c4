/**
 The module wrapper's hot-swap slot. A replacement module is loaded off the
 audio thread and parked in a one-element queue (`QueuedIn`); the audio
 callback swaps it with the active module and hands the old one back
 (`QueuedOut`); the communication thread then destroys the old module and
 empties the queue (`None`).

 Every action is one atomic step on a `Wrapper` value. The dynamic loader is
 a `Loader` value describing what loading the library produced, the loaded
 module's own processing is a function parameter, and threads, atomics,
 sleeping and the IPC client are left out.
 */
module ModuleWrapper {

  /** `k_module_version`: the only maker version the wrapper accepts. */
  const ModuleVersion: nat := 1

  /** A loaded module instance, by identity. */
  datatype Module = Module(id: nat)

  /** A `unique_ptr<ModuleHolder>`: empty or owning one module. */
  datatype Slot = Empty | Holds(held: Module)

  datatype QueueState = None | QueuedIn | QueuedOut

  /** The flag the audio thread and `deactivate` use to drive the communication thread. */
  datatype ThreadState = Idle | Run | Join

  /** Where the communication thread is: waiting for the first callback, serving, exited, or joined. */
  datatype CommPhase = NotStarted | Waiting | Serving | Exited | Joined

  /**
   What loading the module library produced: no library handle, no maker
   symbol in it, or a maker of some version whose `create_module`, given the
   sampling rate, returns a module or null.
   */
  datatype Loader = NoHandle | NoMaker | Maker(version: nat, create: real -> Slot)

  datatype Wrapper = Wrapper(
    samplingRate: real,
    active: Slot,
    queue: Slot,
    queueState: QueueState,
    thread: ThreadState,
    comm: CommPhase,
    port: int)

  /**
   The constructor: no module, an empty queue in state `None`, the flag at
   `Idle`, the port at 0, and no communication thread yet.
   */
  function New(samplingRate: real): (w: Wrapper)
    ensures Inv(w) && Owned(w) == multiset{}
    ensures w.samplingRate == samplingRate && w.queueState == None
    ensures w.thread == Idle && w.comm == NotStarted && w.port == 0
  {
    Wrapper(samplingRate, Empty, Empty, None, Idle, NotStarted, 0)
  }

  /** The queue is null in state `None` and holds a module in state `QueuedIn`. */
  predicate Inv(w: Wrapper) {
    && (w.queueState == None ==> w.queue == Empty)
    && (w.queueState == QueuedIn ==> w.queue.Holds?)
  }

  function SlotModules(s: Slot): multiset<Module> {
    if s.Holds? then multiset{s.held} else multiset{}
  }

  /** The modules the wrapper owns: the active one and the queued one. */
  function Owned(w: Wrapper): multiset<Module> {
    SlotModules(w.active) + SlotModules(w.queue)
  }

  // ---------------------------------------------------------------------------
  // reload_module
  // ---------------------------------------------------------------------------

  /** Whether `reload_module` gets a module from `loader`: a handle, a maker of the right version, a non-null module. */
  predicate Loads(loader: Loader, samplingRate: real) {
    loader.Maker? && loader.version == ModuleVersion && loader.create(samplingRate).Holds?
  }

  datatype Reloaded = Reloaded(ok: bool, wrapper: Wrapper)

  /**
   `reload_module`: refused while a swap is in progress; otherwise the library
   is loaded and, if a module comes out of it, that module is queued.
   */
  function ReloadModule(w: Wrapper, loader: Loader): (r: Reloaded)
    ensures r.ok <==> w.queueState == None && Loads(loader, w.samplingRate)
    ensures !r.ok ==> r.wrapper == w
    ensures r.ok ==> r.wrapper == w.(queue := loader.create(w.samplingRate), queueState := QueuedIn)
  {
    if w.queueState != None then Reloaded(false, w)
    else match loader
      case NoHandle => Reloaded(false, w)
      case NoMaker => Reloaded(false, w)
      case Maker(version, create) =>
        if version != ModuleVersion then Reloaded(false, w)
        else
          var created := create(w.samplingRate);
          if created.Empty? then Reloaded(false, w)
          else Reloaded(true, w.(queue := created, queueState := QueuedIn))
  }

  // ---------------------------------------------------------------------------
  // process
  // ---------------------------------------------------------------------------

  datatype Processed = Processed(wrapper: Wrapper, output: seq<real>)

  /**
   `process`: a queued module is swapped in first (the old active module goes
   into the queue, for the communication thread to destroy); the active
   module then processes `count` samples, or they are copied through when
   there is none; finally the control port is latched and the thread told to run.
   */
  function Process(w: Wrapper, input: seq<real>, count: nat, portValue: int,
                   run: (Module, seq<real>) -> seq<real>): (r: Processed)
    requires count <= |input|
    ensures w.queueState == QueuedIn ==>
              && r.wrapper.active == w.queue && r.wrapper.queue == w.active
              && r.wrapper.queueState == QueuedOut
    ensures w.queueState != QueuedIn ==>
              && r.wrapper.active == w.active && r.wrapper.queue == w.queue
              && r.wrapper.queueState == w.queueState
    ensures r.wrapper.active.Empty? ==> r.output == input[..count]
    ensures r.wrapper.active.Holds? ==> r.output == run(r.wrapper.active.held, input[..count])
    ensures r.wrapper.thread == Run && r.wrapper.port == portValue
    ensures r.wrapper.comm == w.comm && r.wrapper.samplingRate == w.samplingRate
  {
    var swapped :=
      if w.queueState == QueuedIn then w.(active := w.queue, queue := w.active, queueState := QueuedOut)
      else w;
    var output :=
      match swapped.active
      case Holds(m) => run(m, input[..count])
      case Empty => input[..count];
    Processed(swapped.(port := portValue, thread := Run), output)
  }

  // ---------------------------------------------------------------------------
  // The communication thread, activate and deactivate
  // ---------------------------------------------------------------------------

  /** The retire step of the communication loop: a module handed back is destroyed and the slot freed. */
  function Retire(w: Wrapper): (r: Wrapper)
    ensures w.queueState == QueuedOut ==> r.queue == Empty && r.queueState == None
    ensures w.queueState != QueuedOut ==> r == w
    ensures r.active == w.active && r.thread == w.thread && r.comm == w.comm
  {
    if w.queueState == QueuedOut then w.(queue := Empty, queueState := None) else w
  }

  /**
   One atomic step of `communication_thread`. While the flag is `Idle` it
   keeps waiting; once it is not, the thread goes on only if the flag is
   `Run` and the IPC connection to the latched port succeeds. While serving
   it retires a handed-back module on every pass and stops when the flag
   leaves `Run`.
   */
  function CommStep(w: Wrapper, connects: bool): (r: Wrapper)
    ensures w.comm == Waiting && w.thread == Idle ==> r == w
    ensures w.comm == Waiting && w.thread != Idle ==>
              r == w.(comm := if w.thread == Run && connects then Serving else Exited)
    ensures w.comm == Serving ==> r == if w.thread == Run then Retire(w) else w.(comm := Exited)
    ensures w.comm !in {Waiting, Serving} ==> r == w
  {
    match w.comm
    case Waiting =>
      if w.thread == Idle then w
      else if w.thread != Run then w.(comm := Exited)
      else if connects then w.(comm := Serving)
      else w.(comm := Exited)
    case Serving =>
      if w.thread != Run then w.(comm := Exited)
      else Retire(w)
    case _ => w
  }

  /**
   How a call to `activate` or `deactivate` ends: it returns, it never
   returns because a join waits on a thread that cannot finish, or `join`
   throws because there is no thread to join.
   */
  datatype Outcome = Returned | Blocked | Threw

  /** The outcome of the call and the wrapper's state when it returns, blocks or throws. */
  datatype Call = Call(outcome: Outcome, wrapper: Wrapper)

  /**
   `activate`: the flag is reset to `Idle`, then a new thread is moved into
   the `jthread` handle, which first joins any thread still attached to it.
   A serving thread sees the flag leave `Run` and exits, and an exited one is
   already done, so the join returns and the new thread starts waiting. A
   thread still waiting for the first callback keeps waiting on `Idle`, so
   the join never returns.
   */
  function Activate(w: Wrapper): (r: Call)
    ensures r.outcome == Blocked <==> w.comm == Waiting
    ensures r.outcome != Threw
    ensures r.wrapper.thread == Idle
    ensures r.wrapper.comm == Waiting
    ensures r.wrapper.active == w.active && r.wrapper.queue == w.queue && r.wrapper.queueState == w.queueState
  {
    var flagged := w.(thread := Idle);
    if w.comm == Waiting then Call(Blocked, flagged)
    else Call(Returned, flagged.(comm := Waiting))
  }

  /**
   `deactivate`: the flag is set to `Join` and the thread joined. A waiting or
   serving thread reads `Join` on its next pass and exits, so the join returns.
   With no thread attached (never activated, or already joined) `join` throws,
   after the flag has been stored.
   */
  function Deactivate(w: Wrapper): (r: Call)
    ensures r.outcome == Threw <==> w.comm in {NotStarted, Joined}
    ensures r.outcome != Blocked
    ensures r.wrapper.thread == Join
    ensures r.outcome == Returned ==> r.wrapper.comm == Joined
    ensures r.outcome == Threw ==> r.wrapper.comm == w.comm
    ensures r.wrapper.active == w.active && r.wrapper.queue == w.queue && r.wrapper.queueState == w.queueState
  {
    var flagged := w.(thread := Join);
    if w.comm in {NotStarted, Joined} then Call(Threw, flagged)
    else Call(Returned, flagged.(comm := Joined))
  }

  /** Once the flag is `Join`, a thread that has not yet exited does so on its next step, without touching the slot. */
  lemma {:induction false} JoinStopsThread(w: Wrapper, connects: bool)
    requires w.thread == Join && w.comm in {Waiting, Serving}
    ensures CommStep(w, connects) == w.(comm := Exited)
  {
  }

  /** The communication thread's steps, one per element of `connects`. */
  function CommSteps(w: Wrapper, connects: seq<bool>): Wrapper
    decreases |connects|
  {
    if |connects| == 0 then w else CommSteps(CommStep(w, connects[0]), connects[1..])
  }

  /**
   Why `activate` blocks on a waiting thread: with the flag back at `Idle`,
   no number of its steps ever gets it out of the waiting loop.
   */
  lemma {:induction false} IdleKeepsThreadWaiting(w: Wrapper, connects: seq<bool>)
    requires w.comm == Waiting && w.thread == Idle
    ensures CommSteps(w, connects) == w
    decreases |connects|
  {
    if |connects| > 0 {
      IdleKeepsThreadWaiting(CommStep(w, connects[0]), connects[1..]);
    }
  }

  /**
   For a thread that is running, `activate` returns exactly when that thread,
   seeing the flag it stores, leaves its loop on its next step.
   */
  lemma {:induction false} ActivateReturnsIffOldThreadExits(w: Wrapper, connects: bool)
    requires w.comm in {Waiting, Serving}
    ensures Activate(w).outcome == Returned <==> CommStep(w.(thread := Idle), connects).comm == Exited
  {
  }

  // ---------------------------------------------------------------------------
  // Slot invariant and ownership
  // ---------------------------------------------------------------------------

  /** Every action keeps the queue consistent with its state. */
  lemma {:induction false} ReloadKeepsInv(w: Wrapper, loader: Loader)
    requires Inv(w)
    ensures Inv(ReloadModule(w, loader).wrapper)
  {
  }

  lemma {:induction false} ProcessKeepsInv(w: Wrapper, input: seq<real>, count: nat, portValue: int, run: (Module, seq<real>) -> seq<real>)
    requires Inv(w) && count <= |input|
    ensures Inv(Process(w, input, count, portValue, run).wrapper)
  {
  }

  lemma {:induction false} CommStepKeepsInv(w: Wrapper, connects: bool)
    requires Inv(w)
    ensures Inv(CommStep(w, connects))
  {
  }

  /**
   The audio callback never destroys a module: it only exchanges the active
   and queued modules, so the wrapper owns the same modules afterwards.
   */
  lemma {:induction false} ProcessKeepsModules(w: Wrapper, input: seq<real>, count: nat, portValue: int,
                            run: (Module, seq<real>) -> seq<real>)
    requires count <= |input|
    ensures Owned(Process(w, input, count, portValue, run).wrapper) == Owned(w)
  {
  }

  /** A successful reload adds exactly the new module; a failed one changes nothing. */
  lemma {:induction false} ReloadAddsModule(w: Wrapper, loader: Loader)
    requires Inv(w)
    ensures var r := ReloadModule(w, loader);
            && (r.ok ==> Owned(r.wrapper) == Owned(w) + multiset{loader.create(w.samplingRate).held})
            && (!r.ok ==> Owned(r.wrapper) == Owned(w))
  {
  }

  /**
   Destruction happens only in the retire step, and then only of the module
   handed back by the audio thread, never of the active one.
   */
  lemma {:induction false} CommStepDestroysOnlyHandedBack(w: Wrapper, connects: bool)
    ensures var r := CommStep(w, connects);
            && r.active == w.active
            && (Owned(r) == Owned(w) || (w.queueState == QueuedOut && Owned(r) == Owned(w) - SlotModules(w.queue)))
  {
  }

  /** What a swap hands back for destruction is the module that was active before it. */
  lemma {:induction false} SwapHandsBackOldActive(w: Wrapper, input: seq<real>, count: nat, portValue: int,
                               run: (Module, seq<real>) -> seq<real>)
    requires Inv(w) && count <= |input| && w.queueState == QueuedIn
    ensures var r := Process(w, input, count, portValue, run).wrapper;
            r.queueState == QueuedOut && r.queue == w.active && r.active.Holds? && r.active == w.queue
  {
  }

  // ---------------------------------------------------------------------------
  // Runs of events
  // ---------------------------------------------------------------------------

  /** The actions that can happen to the wrapper, in some interleaving. */
  datatype Event =
    | Reload(loader: Loader)
    | AudioCallback(input: seq<real>, count: nat, portValue: int)
    | CommTick(connects: bool)
    | ActivateCall
    | DeactivateCall

  /** Whether the event can happen in state `w` and its call returns: calls that block or throw end the run. */
  predicate Enabled(w: Wrapper, e: Event) {
    match e
    case AudioCallback(input, count, _) => count <= |input|
    case ActivateCall => Activate(w).outcome == Returned
    case DeactivateCall => Deactivate(w).outcome == Returned
    case _ => true
  }

  function Step(w: Wrapper, e: Event, run: (Module, seq<real>) -> seq<real>): Wrapper
    requires Enabled(w, e)
  {
    match e
    case Reload(loader) => ReloadModule(w, loader).wrapper
    case AudioCallback(input, count, portValue) => Process(w, input, count, portValue, run).wrapper
    case CommTick(connects) => CommStep(w, connects)
    case ActivateCall => Activate(w).wrapper
    case DeactivateCall => Deactivate(w).wrapper
  }

  /** The state after `events`, or nothing if one of them is not enabled when it happens. */
  function RunEvents(w: Wrapper, events: seq<Event>, run: (Module, seq<real>) -> seq<real>): (r: (bool, Wrapper))
    decreases |events|
  {
    if |events| == 0 then (true, w)
    else if !Enabled(w, events[0]) then (false, w)
    else RunEvents(Step(w, events[0], run), events[1..], run)
  }

  lemma {:induction false} StepKeepsInv(w: Wrapper, e: Event, run: (Module, seq<real>) -> seq<real>)
    requires Inv(w) && Enabled(w, e)
    ensures Inv(Step(w, e, run))
  {
    match e
    case Reload(loader) => ReloadKeepsInv(w, loader);
    case AudioCallback(input, count, portValue) => ProcessKeepsInv(w, input, count, portValue, run);
    case CommTick(connects) => CommStepKeepsInv(w, connects);
    case ActivateCall =>
    case DeactivateCall =>
  }

  /** From construction, whatever interleaving of actions happens, the slot invariant holds. */
  lemma {:induction false} InvAlways(w: Wrapper, events: seq<Event>, run: (Module, seq<real>) -> seq<real>)
    requires Inv(w)
    ensures Inv(RunEvents(w, events, run).1)
    decreases |events|
  {
    if |events| > 0 && Enabled(w, events[0]) {
      StepKeepsInv(w, events[0], run);
      InvAlways(Step(w, events[0], run), events[1..], run);
    }
  }

  /** Runs without reloads or communication-thread steps never lose a module. */
  predicate AudioSideOnly(events: seq<Event>) {
    forall i :: 0 <= i < |events| ==> !events[i].Reload? && !events[i].CommTick?
  }

  lemma {:induction false} AudioSideKeepsModules(w: Wrapper, events: seq<Event>, run: (Module, seq<real>) -> seq<real>)
    requires AudioSideOnly(events)
    ensures Owned(RunEvents(w, events, run).1) == Owned(w)
    decreases |events|
  {
    if |events| > 0 && Enabled(w, events[0]) {
      var e := events[0];
      if e.AudioCallback? {
        ProcessKeepsModules(w, e.input, e.count, e.portValue, run);
      }
      assert AudioSideOnly(events[1..]) by {
        forall i | 0 <= i < |events[1..]| ensures !events[1..][i].Reload? && !events[1..][i].CommTick? {
          assert events[1..][i] == events[i + 1];
        }
      }
      AudioSideKeepsModules(Step(w, e, run), events[1..], run);
    }
  }

  /** Runs in which the wrapper is never activated again. */
  predicate NoRestart(events: seq<Event>) {
    forall i :: 0 <= i < |events| ==> !events[i].ActivateCall?
  }

  /**
   Only the communication thread frees a handed-back module. Once that thread
   has exited (its IPC connection failed, or it was joined), the old module
   stays in the queue and every reload is refused until the next `activate`.
   */
  lemma {:induction false} HandedBackStaysWithoutThread(w: Wrapper, events: seq<Event>, loader: Loader,
                                                        run: (Module, seq<real>) -> seq<real>)
    requires w.comm in {Exited, Joined} && w.queueState == QueuedOut && NoRestart(events)
    ensures var r := RunEvents(w, events, run).1;
            && r.queueState == QueuedOut && r.queue == w.queue
            && !ReloadModule(r, loader).ok
    decreases |events|
  {
    if |events| > 0 && Enabled(w, events[0]) {
      var next := Step(w, events[0], run);
      assert next.comm in {Exited, Joined} && next.queueState == QueuedOut && next.queue == w.queue;
      assert NoRestart(events[1..]) by {
        forall i | 0 <= i < |events[1..]| ensures !events[1..][i].ActivateCall? {
          assert events[1..][i] == events[i + 1];
        }
      }
      HandedBackStaysWithoutThread(next, events[1..], loader, run);
    }
  }
}
