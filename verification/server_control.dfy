/** The backend's on/off switch (Backend/app/main.py): the globals
    `system_running`, `system_running_event` and `watcher_task`, the
    `/system/on` and `/system/off` handlers, the application's startup and
    shutdown, and the error mapping of the two analyze routes.

    The watcher task is abstracted to a generation number (how many tasks
    were created before it) and a status. Cancelling and awaiting are
    instantaneous: `system_on` awaits the cancelled task, so that watcher has
    finished when it returns; `system_off` only requests the cancellation. */
module ServerControl {
  import opened Text

  datatype TaskStatus = Running | Cancelling | Finished

  datatype Task = Task(generation: nat, status: TaskStatus)

  datatype ServerState = ServerState(
    systemRunning: bool,
    eventSet: bool,
    watcher: Option<Task>,
    tasksCreated: nat)

  const Init := ServerState(false, false, None, 0)

  /** The JSON body of a switch response: `status` and an optional `message`. */
  datatype Reply = Reply(status: string, message: Option<string>)

  const AlreadyOn := "Ya estaba encendido"
  const AlreadyOff := "El sistema ya estaba apagado"
  const SwitchedOff := "Sistema apagado correctamente"

  /** `watcher_task and not watcher_task.done()`. */
  predicate Active(w: Option<Task>)
  {
    w.Some? && w.value.status != Finished
  }

  /** `asyncio.create_task(watch_containers(...))`: a fresh task. */
  function Launch(s: ServerState): (r: ServerState)
    ensures r.watcher == Some(Task(s.tasksCreated, Running)) && r.tasksCreated == s.tasksCreated + 1
    ensures r.systemRunning == s.systemRunning && r.eventSet == s.eventSet
  {
    s.(watcher := Some(Task(s.tasksCreated, Running)), tasksCreated := s.tasksCreated + 1)
  }

  /** Cancels the current task and waits for it to end. */
  function CancelAndAwait(w: Option<Task>): (r: Option<Task>)
    ensures !Active(r)
    ensures w.Some? <==> r.Some?
    ensures w.Some? ==> r.value.generation == w.value.generation
  {
    if Active(w) then Some(w.value.(status := Finished)) else w
  }

  /** `system_on`. */
  function SwitchOn(s: ServerState): (r: (ServerState, Reply))
    ensures s.systemRunning ==> r == (s, Reply("ON", Some(AlreadyOn)))
    ensures !s.systemRunning ==>
      && r.1 == Reply("ON", None)
      && r.0.systemRunning && r.0.eventSet
      && r.0.watcher == Some(Task(s.tasksCreated, Running))
      && r.0.tasksCreated == s.tasksCreated + 1
  {
    if s.systemRunning then (s, Reply("ON", Some(AlreadyOn)))
    else
      var switched := s.(systemRunning := true, eventSet := true);
      var cancelled := switched.(watcher := CancelAndAwait(switched.watcher));
      (Launch(cancelled), Reply("ON", None))
  }

  /** `system_off`: clears the flag and the event and only requests the
      cancellation of the watcher. */
  function SwitchOff(s: ServerState): (r: (ServerState, Reply))
    ensures !s.systemRunning ==> r == (s, Reply("OFF", Some(AlreadyOff)))
    ensures s.systemRunning ==>
      && r.1 == Reply("OFF", Some(SwitchedOff))
      && !r.0.systemRunning && !r.0.eventSet
      && r.0.tasksCreated == s.tasksCreated
      && (Active(s.watcher) ==> r.0.watcher == Some(s.watcher.value.(status := Cancelling)))
      && (!Active(s.watcher) ==> r.0.watcher == s.watcher)
  {
    if !s.systemRunning then (s, Reply("OFF", Some(AlreadyOff)))
    else
      var switched := s.(systemRunning := false, eventSet := false);
      var w := if Active(s.watcher) then Some(s.watcher.value.(status := Cancelling)) else s.watcher;
      (switched.(watcher := w), Reply("OFF", Some(SwitchedOff)))
  }

  /** What can happen to the switch: the application starts (a watcher is
      launched whatever the flag), a switch request, the application shuts
      down (the watcher is cancelled and awaited), or the watcher task ends
      by itself (it returned, it crashed, or a requested cancellation took
      effect). */
  datatype Command = Startup | On | Off | Shutdown | WatcherEnded

  function Step(s: ServerState, c: Command): (r: ServerState)
    ensures c == On ==> r.systemRunning
    ensures c == Off ==> !r.systemRunning
    ensures c != On && c != Off ==> r.systemRunning == s.systemRunning && r.eventSet == s.eventSet
    ensures r.tasksCreated == s.tasksCreated + (if c == Startup || (c == On && !s.systemRunning) then 1 else 0)
  {
    match c
    case Startup => Launch(s)
    case On => SwitchOn(s).0
    case Off => SwitchOff(s).0
    case Shutdown => s.(watcher := CancelAndAwait(s.watcher))
    case WatcherEnded =>
      if s.watcher.Some? then s.(watcher := Some(s.watcher.value.(status := Finished))) else s
  }

  function Run(s: ServerState, cs: seq<Command>): (r: ServerState)
    ensures s.tasksCreated <= r.tasksCreated <= s.tasksCreated + |cs|
    ensures On !in cs && Off !in cs ==> r.systemRunning == s.systemRunning
    decreases |cs|
  {
    if |cs| == 0 then s else Step(Run(s, cs[..|cs| - 1]), cs[|cs| - 1])
  }

  /** The event is set exactly when the flag is; the current task is the
      newest one; a task still being cancelled means the system is off. */
  predicate Inv(s: ServerState)
  {
    && s.eventSet == s.systemRunning
    && (s.watcher.Some? ==> s.watcher.value.generation < s.tasksCreated)
    && (s.watcher.Some? && s.watcher.value.status == Cancelling ==> !s.systemRunning)
  }

  lemma StepInv(s: ServerState, c: Command)
    requires Inv(s)
    ensures Inv(Step(s, c))
  {
  }

  /** From the initial state, whatever the requests, the event mirrors the
      flag. */
  lemma {:induction false} RunInv(cs: seq<Command>)
    ensures Inv(Run(Init, cs))
    ensures Run(Init, cs).eventSet == Run(Init, cs).systemRunning
    decreases |cs|
  {
    if |cs| > 0 {
      RunInv(cs[..|cs| - 1]);
      StepInv(Run(Init, cs[..|cs| - 1]), cs[|cs| - 1]);
    }
  }

  /** Both switches are idempotent: a second identical request changes
      nothing and says so. */
  lemma SwitchesIdempotent(s: ServerState)
    ensures SwitchOn(SwitchOn(s).0) == (SwitchOn(s).0, Reply("ON", Some(AlreadyOn)))
    ensures SwitchOff(SwitchOff(s).0) == (SwitchOff(s).0, Reply("OFF", Some(AlreadyOff)))
  {
  }

  /** Off then on: the old watcher has been cancelled and a new generation
      runs. */
  lemma OffThenOnRestartsWatcher(s: ServerState)
    requires Inv(s) && s.systemRunning
    ensures var t := SwitchOn(SwitchOff(s).0).0;
      t.systemRunning && t.watcher == Some(Task(s.tasksCreated, Running))
      && (s.watcher.Some? ==> t.watcher.value.generation > s.watcher.value.generation)
  {
  }

  /** The HTTP outcome of an analyze route. */
  datatype HttpResponse = Prediction(lbl: string, confidence: real) | ServerError(statusCode: nat, detail: string)

  /** `analyze_level` and `analyze_tap`: reading the upload and calling the
      classifier either give a label and confidence, or raise; any exception
      becomes a 500 whose detail is the exception's text. */
  function Analyze(outcome: Result<(string, real)>): (r: HttpResponse)
    ensures r.ServerError? <==> outcome.Err?
    ensures outcome.Err? ==> r.statusCode == 500 && r.detail == outcome.error
    ensures outcome.Ok? ==> r.lbl == outcome.value.0 && r.confidence == outcome.value.1
  {
    match outcome
    case Ok((lbl, confidence)) => Prediction(lbl, confidence)
    case Err(e) => ServerError(500, e)
  }

  /** The three globals of the server process. */
  class Server {
    var systemRunning: bool
    var eventSet: bool
    var watcher: Option<Task>
    var tasksCreated: nat

    function State(): ServerState
      reads this
    {
      ServerState(systemRunning, eventSet, watcher, tasksCreated)
    }

    ghost predicate Valid()
      reads this
    {
      Inv(State())
    }

    constructor ()
      ensures Valid() && State() == Init
    {
      systemRunning, eventSet, watcher, tasksCreated := false, false, None, 0;
    }

    /** `is_system_running`. */
    function IsSystemRunning(): (r: bool)
      reads this
      requires Valid()
      ensures r == systemRunning && r == eventSet
    {
      systemRunning
    }

    /** The startup half of `lifespan`: launches a watcher. */
    method Startup()
      requires Valid()
      modifies this
      ensures Valid() && State() == Step(old(State()), Command.Startup)
      ensures watcher == Some(Task(old(tasksCreated), Running))
    {
      watcher := Some(Task(tasksCreated, Running));
      tasksCreated := tasksCreated + 1;
    }

    /** The shutdown half of `lifespan`: cancels and awaits a live watcher. */
    method Shutdown()
      requires Valid()
      modifies this
      ensures Valid() && State() == Step(old(State()), Command.Shutdown)
      ensures !Active(watcher)
    {
      if watcher.Some? && watcher.value.status != Finished {
        watcher := Some(watcher.value.(status := Finished));
      }
    }

    /** The current watcher task ends by itself. */
    method WatcherEnded()
      requires Valid()
      modifies this
      ensures Valid() && State() == Step(old(State()), Command.WatcherEnded)
    {
      if watcher.Some? {
        watcher := Some(watcher.value.(status := Finished));
      }
    }

    method SystemOn() returns (reply: Reply)
      requires Valid()
      modifies this
      ensures Valid() && (State(), reply) == SwitchOn(old(State()))
    {
      if systemRunning {
        return Reply("ON", Some(AlreadyOn));
      }
      systemRunning := true;
      eventSet := true;
      if watcher.Some? && watcher.value.status != Finished {
        watcher := Some(watcher.value.(status := Finished));
      }
      watcher := Some(Task(tasksCreated, Running));
      tasksCreated := tasksCreated + 1;
      reply := Reply("ON", None);
    }

    method SystemOff() returns (reply: Reply)
      requires Valid()
      modifies this
      ensures Valid() && (State(), reply) == SwitchOff(old(State()))
    {
      if !systemRunning {
        return Reply("OFF", Some(AlreadyOff));
      }
      systemRunning := false;
      eventSet := false;
      if watcher.Some? && watcher.value.status != Finished {
        watcher := Some(watcher.value.(status := Cancelling));
      }
      reply := Reply("OFF", Some(SwitchedOff));
    }
  }
}
