/** The reaction to print lifecycle events (`on_event`) and to a settings save
    (`on_settings_save`), over an abstract view of the collaborators: whether the inferencer
    and the communication channel run, the inferencer's flags, counters of the calls that
    have an effect outside the plugin, and the messages sent to the browser. */
module Lifecycle {

  /** The names of the host events the handler compares against. */
  const HandledNames: set<string> :=
    {"PrintStarted", "PrintResumed", "PrintPaused", "PrintCancelled", "PrintDone", "PrintFailed",
     "FilamentChange", "ToolChange"}

  /** The name of an event the handler ignores. */
  type UnhandledName = n: string | n !in HandledNames witness ""

  /** The host events the handler distinguishes; every other event is `Other`. */
  datatype Event =
    | PrintStarted | PrintResumed | PrintPaused | PrintCancelled | PrintDone | PrintFailed
    | FilamentChange | ToolChange | Other(name: UnhandledName)

  /** The host's name of an event (`Events.X`). */
  function NameOf(e: Event): (n: string)
    ensures n in HandledNames <==> !e.Other?
  {
    match e
    case PrintStarted => "PrintStarted"
    case PrintResumed => "PrintResumed"
    case PrintPaused => "PrintPaused"
    case PrintCancelled => "PrintCancelled"
    case PrintDone => "PrintDone"
    case PrintFailed => "PrintFailed"
    case FilamentChange => "FilamentChange"
    case ToolChange => "ToolChange"
    case Other(name) => name
  }

  /** The event a name stands for: the comparisons `event == Events.X` of `on_event`. Each
      name is sent to the event of that name, so no two names share a branch. */
  function EventOf(name: string): (e: Event)
    ensures name in HandledNames <==> !e.Other?
    ensures NameOf(e) == name
  {
    if name == "PrintStarted" then PrintStarted
    else if name == "PrintResumed" then PrintResumed
    else if name == "PrintPaused" then PrintPaused
    else if name == "PrintCancelled" then PrintCancelled
    else if name == "PrintDone" then PrintDone
    else if name == "PrintFailed" then PrintFailed
    else if name == "FilamentChange" then FilamentChange
    else if name == "ToolChange" then ToolChange
    else Other(name)
  }

  /** Plugin messages to the browser. */
  datatype Message = ResetPlot | OnSave

  /** `triggered` and `warningNotification` belong to the inferencer: the handler reads
      them and never sets them. `tickets`, `restarts`, `shutoffs` and `cooldowns` count the
      calls `new_ticket`, `restart`, `shutoff_event` and `begin_cooldown`. */
  datatype Controller = Controller(
    inferencerRunning: bool,
    commRunning: bool,
    triggered: bool,
    warningNotification: bool,
    tickets: nat,
    restarts: nat,
    shutoffs: nat,
    cooldowns: nat,
    messages: seq<Message>,
    filamentChangeTime: real,
    toolChangeTime: real)

  /** The events after which printing stops, for a while or for good. */
  predicate Halting(e: Event) {
    e == PrintPaused || e == PrintCancelled || e == PrintDone || e == PrintFailed
  }

  /** The events that end the job. */
  predicate Ending(e: Event) {
    e == PrintCancelled || e == PrintDone || e == PrintFailed
  }

  /** The events that start or stop the two services. */
  predicate ServiceEvent(e: Event) {
    e == PrintStarted || e == PrintResumed || Halting(e)
  }

  /** `on_event(e)` at time `now`. */
  function Step(c: Controller, e: Event, now: real): (r: Controller)
    ensures r.triggered == c.triggered && r.warningNotification == c.warningNotification
    ensures r.cooldowns == c.cooldowns
    ensures r.tickets == c.tickets + (if e == PrintStarted then 1 else 0)
    ensures r.restarts == c.restarts + (if e == PrintResumed && c.triggered then 1 else 0)
    ensures r.shutoffs == c.shutoffs + (if Halting(e) && c.triggered then 1 else 0)
    ensures r.messages == c.messages + (if e == PrintStarted || Ending(e) then [ResetPlot] else [])
    ensures ServiceEvent(e) ==>
      r.inferencerRunning == (e == PrintStarted || e == PrintResumed) && r.commRunning == (e == PrintPaused)
    ensures !ServiceEvent(e) ==> r.inferencerRunning == c.inferencerRunning && r.commRunning == c.commRunning
    ensures r.filamentChangeTime == if e == FilamentChange then now else c.filamentChangeTime
    ensures r.toolChangeTime == if e == ToolChange then now else c.toolChangeTime
  {
    if e == PrintStarted then
      c.(inferencerRunning := true, commRunning := false, tickets := c.tickets + 1,
         messages := c.messages + [ResetPlot])
    else if e == PrintResumed then
      c.(restarts := if c.triggered then c.restarts + 1 else c.restarts,
         inferencerRunning := true, commRunning := false)
    else if Halting(e) then
      var stopped := c.(shutoffs := if c.triggered then c.shutoffs + 1 else c.shutoffs,
                        inferencerRunning := false);
      if e == PrintPaused then stopped.(commRunning := true)
      else stopped.(commRunning := false, messages := c.messages + [ResetPlot])
    else if e == FilamentChange then c.(filamentChangeTime := now)
    else if e == ToolChange then c.(toolChangeTime := now)
    else c
  }

  /** `on_settings_save`: a cooldown begins only while a warning notification is active;
      the browser is always told that the settings were saved. */
  function SettingsSaved(c: Controller): (r: Controller)
    ensures r.cooldowns == c.cooldowns + (if c.warningNotification then 1 else 0)
    ensures r.messages == c.messages + [OnSave]
    ensures r.(cooldowns := c.cooldowns, messages := c.messages) == c
  {
    c.(cooldowns := if c.warningNotification then c.cooldowns + 1 else c.cooldowns,
       messages := c.messages + [OnSave])
  }

  /** Naming an event and reading the name back gives the event again. */
  lemma EventNames(e: Event)
    ensures EventOf(NameOf(e)) == e
  {
  }

  /** The inferencer and the communication channel never run together after a service
      event, and an event that is not one keeps them as they were. */
  lemma ServicesExclusive(c: Controller, e: Event, now: real)
    ensures ServiceEvent(e) ==> !(Step(c, e, now).inferencerRunning && Step(c, e, now).commRunning)
    ensures !(c.inferencerRunning && c.commRunning) ==>
      !(Step(c, e, now).inferencerRunning && Step(c, e, now).commRunning)
  {
  }

  /** A filament or tool change records its own timestamp and changes nothing else. */
  lemma ChangeEventsTouchOnlyTheirTimestamp(c: Controller, now: real)
    ensures Step(c, FilamentChange, now) == c.(filamentChangeTime := now)
    ensures Step(c, ToolChange, now) == c.(toolChangeTime := now)
  {
  }

  /** Start, pause with the inferencer triggered, resume: one ticket, one shutoff, exactly
      one restart, the inferencer running again and the channel stopped. `Step` keeps
      `triggered`, so this takes the collaborators' calls to leave that flag as it was. */
  lemma StartPauseResume(c: Controller, t1: real, t2: real, t3: real)
    requires c.triggered
    ensures var started := Step(c, PrintStarted, t1);
      started.inferencerRunning && !started.commRunning &&
      started.tickets == c.tickets + 1 && started.messages == c.messages + [ResetPlot]
    ensures var paused := Step(Step(c, PrintStarted, t1), PrintPaused, t2);
      !paused.inferencerRunning && paused.commRunning && paused.shutoffs == c.shutoffs + 1
    ensures var resumed := Step(Step(Step(c, PrintStarted, t1), PrintPaused, t2), PrintResumed, t3);
      resumed.inferencerRunning && !resumed.commRunning &&
      resumed.restarts == c.restarts + 1 && resumed.tickets == c.tickets + 1 &&
      resumed.messages == c.messages + [ResetPlot]
  {
  }
}
