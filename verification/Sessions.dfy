/** The runtime session: a pausable engine that drives a candle source through the event processor. */
module Sessions {
  import opened Market
  import opened TradingStep
  import opened Ledger
  import opened SignalStep
  import opened SignalServices
  import opened EventProcessors

  datatype SessionState = NotStarted | Running | Paused | Stopped | Ended

  function SessionTransitions(state: SessionState): set<SessionState> {
    match state
    case NotStarted => {Running}
    case Running => {Paused, Stopped, Ended}
    case Paused => {Running, Stopped, Ended}
    case Stopped => {Running, Ended}
    case Ended => {Running}
  }

  datatype EngineConfig = EngineConfig(maximumCandles: Option<int>, autoStopOnCompletion: bool)
  {
    predicate Valid() { maximumCandles.Some? ==> maximumCandles.value > 0 }

    predicate Exhausted(processed: nat) { maximumCandles.Some? && processed >= maximumCandles.value }
  }

  // ---------------------------------------------------------------- the session as a function of its commands

  /** The engine's state; cursor is how far the source's iterator has advanced. */
  datatype Session = Session(state: SessionState, cursor: nat, history: seq<Candle>, processed: nat, core: Core)

  /** A transition the table does not allow raises and changes nothing. */
  function Move(s: Session, target: SessionState): Session {
    if target in SessionTransitions(s.state) then s.(state := target) else s
  }

  function Finish(config: EngineConfig, s: Session): Session {
    if config.autoStopOnCompletion then Move(s, Stopped) else s
  }

  predicate Advances(config: EngineConfig, source: seq<Candle>, s: Session) {
    s.state == Running && !config.Exhausted(s.processed) && s.cursor < |source|
  }

  function Advance(env: Env, source: seq<Candle>, s: Session): Session
    requires s.cursor < |source| && s.core.OpenIdInRange()
  {
    var history := s.history + [source[s.cursor]];
    Session(s.state, s.cursor + 1, history, s.processed + 1, Step(env, s.core, source[s.cursor], history))
  }

  /** The scheduler's loop: step until a step declines. */
  function Drive(env: Env, config: EngineConfig, source: seq<Candle>, s: Session): (r: Session)
    requires s.core.OpenIdInRange()
    ensures r.core.OpenIdInRange()
    decreases |source| - s.cursor
  {
    if Advances(config, source, s) then Drive(env, config, source, Advance(env, source, s))
    else if s.state == Running then Finish(config, s)
    else s
  }

  function RunEngine(env: Env, config: EngineConfig, source: seq<Candle>, s: Session): (r: Session)
    requires s.core.OpenIdInRange()
    ensures r.core.OpenIdInRange()
  {
    match s.state
    case NotStarted => Drive(env, config, source, s.(state := Running))
    case Paused => Drive(env, config, source, s.(state := Running))
    case Running => Drive(env, config, source, s)
    case _ => s
  }

  datatype Command = RunCommand | Start | Pause | Resume | Stop | Replay | EndSession

  function Perform(env: Env, config: EngineConfig, source: seq<Candle>, s: Session, command: Command): (r: Session)
    requires s.core.OpenIdInRange()
    ensures r.core.OpenIdInRange()
  {
    match command
    case RunCommand => RunEngine(env, config, source, s)
    case Start => Move(s, Running)
    case Pause => Move(s, Paused)
    case Resume => Move(s, Running)
    case Stop => Move(s, Stopped)
    case Replay => Move(s, Running)
    case EndSession => Move(s, Ended)
  }

  function InitialSession(env: Env): Session { Session(NotStarted, 0, [], 0, Initial(env)) }

  function After(env: Env, config: EngineConfig, source: seq<Candle>, commands: seq<Command>): (r: Session)
    ensures r.core.OpenIdInRange()
  {
    if commands == [] then InitialSession(env)
    else
      var n := |commands| - 1;
      Perform(env, config, source, After(env, config, source, commands[..n]), commands[n])
  }

  // ---------------------------------------------------------------- which commands are heard when

  /** From where each state can be entered: running from everywhere else, paused from running, stopped from running
      and paused, ended once started and not ended yet; nothing returns to a session that has not started. */
  predicate Enterable(from: SessionState, target: SessionState) {
    match target
    case NotStarted => false
    case Running => from != Running
    case Paused => from == Running
    case Stopped => from == Running || from == Paused
    case Ended => from != NotStarted && from != Ended
  }

  lemma TransitionsAre(from: SessionState, target: SessionState)
    ensures target in SessionTransitions(from) <==> Enterable(from, target)
  {
  }

  /** What a command leaves behind: a pause is heard only while running, a stop while running or paused, an end once
      started, and start, resume and replay always lead to running; none of them touches the candles, which only a run
      processes, and a run does nothing once stopped or ended. */
  lemma CommandsAreHeard(env: Env, config: EngineConfig, source: seq<Candle>, s: Session, command: Command)
    requires s.core.OpenIdInRange()
    ensures var r := Perform(env, config, source, s, command);
            match command
            case RunCommand => s.state in {Stopped, Ended} ==> r == s
            case Start => r == s.(state := Running)
            case Resume => r == s.(state := Running)
            case Replay => r == s.(state := Running)
            case Pause => r == if s.state == Running then s.(state := Paused) else s
            case Stop => r == if s.state in {Running, Paused} then s.(state := Stopped) else s
            case EndSession => r == if s.state in {Running, Paused, Stopped} then s.(state := Ended) else s
  {
    hide Drive;
  }

  /** A session that is paused stays as it is until it is told to run: whatever else is commanded, no candle is
      processed. */
  lemma {:induction false} PausedProcessesNothing(
      env: Env, config: EngineConfig, source: seq<Candle>, commands: seq<Command>, more: seq<Command>)
    requires RunCommand !in more
    ensures var before, after := After(env, config, source, commands), After(env, config, source, commands + more);
            after.(state := before.state) == before
  {
    if more == [] {
      assert commands + more == commands;
    } else {
      var n := |more| - 1;
      PausedProcessesNothing(env, config, source, commands, more[..n]);
      assert (commands + more)[..|commands| + n] == commands + more[..n];
      assert more[n] in more;
      var s := After(env, config, source, commands + more[..n]);
      assert After(env, config, source, commands + more) == Perform(env, config, source, s, more[n]);
      hide After;
      CommandsAreHeard(env, config, source, s, more[n]);
      hide Perform;
    }
  }

  // ---------------------------------------------------------------- every schedule refines one run

  /** The session has processed exactly a prefix of the source, each candle once, as one uninterrupted run would. */
  predicate RefinesRun(env: Env, config: EngineConfig, source: seq<Candle>, s: Session) {
    && s.cursor <= |source|
    && s.history == source[..s.cursor]
    && s.processed == |s.history|
    && (config.maximumCandles.Some? ==> s.processed <= config.maximumCandles.value)
    && s.core == Run(env, s.history)
  }

  lemma {:induction false} DriveRefines(env: Env, config: EngineConfig, source: seq<Candle>, s: Session)
    requires RefinesRun(env, config, source, s)
    ensures var r := Drive(env, config, source, s);
            && RefinesRun(env, config, source, r)
            && (if s.state == Running then Completed(config, source, r) else r == s)
    decreases |source| - s.cursor
  {
    hide Run, Step;
    if Advances(config, source, s) {
      AdvanceRefines(env, config, source, s);
      DriveRefines(env, config, source, Advance(env, source, s));
    }
  }

  lemma AdvanceRefines(env: Env, config: EngineConfig, source: seq<Candle>, s: Session)
    requires RefinesRun(env, config, source, s) && Advances(config, source, s)
    ensures RefinesRun(env, config, source, Advance(env, source, s))
  {
    hide Step;
    var next := Advance(env, source, s);
    assert next.history == source[..s.cursor + 1];
    assert next.history[..s.cursor] == s.history;
  }

  /** What a run that was allowed to run leaves behind: the whole source or the maximum, and the session stopped
      exactly when the configuration says so. */
  predicate Completed(config: EngineConfig, source: seq<Candle>, s: Session) {
    && (config.Exhausted(s.processed) || s.cursor == |source|)
    && s.state == (if config.autoStopOnCompletion then Stopped else Running)
  }

  /** Any schedule of commands, allowed or refused, leaves the engine where one uninterrupted run over a prefix
      of the source would be. */
  lemma {:induction false} EveryScheduleRefinesOneRun(
      env: Env, config: EngineConfig, source: seq<Candle>, commands: seq<Command>)
    requires config.Valid()
    ensures RefinesRun(env, config, source, After(env, config, source, commands))
  {
    if commands == [] {
      NothingProcessed(env, config, source);
    } else {
      var n := |commands| - 1;
      EveryScheduleRefinesOneRun(env, config, source, commands[..n]);
      var s := After(env, config, source, commands[..n]);
      hide After, RefinesRun, Run;
      if commands[n] == RunCommand {
        RunRefines(env, config, source, s);
      } else {
        CommandsAreHeard(env, config, source, s, commands[n]);
        hide Perform;
        StateIsFree(env, config, source, s, Perform(env, config, source, s, commands[n]).state);
      }
      assert After(env, config, source, commands) == Perform(env, config, source, s, commands[n]) by {
        AfterNext(env, config, source, commands);
      }
    }
  }

  lemma AfterNext(env: Env, config: EngineConfig, source: seq<Candle>, commands: seq<Command>)
    requires commands != []
    ensures var n := |commands| - 1;
            After(env, config, source, commands)
            == Perform(env, config, source, After(env, config, source, commands[..n]), commands[n])
  {
  }

  lemma NothingProcessed(env: Env, config: EngineConfig, source: seq<Candle>)
    requires config.Valid()
    ensures RefinesRun(env, config, source, InitialSession(env))
  {
  }

  /** What a session has processed does not depend on its state. */
  lemma StateIsFree(env: Env, config: EngineConfig, source: seq<Candle>, s: Session, state: SessionState)
    requires RefinesRun(env, config, source, s)
    ensures RefinesRun(env, config, source, s.(state := state))
  {
  }

  /** A run from any state but stopped or ended completes the source; from those two it does nothing. */
  lemma RunRefines(env: Env, config: EngineConfig, source: seq<Candle>, s: Session)
    requires RefinesRun(env, config, source, s)
    ensures var r := RunEngine(env, config, source, s);
            && RefinesRun(env, config, source, r)
            && if s.state in {Stopped, Ended} then r == s else Completed(config, source, r)
  {
    hide Run, Drive;
    if s.state !in {Stopped, Ended} { DriveRefines(env, config, source, s.(state := Running)); }
  }

  // ---------------------------------------------------------------- the objects

  class SessionController {
    var state: SessionState

    constructor ()
      ensures state == NotStarted
    {
      state := NotStarted;
    }

    /** False is the invalid-transition error. */
    method Transition(target: SessionState) returns (moved: bool)
      modifies this
      ensures moved <==> target in SessionTransitions(old(state))
      ensures state == if moved then target else old(state)
    {
      if target !in SessionTransitions(state) { return false; }
      state := target;
      moved := true;
    }
  }

  class RuntimeEngine {
    const config: EngineConfig
    const source: seq<Candle>
    const processor: EventProcessor
    const session: SessionController
    var history: seq<Candle>
    var cursor: nat
    var processed: nat

    constructor (env: Env, config: EngineConfig, signals: SignalConfig, source: seq<Candle>)
      requires config.Valid()
      ensures this.config == config && this.source == source && processor.env == env
      ensures Valid() && View() == InitialSession(env)
    {
      this.config, this.source := config, source;
      processor := new EventProcessor(env, signals);
      session := new SessionController();
      history, cursor, processed := [], 0, 0;
    }

    ghost function Objects(): set<object> { {this, session} + processor.Objects() }

    ghost function View(): Session
      reads Objects()
    {
      Session(session.state, cursor, history, processed, processor.View())
    }

    ghost predicate Valid()
      reads Objects()
    {
      && config.Valid() && processor.Valid()
      && processor.bus.health.processedCandles == processed
      && RefinesRun(processor.env, config, source, View())
    }

    /** One step of the scheduler's loop: false when the session should go no further. */
    method Step() returns (more: bool)
      requires Valid()
      modifies Objects()
      ensures Valid()
      ensures more <==> Advances(config, source, old(View()))
      ensures View() == if more then Advance(processor.env, source, old(View()))
                        else if old(View()).state == Running then Finish(config, old(View())) else old(View())
    {
      hide EventProcessor.Valid, Run, Advance;
      if session.state != Running { return false; }
      if config.maximumCandles.Some? && processed >= config.maximumCandles.value {
        MaybeAutoStop();
        return false;
      }
      if cursor >= |source| {
        MaybeAutoStop();
        return false;
      }
      AdvanceOne();
      more := true;
    }

    method AdvanceOne()
      requires Valid() && Advances(config, source, View())
      modifies Objects()
      ensures Valid()
      ensures View() == Advance(processor.env, source, old(View()))
    {
      AdvanceRefines(processor.env, config, source, View());
      hide EventProcessor.Valid, EventProcessor.View, RefinesRun, Advance;
      ProcessNext();
    }

    /** Takes the next candle from the source and processes it with the history that now ends in it. */
    method ProcessNext()
      requires processor.Valid() && cursor < |source| && processor.bus.health.processedCandles == processed
      modifies Objects()
      ensures processor.Valid() && processor.bus.health.processedCandles == processed
      ensures View() == Advance(processor.env, source, old(View()))
    {
      hide EventProcessor.Valid, EventProcessor.View, TradingStep.Step;
      var candle := source[cursor];
      cursor := cursor + 1;
      history := history + [candle];
      processor.ProcessCandle(candle, history);
      RecordProcessed();
      processed := processed + 1;
    }

    method RecordProcessed()
      requires processor.Valid()
      modifies processor.bus.health`processedCandles
      ensures processor.Valid() && processor.View() == old(processor.View())
      ensures processor.bus.health.processedCandles == old(processor.bus.health.processedCandles) + 1
    {
      hide Balanced, SignalService.Valid;
      processor.bus.health.RecordCandleProcessed();
    }

    method MaybeAutoStop()
      requires session.state == Running
      modifies session
      ensures session.state == if config.autoStopOnCompletion then Stopped else Running
    {
      if config.autoStopOnCompletion {
        var _ := session.Transition(Stopped);
      }
    }

    /** Start or resume, then step until a step declines; nothing at all once stopped or ended. */
    method RunAll()
      requires Valid()
      modifies Objects()
      ensures Valid()
      ensures View() == RunEngine(processor.env, config, source, old(View()))
    {
      hide EventProcessor.Valid, Run, Drive;
      if session.state == NotStarted || session.state == Paused {
        var _ := Change(Running);
      } else if session.state == Stopped || session.state == Ended {
        return;
      }
      DriveSteps();
    }

    /** The synchronous scheduler: call the step until it declines. */
    method DriveSteps()
      requires Valid()
      modifies Objects()
      ensures Valid()
      ensures View() == Drive(processor.env, config, source, old(View()))
    {
      hide EventProcessor.Valid, EventProcessor.View, TradingStep.Step, Run;
      ghost var started := View();
      var more := Step();
      while more
        invariant Valid()
        invariant Drive(processor.env, config, source, started)
                  == if more then Drive(processor.env, config, source, View()) else View()
        decreases |source| - cursor, more
      {
        more := Step();
      }
    }

    /** Start, pause, resume, stop, replay and end are all one checked transition. */
    method Change(target: SessionState) returns (moved: bool)
      requires Valid()
      modifies session
      ensures Valid()
      ensures moved <==> target in SessionTransitions(old(session.state))
      ensures View() == Move(old(View()), target)
    {
      hide Balanced, Run, SignalService.Valid;
      moved := session.Transition(target);
    }
  }
}
