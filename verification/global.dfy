/** The process-wide channel: `setup_logging` installs it, `get_logger`
    hands it out, and the module-level functions forward to it. The global
    variable is passed in and out explicitly: `None` until set up. */
module Global {
  import opened Wrappers
  import opened Json
  import Levels
  import opened Channel

  const NotConfigured := "Logging n\U{E3}o foi configurado. Chame setup_logging() primeiro."

  /** `setup_logging(...)`: the new value of the global, holding a channel
      built from the arguments (with the same defaults as `LogChannel`). */
  function SetupLogging(logFile: string := "logs/app.log", webhookUrl: Option<string> := None,
                        slackChannel: Option<string> := None, threshold: Levels.Level := Levels.Info)
    : (g: Option<LogChannel>)
    ensures GetLogger(g) == Success(LogChannel(logFile, webhookUrl, slackChannel, threshold))
  {
    Some(LogChannel(logFile, webhookUrl, slackChannel, threshold))
  }

  /** `get_logger()`: the installed channel, or the `RuntimeError` raised
      when none has been set up. */
  function GetLogger(g: Option<LogChannel>): (r: Result<LogChannel, string>)
    ensures r.Failure? <==> g.None?
    ensures r.Failure? ==> r.error == NotConfigured
    ensures r.Success? ==> Some(r.value) == g
  {
    match g
    case None => Failure(NotConfigured)
    case Some(ch) => Success(ch)
  }

  /** Module-level `debug`: `get_logger().debug(...)`. */
  function Debug(g: Option<LogChannel>, timestamp: string, outcome: SendOutcome, message: string,
                 sendToSlack: bool := false, extra: Option<Members> := None): (r: Result<seq<Event>, string>)
    ensures g.None? ==> r == Failure(NotConfigured)
    ensures g.Some? ==> r == Success(Log(g.value, timestamp, outcome, message, Levels.Debug, sendToSlack, extra))
  {
    var ch :- GetLogger(g);
    Success(Channel.Debug(ch, timestamp, outcome, message, sendToSlack, extra))
  }

  /** Module-level `info`: `get_logger().info(...)`. */
  function Info(g: Option<LogChannel>, timestamp: string, outcome: SendOutcome, message: string,
                sendToSlack: bool := false, extra: Option<Members> := None): (r: Result<seq<Event>, string>)
    ensures g.None? ==> r == Failure(NotConfigured)
    ensures g.Some? ==> r == Success(Log(g.value, timestamp, outcome, message, Levels.Info, sendToSlack, extra))
  {
    var ch :- GetLogger(g);
    Success(Channel.Info(ch, timestamp, outcome, message, sendToSlack, extra))
  }

  /** Module-level `warning`: `get_logger().warning(...)`. */
  function Warning(g: Option<LogChannel>, timestamp: string, outcome: SendOutcome, message: string,
                   sendToSlack: bool := true, extra: Option<Members> := None): (r: Result<seq<Event>, string>)
    ensures g.None? ==> r == Failure(NotConfigured)
    ensures g.Some? ==> r == Success(Log(g.value, timestamp, outcome, message, Levels.Warning, sendToSlack, extra))
  {
    var ch :- GetLogger(g);
    Success(Channel.Warning(ch, timestamp, outcome, message, sendToSlack, extra))
  }

  /** Module-level `error`: `get_logger().error(...)`. */
  function Error(g: Option<LogChannel>, timestamp: string, outcome: SendOutcome, message: string,
                 sendToSlack: bool := true, extra: Option<Members> := None): (r: Result<seq<Event>, string>)
    ensures g.None? ==> r == Failure(NotConfigured)
    ensures g.Some? ==> r == Success(Log(g.value, timestamp, outcome, message, Levels.Error, sendToSlack, extra))
  {
    var ch :- GetLogger(g);
    Success(Channel.Error(ch, timestamp, outcome, message, sendToSlack, extra))
  }

  /** Module-level `critical`: `get_logger().critical(...)`. */
  function Critical(g: Option<LogChannel>, timestamp: string, outcome: SendOutcome, message: string,
                    sendToSlack: bool := true, extra: Option<Members> := None): (r: Result<seq<Event>, string>)
    ensures g.None? ==> r == Failure(NotConfigured)
    ensures g.Some? ==> r == Success(Log(g.value, timestamp, outcome, message, Levels.Critical, sendToSlack, extra))
  {
    var ch :- GetLogger(g);
    Success(Channel.Critical(ch, timestamp, outcome, message, sendToSlack, extra))
  }
}
