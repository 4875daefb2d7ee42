/** `LogConfig`: settings read from the process environment once, with
    defaults for the unset variables, and the advisory webhook URL check. */
module Config {
  import opened Wrappers
  import opened Strings

  /** The process environment: variable name to value. */
  type Env = map<string, string>

  const SlackHookPrefix := "https://hooks.slack.com/"

  datatype LogConfig = LogConfig(
    logFile: string,
    logLevel: string,
    slackWebhookUrl: Option<string>,
    slackChannel: string,
    sendWarningsToSlack: bool,
    sendErrorsToSlack: bool)

  /** `os.getenv(key)`. */
  function Getenv(env: Env, key: string): Option<string> {
    if key in env then Some(env[key]) else None
  }

  /** `os.getenv(key, default)`. */
  function GetenvOr(env: Env, key: string, default: string): string {
    Getenv(env, key).GetOr(default)
  }

  /** `os.getenv(key, 'true').lower() == 'true'`: true when the variable is
      unset or spells "true" in any mix of cases, false for every other
      value (including the empty string). */
  function Flag(env: Env, key: string): (b: bool)
    ensures b <==> key !in env
                   || (|env[key]| == 4
                       && forall i :: 0 <= i < 4 ==> env[key][i] == "true"[i] || env[key][i] == "TRUE"[i])
  {
    var v := GetenvOr(env, key, "true");
    LowerEqualsIgnoringCase(v, "true");
    assert forall i :: 0 <= i < 4 ==> UpperChar("true"[i]) == "TRUE"[i];
    Lower(v) == "true"
  }

  /** The class attributes of `LogConfig`, read from `env`. */
  function Load(env: Env): (c: LogConfig)
    ensures c.logFile == (if "LOG_FILE" in env then env["LOG_FILE"] else "logs/app.log")
    ensures c.logLevel == (if "LOG_LEVEL" in env then env["LOG_LEVEL"] else "INFO")
    ensures c.slackWebhookUrl.Some? <==> "SLACK_WEBHOOK_URL" in env
    ensures c.slackWebhookUrl.Some? ==> c.slackWebhookUrl.value == env["SLACK_WEBHOOK_URL"]
    ensures c.slackChannel == (if "SLACK_CHANNEL" in env then env["SLACK_CHANNEL"] else "#logs")
    ensures c.sendWarningsToSlack == Flag(env, "SEND_WARNINGS_TO_SLACK")
    ensures c.sendErrorsToSlack == Flag(env, "SEND_ERRORS_TO_SLACK")
  {
    LogConfig(
      GetenvOr(env, "LOG_FILE", "logs/app.log"),
      GetenvOr(env, "LOG_LEVEL", "INFO"),
      Getenv(env, "SLACK_WEBHOOK_URL"),
      GetenvOr(env, "SLACK_CHANNEL", "#logs"),
      Flag(env, "SEND_WARNINGS_TO_SLACK"),
      Flag(env, "SEND_ERRORS_TO_SLACK"))
  }

  /** With nothing set, every attribute takes its default and no webhook is
      configured. */
  lemma DefaultsWhenUnset()
    ensures Load(map[]) == LogConfig("logs/app.log", "INFO", None, "#logs", true, true)
  {
  }

  /** `LogConfig.validate()`: only a present, non-empty webhook URL that
      does not start with the Slack hook prefix is rejected. */
  function Validate(c: LogConfig): (ok: bool)
    ensures !ok <==> c.slackWebhookUrl.Some? && c.slackWebhookUrl.value != ""
                     && !(SlackHookPrefix <= c.slackWebhookUrl.value)
  {
    !(c.slackWebhookUrl.Some? && |c.slackWebhookUrl.value| > 0
      && !StartsWith(c.slackWebhookUrl.value, SlackHookPrefix))
  }

  /** Validation looks at the webhook URL and nothing else: configurations
      that agree on it are judged alike, and an unset or empty URL passes. */
  lemma ValidateInspectsOnlyUrl(c: LogConfig, d: LogConfig)
    requires c.slackWebhookUrl == d.slackWebhookUrl
    ensures Validate(c) == Validate(d)
    ensures c.slackWebhookUrl.None? || c.slackWebhookUrl == Some("") ==> Validate(c)
  {
  }
}
