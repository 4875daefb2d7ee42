# LoggingChannels in Dafny

A model of the logging facade of LoggingChannels. A `LogChannel` writes
leveled records to a log file and the console and, on request, posts them
to a Slack webhook. `LogConfig` reads the settings from the environment.

One call of `LogChannel.log` is modelled as a pure function. Its inputs are
the channel's configuration, the capture time, the outcome of the webhook
request and the call's arguments. It returns the effects the call performs,
in order:

- `LocalWrite(level, text)` is one record handed to the file and console
  handlers.
- `RemoteSend(url, payload, timeout)` is one POST of the payload to the
  webhook.

The properties of the logger are statements about that trace.

Modules, one per concern:

- `Wrappers`: `Option` and `Result`. A failed `Result` stands for a raised
  exception.
- `Strings`: ASCII lower-casing, `startswith`, and the first occurrence of a
  separator with the split it induces.
- `Json`: the extra-data dict as a small JSON datatype and its two
  renderings, both modelled on `json.dumps(..., ensure_ascii=False)`. The
  compact one goes into the local line. The `indent=2` one goes into the
  attachment.
- `Levels`: `LogLevel`, the standard library's numeric levels behind the
  threshold, and the level-named logger methods.
- `Slack`: the payload builder and the colour and marker tables.
- `Channel`: `LogChannel.log`, `_send_to_slack` and the per-level methods.
- `Global`: `setup_logging`, `get_logger` and the module-level functions.
  The global variable is passed in and out explicitly.
- `Config`: `LogConfig` over an environment given as a `map<string, string>`.
- `Scenarios`: worked calls on a channel whose threshold is WARNING and
  whose webhook is configured.

Python default arguments are Dafny default parameters. For example,
`Channel.Warning(ch, t, o, "x")` is `warning("x")`, with `send_to_slack`
true.

Reading a local line back is `Partition`: split at the first
` | Dados: `. It gives back the message and the compact extra data for
every message that neither contains the delimiter nor ends in ` | Dados:`.
The second condition is needed. The delimiter starts with the space it ends
with, so for a message such as `"x | Dados:"` the first occurrence starts
inside the message and the split returns `"x"`
(`Channel.StemEndingExample`; in general
`Channel.StemEndingMessageDoesNotSplitBack`, and both directions in
`Channel.LocalTextSplitsBackExactly`). The code never parses its
lines back, so this is a limit of the line format, not a defect of the
program.

Three facts about the code that the model keeps:

- The extra data is the third field of the attachment, titled
  "Dados Extras" (logger.py:114-119).
- The payload key for the sender's icon is `icon_emoji` (logger.py:93).
- The level gate is the standard library's `isEnabledFor`, which compares
  the numeric levels 10 to 50 set at logger.py:44.

## Model

| member | source | states |
|---|---|---|
| Levels.FromValue | logger.py:9-14 | `LogLevel(s)` yields the member whose value is `s`, and fails exactly when no member has that value |
| Levels.FromValueRoundTrip | logger.py:9-14 | every level is recovered from its value |
| Levels.PassesFollowsSeverityOrder | logger.py:44 | the numeric threshold admits a record iff its level is at least the threshold in the order DEBUG < INFO < WARNING < ERROR < CRITICAL; CRITICAL always passes, DEBUG admits everything |
| Levels.MethodNameEmitsAtLevel | logger.py:140-147 | the logger method looked up as `level.value.lower()` emits at that same level |
| Json.CompactSingleLine | logger.py:143 | the compact rendering of any extra data contains no line break, since line breaks inside strings are escaped |
| Json.PrettyObjectIsMultiLine | logger.py:117 | the `indent=2` rendering of a non-empty dict spans several lines |
| Json.EscapePlain | logger.py:143 | text without quotes, backslashes or control characters is written unchanged (`ensure_ascii=False` keeps non-ASCII characters) |
| Json.CompactOneMember | logger.py:143 | a one-key dict is written `{"k": v}` with the `": "` separator |
| Json.PrettyOneMember | logger.py:117 | a one-key dict at depth d is written with the key on its own line indented 2(d+1) spaces and the closing brace back at depth d |
| Slack.TablesTotalAndInjective | logger.py:71-86 | the colour and marker dicts cover all five levels, so the `get` fallbacks are never used; distinct levels get distinct colours and distinct markers |
| Slack.ChannelOrDefault | logger.py:91 | the destination is the configured channel unless it is unset or empty, in which case it is `#logs` |
| Slack.BuildPayload | logger.py:88-119 | sender `LogBot` with icon `:robot_face:`, exactly one attachment coloured by level; field 1 is the marker and level name over the raw message, field 2 the timestamp; a third "Dados Extras" field with the fenced indented rendering is present iff the extra data is non-empty |
| Slack.PayloadDeterminesLevel | logger.py:96-99 | the attachment's colour, and likewise its first field's title, each determine the record's level |
| Channel.Log | logger.py:128-151 | at most three effects; the trace starts with the record's local write iff its level passes the threshold; the number of POSTs is 1 iff `send_to_slack` and a webhook is configured, else 0 |
| Channel.SendToSlackSendsOnce | logger.py:65-126 | `_send_to_slack` posts exactly once when a webhook is configured and never otherwise, whatever the outcome; the failure record is local only |
| Channel.RemoteGate | logger.py:150-151 | a POST happens iff the caller asked and the webhook URL is non-empty; it carries the record's payload to that URL with the 10-second timeout, and no second POST ever follows |
| Channel.LocalOutput | logger.py:121-147 | the local records of a call are the record's own line when its level passes the threshold, then exactly one ERROR line "Erro ao enviar log para Slack: ..." when the requested POST failed, itself subject to the threshold |
| Channel.SendFailureEndsTrace | logger.py:121-126 | after a failed POST the call still returns, and its trace ends with the POST followed by the local ERROR record when ERROR passes the threshold |
| Channel.RemoteIndependentOfThreshold | logger.py:139-151 | changing the threshold never changes what is posted, so a record suppressed locally is still posted on request |
| Channel.Debug | logger.py:153-155 | `debug` posts iff asked (default false) and a webhook is configured, and writes locally exactly what `log` at DEBUG writes |
| Channel.Info | logger.py:157-159 | `info` posts iff asked (default false) and a webhook is configured, and writes locally exactly what `log` at INFO writes |
| Channel.Warning | logger.py:161-163 | `warning` posts iff the flag (default true) is set and a webhook is configured, and writes locally exactly what `log` at WARNING writes |
| Channel.Error | logger.py:165-167 | `error` posts iff the flag (default true) is set and a webhook is configured, and writes locally exactly what `log` at ERROR writes |
| Channel.Critical | logger.py:169-171 | `critical` posts iff the flag (default true) is set and a webhook is configured, and writes locally exactly what `log` at CRITICAL writes |
| Channel.ConvenienceDefaults | logger.py:153-171 | with the flag omitted, `debug` and `info` never post, while `warning`, `error` and `critical` post exactly when a webhook is configured |
| Channel.LocalTextSplitsBack | logger.py:142-145 | split at the first delimiter, a local line gives back the message and the compact extra data, or the message alone when the extra data is None or empty; this holds for messages that neither contain the delimiter nor end in its stem |
| Channel.StemEndingMessageDoesNotSplitBack | logger.py:142-145 | with non-empty extra data, any message ending in the delimiter's stem (the delimiter without its final space) does not split back to itself, because the delimiter already starts inside the message |
| Channel.StemEndingExample | logger.py:142-145 | the message `"x | Dados:"` with extra data `{"code": "E001"}` does not contain the delimiter, yet its line splits back to `"x"` |
| Channel.LocalTextSplitsBackExactly | logger.py:142-145 | with non-empty extra data, the line splits back to the message iff the message neither contains the delimiter nor ends in its stem |
| Channel.LocalTextSingleLine | logger.py:142-145 | the local line is a single line whenever the message is |
| Global.SetupLogging | logger.py:177-195 | after setup, `get_logger` returns the channel built from the arguments |
| Global.GetLogger | logger.py:197-209 | fails with the "not configured" RuntimeError iff no channel has been set up, and otherwise returns the installed one |
| Global.Debug | logger.py:212-214 | fails iff the global is unset; otherwise yields the trace of `log` at DEBUG with the caller's flag (default false) and extra data |
| Global.Info | logger.py:216-218 | fails iff the global is unset; otherwise yields the trace of `log` at INFO with the caller's flag (default false) and extra data |
| Global.Warning | logger.py:220-222 | fails iff the global is unset; otherwise yields the trace of `log` at WARNING with the caller's flag (default true) and extra data |
| Global.Error | logger.py:224-226 | fails iff the global is unset; otherwise yields the trace of `log` at ERROR with the caller's flag (default true) and extra data |
| Global.Critical | logger.py:228-230 | fails iff the global is unset; otherwise yields the trace of `log` at CRITICAL with the caller's flag (default true) and extra data |
| Config.Flag | config.py:16-17 | a flag is true iff its variable is unset or spells "true" in any mix of upper and lower case; any other value, the empty string included, gives false |
| Config.Load | config.py:8-17 | each attribute is its variable's value when set, else its default; the webhook URL is present iff the variable is set |
| Config.DefaultsWhenUnset | config.py:8-17 | with nothing set: `logs/app.log`, `INFO`, no webhook URL, `#logs`, and both flags true |
| Config.Validate | config.py:20-31 | rejects iff the URL is present, non-empty and does not start with `https://hooks.slack.com/`; an unset or empty URL passes |
| Config.ValidateInspectsOnlyUrl | config.py:19-31 | two configurations with the same URL validate alike, whatever their other attributes |
| Scenarios.ThresholdScenario | logger.py:128-151 | with threshold WARNING, a DEBUG record not asked to be posted leaves no effect, and an ERROR record posted on request is written once locally and posted once with title "❌ ERROR" |
| Scenarios.ServerErrorScenario | logger.py:121-126 | a webhook answering 500 leaves the record's line plus one ERROR line about the failure, and a single POST |
| Scenarios.ExtraDataScenario | logger.py:142-151 | `error("failure", extra_data={"code": "E001"})` writes the message, the delimiter and the compact rendering as its one local line, and posts once |
| Scenarios.ExtraDataAttachment | logger.py:113-119 | the post for that call has a third field "Dados Extras" holding the fenced indented rendering |

## Left out

- Directory creation (`os.makedirs`) and the handler and formatter setup are left out. They are filesystem and standard-library plumbing. One `LocalWrite` stands for the same record reaching both the file and the console handler. The `asctime` line layout is left out.
- The logger named `LogChannel` is shared by every instance, and each new instance clears its handlers. Propagation of records to ancestor loggers is also left out. Only one channel is modelled.
- The `requests.post` call is network I/O. Its outcome is the `SendOutcome` parameter: a final status outside 400-599 (`requests` follows redirects, and `raise_for_status` raises only for 400 to 599), or a `RequestException` covering network errors, timeouts and statuses 400 to 599. The 10-second timeout is recorded as a constant in each `RemoteSend`. Exceptions other than `RequestException` are not modelled.
- The compact rendering is never parsed back. That the text after the delimiter decodes to the same dict is not proved: no JSON decoder is modelled. What is proved is that the split returns exactly the compact rendering, together with its layout and single-line lemmas.
- `datetime.now()` is left out. The already formatted timestamp is a parameter.
- Parts of `json.dumps` are not modelled: floating-point numbers, non-string dict keys, and the `TypeError` for values that cannot be serialised. Dicts are key/value sequences in insertion order.
- Failures of the local handlers, such as a full disk, are not modelled. The standard `FileHandler` and `StreamHandler` catch them in `emit` and report them on stderr through `handleError`, and the call returns normally, so a failed write leaves the rest of the trace unchanged.
- The warning that `LogConfig.validate` prints, and the whole of `LogConfig.print_config`, are console output only.
- `SEND_WARNINGS_TO_SLACK` and `SEND_ERRORS_TO_SLACK` are parsed but never consulted by the logger, so they have no effect on dispatch.
- Config.Flag: `str.lower` is modelled as ASCII lower-casing. For the comparison with "true" this gives the same verdict as Unicode lower-casing, because no non-ASCII character lower-cases to one of the letters t, r, u, e.
- The demo script `example_usage.py` is not part of this model. Its conversion of `LOG_LEVEL` to a level is covered by `Levels.FromValue`.
- Thread safety of the shared handlers is left out.
