/** `LogChannel`: one call of `log` is a pure function of the channel's
    configuration, the capture time, the outcome of the webhook request and
    the call's arguments, returning the effects it performs in order. A
    `LocalWrite` is one record handed to the file and console handlers; a
    `RemoteSend` is one POST of a payload to the webhook. */
module Channel {
  import opened Wrappers
  import opened Strings
  import opened Json
  import Levels
  import opened Slack

  /** Constructor arguments of `LogChannel`, with their defaults. The
      threshold is the level the shared logger is set to. */
  datatype LogChannel = LogChannel(
    logFile: string := "logs/app.log",
    webhookUrl: Option<string> := None,
    slackChannel: Option<string> := None,
    threshold: Levels.Level := Levels.Info)

  /** What the webhook request came to: a final status outside 400-599
      (redirects are followed), or a `RequestException` (network error,
      timeout, or a 400-599 status raised by `raise_for_status`) described
      by `reason`. */
  datatype SendOutcome = Delivered | Failed(reason: string)

  datatype Event =
    | LocalWrite(level: Levels.Level, text: string)
    | RemoteSend(url: string, payload: Payload, timeoutSeconds: nat)

  const SendTimeoutSeconds: nat := 10
  const Delimiter := " | Dados: "
  const SendFailurePrefix := "Erro ao enviar log para Slack: "

  /** The message handed to the local handlers: the extra data, when there
      is any, follows the message after the delimiter in compact form. */
  function LocalText(message: string, extra: Option<Members>): string {
    if HasExtra(extra) then message + Delimiter + Compact(Object(extra.value)) else message
  }

  /** Emitting `text` through the level-named logger method: the shared
      logger drops records below its level. */
  function Emit(ch: LogChannel, level: Levels.Level, text: string): seq<Event> {
    if Levels.Passes(level, ch.threshold) then [LocalWrite(level, text)] else []
  }

  /** `self.slack_webhook_url` is truthy: present and not empty. */
  predicate WebhookConfigured(ch: LogChannel) {
    ch.webhookUrl.Some? && |ch.webhookUrl.value| > 0
  }

  /** `_send_to_slack`: nothing without a webhook; otherwise one POST, and
      on failure one local ERROR record that does not go back to the
      webhook. */
  function SendToSlack(ch: LogChannel, timestamp: string, outcome: SendOutcome,
                       message: string, level: Levels.Level, extra: Option<Members>): seq<Event> {
    if !WebhookConfigured(ch) then []
    else
      [RemoteSend(ch.webhookUrl.value, BuildPayload(ch.slackChannel, message, level, extra, timestamp), SendTimeoutSeconds)]
      + match outcome
        case Delivered => []
        case Failed(reason) => Emit(ch, Levels.Error, SendFailurePrefix + reason)
  }

  /** The local records of a trace, in order. */
  function Locals(t: seq<Event>): seq<(Levels.Level, string)> {
    if |t| == 0 then []
    else (if t[0].LocalWrite? then [(t[0].level, t[0].text)] else []) + Locals(t[1..])
  }

  /** The webhook sends of a trace, in order. */
  function Remotes(t: seq<Event>): seq<Event> {
    if |t| == 0 then []
    else (if t[0].RemoteSend? then [t[0]] else []) + Remotes(t[1..])
  }

  lemma {:induction false} LocalsAppend(a: seq<Event>, b: seq<Event>)
    ensures Locals(a + b) == Locals(a) + Locals(b)
  {
    if |a| > 0 {
      assert (a + b)[1..] == a[1..] + b;
      LocalsAppend(a[1..], b);
    } else {
      assert a + b == b;
    }
  }

  lemma {:induction false} RemotesAppend(a: seq<Event>, b: seq<Event>)
    ensures Remotes(a + b) == Remotes(a) + Remotes(b)
  {
    if |a| > 0 {
      assert (a + b)[1..] == a[1..] + b;
      RemotesAppend(a[1..], b);
    } else {
      assert a + b == b;
    }
  }

  /** `LogChannel.log`: the record goes to the local handlers when its level
      passes the threshold, and to the webhook when the caller asks for it
      and a webhook is configured; the two gates are independent. */
  function Log(ch: LogChannel, timestamp: string, outcome: SendOutcome, message: string,
               level: Levels.Level := Levels.Info, sendToSlack: bool := false,
               extra: Option<Members> := None): (r: seq<Event>)
    ensures |r| <= 3
    ensures (|r| > 0 && r[0].LocalWrite?) <==> Levels.Passes(level, ch.threshold)
    ensures |r| > 0 && r[0].LocalWrite? ==> r[0] == LocalWrite(level, LocalText(message, extra))
    ensures |Remotes(r)| == (if sendToSlack && WebhookConfigured(ch) then 1 else 0)
  {
    var local := Emit(ch, level, LocalText(message, extra));
    var remote := if sendToSlack then SendToSlack(ch, timestamp, outcome, message, level, extra) else [];
    RemotesAppend(local, remote);
    if sendToSlack then SendToSlackSendsOnce(ch, timestamp, outcome, message, level, extra); local + remote
    else local + remote
  }

  lemma {:induction false} NoRemotes(t: seq<Event>)
    requires forall i | 0 <= i < |t| :: t[i].LocalWrite?
    ensures Remotes(t) == []
  {
    if |t| > 0 {
      NoRemotes(t[1..]);
    }
  }

  /** `_send_to_slack` posts at most once: exactly once when a webhook is
      configured, whatever the outcome, and the failure record is local. */
  lemma SendToSlackSendsOnce(ch: LogChannel, timestamp: string, outcome: SendOutcome,
                             message: string, level: Levels.Level, extra: Option<Members>)
    ensures |Remotes(SendToSlack(ch, timestamp, outcome, message, level, extra))| == (if WebhookConfigured(ch) then 1 else 0)
  {
    var t := SendToSlack(ch, timestamp, outcome, message, level, extra);
    if WebhookConfigured(ch) {
      RemotesAppend(t[..1], t[1..]);
      assert t == t[..1] + t[1..];
      NoRemotes(t[1..]);
    }
  }

  /** The POST a record is sent as when a webhook is configured. */
  function SendEvent(ch: LogChannel, timestamp: string, message: string, level: Levels.Level,
                     extra: Option<Members>): Event
    requires WebhookConfigured(ch)
  {
    RemoteSend(ch.webhookUrl.value, BuildPayload(ch.slackChannel, message, level, extra, timestamp), SendTimeoutSeconds)
  }

  /** Remote gate: a POST happens iff the caller asked for it and a webhook
      is configured; it carries the record's payload, to the configured URL,
      with the 10-second timeout, and never a second one (not even when it
      fails). The threshold plays no part. */
  lemma RemoteGate(ch: LogChannel, timestamp: string, outcome: SendOutcome, message: string,
                   level: Levels.Level, sendToSlack: bool, extra: Option<Members>)
    ensures Remotes(Log(ch, timestamp, outcome, message, level, sendToSlack, extra))
            == if sendToSlack && WebhookConfigured(ch) then [SendEvent(ch, timestamp, message, level, extra)] else []
  {
    var local := Emit(ch, level, LocalText(message, extra));
    NoRemotes(local);
    RemotesAppend(local, if sendToSlack then SendToSlack(ch, timestamp, outcome, message, level, extra) else []);
    if sendToSlack && WebhookConfigured(ch) {
      var t := SendToSlack(ch, timestamp, outcome, message, level, extra);
      RemotesAppend(t[..1], t[1..]);
      assert t == t[..1] + t[1..];
      NoRemotes(t[1..]);
    }
  }

  /** The local line `log` emits for the record itself, if any. */
  function RecordLine(ch: LogChannel, message: string, level: Levels.Level,
                      extra: Option<Members>): seq<(Levels.Level, string)> {
    if Levels.Passes(level, ch.threshold) then [(level, LocalText(message, extra))] else []
  }

  /** The local ERROR line a failed POST leaves, if any. */
  function FailureLine(ch: LogChannel, outcome: SendOutcome, sendToSlack: bool): seq<(Levels.Level, string)> {
    if sendToSlack && WebhookConfigured(ch) && outcome.Failed? && Levels.Passes(Levels.Error, ch.threshold)
    then [(Levels.Error, SendFailurePrefix + outcome.reason)]
    else []
  }

  /** Threshold gate and failure path: the local output of a call is the
      record's own line when its level passes the threshold, followed by
      exactly one ERROR line when the requested POST failed (itself subject
      to the threshold). A delivered POST, or none at all, adds nothing. */
  lemma LocalOutput(ch: LogChannel, timestamp: string, outcome: SendOutcome, message: string,
                    level: Levels.Level, sendToSlack: bool, extra: Option<Members>)
    ensures Locals(Log(ch, timestamp, outcome, message, level, sendToSlack, extra))
            == RecordLine(ch, message, level, extra) + FailureLine(ch, outcome, sendToSlack)
  {
    var local := Emit(ch, level, LocalText(message, extra));
    var remote := if sendToSlack then SendToSlack(ch, timestamp, outcome, message, level, extra) else [];
    LocalsAppend(local, remote);
    if |local| > 0 {
      assert Locals(local) == [(level, LocalText(message, extra))] + Locals(local[1..]);
    }
    if sendToSlack && WebhookConfigured(ch) {
      assert remote == remote[..1] + remote[1..];
      LocalsAppend(remote[..1], remote[1..]);
      assert Locals(remote[..1]) == [] + Locals(remote[..1][1..]);
      if outcome.Failed? && Levels.Passes(Levels.Error, ch.threshold) {
        assert remote[1..] == [LocalWrite(Levels.Error, SendFailurePrefix + outcome.reason)];
        assert Locals(remote[1..]) == [(Levels.Error, SendFailurePrefix + outcome.reason)] + Locals([]);
      } else {
        assert remote[1..] == [];
      }
    }
  }

  /** On a failed POST the call still returns its trace, and that trace ends
      with the failure record whenever ERROR passes the threshold. */
  lemma SendFailureEndsTrace(ch: LogChannel, timestamp: string, reason: string, message: string,
                             level: Levels.Level, extra: Option<Members>)
    requires WebhookConfigured(ch) && Levels.Passes(Levels.Error, ch.threshold)
    ensures var r := Log(ch, timestamp, Failed(reason), message, level, true, extra);
            |r| >= 2 && r[|r| - 2] == SendEvent(ch, timestamp, message, level, extra)
            && r[|r| - 1] == LocalWrite(Levels.Error, SendFailurePrefix + reason)
  {
  }

  /** The two gates are orthogonal: changing the threshold never changes what
      is posted, so a record suppressed locally is still posted on request. */
  lemma RemoteIndependentOfThreshold(ch: LogChannel, other: Levels.Level, timestamp: string,
                                     outcome: SendOutcome, message: string, level: Levels.Level,
                                     sendToSlack: bool, extra: Option<Members>)
    ensures Remotes(Log(ch, timestamp, outcome, message, level, sendToSlack, extra))
            == Remotes(Log(ch.(threshold := other), timestamp, outcome, message, level, sendToSlack, extra))
    ensures !Levels.Passes(level, ch.threshold) && sendToSlack && WebhookConfigured(ch) ==>
              RecordLine(ch, message, level, extra) == []
              && |Remotes(Log(ch, timestamp, outcome, message, level, sendToSlack, extra))| == 1
  {
    RemoteGate(ch, timestamp, outcome, message, level, sendToSlack, extra);
    RemoteGate(ch.(threshold := other), timestamp, outcome, message, level, sendToSlack, extra);
  }

  /** `LogChannel.debug`: `log` at DEBUG, posting only when asked. */
  function Debug(ch: LogChannel, timestamp: string, outcome: SendOutcome, message: string,
                 sendToSlack: bool := false, extra: Option<Members> := None): (r: seq<Event>)
    ensures Remotes(r) == if sendToSlack && WebhookConfigured(ch)
                          then [SendEvent(ch, timestamp, message, Levels.Debug, extra)] else []
    ensures Locals(r) == RecordLine(ch, message, Levels.Debug, extra) + FailureLine(ch, outcome, sendToSlack)
  {
    RemoteGate(ch, timestamp, outcome, message, Levels.Debug, sendToSlack, extra);
    LocalOutput(ch, timestamp, outcome, message, Levels.Debug, sendToSlack, extra);
    Log(ch, timestamp, outcome, message, Levels.Debug, sendToSlack, extra)
  }

  /** `LogChannel.info`: `log` at INFO, posting only when asked. */
  function Info(ch: LogChannel, timestamp: string, outcome: SendOutcome, message: string,
                sendToSlack: bool := false, extra: Option<Members> := None): (r: seq<Event>)
    ensures Remotes(r) == if sendToSlack && WebhookConfigured(ch)
                          then [SendEvent(ch, timestamp, message, Levels.Info, extra)] else []
    ensures Locals(r) == RecordLine(ch, message, Levels.Info, extra) + FailureLine(ch, outcome, sendToSlack)
  {
    RemoteGate(ch, timestamp, outcome, message, Levels.Info, sendToSlack, extra);
    LocalOutput(ch, timestamp, outcome, message, Levels.Info, sendToSlack, extra);
    Log(ch, timestamp, outcome, message, Levels.Info, sendToSlack, extra)
  }

  /** `LogChannel.warning`: `log` at WARNING, posting by default unless told not to. */
  function Warning(ch: LogChannel, timestamp: string, outcome: SendOutcome, message: string,
                   sendToSlack: bool := true, extra: Option<Members> := None): (r: seq<Event>)
    ensures Remotes(r) == if sendToSlack && WebhookConfigured(ch)
                          then [SendEvent(ch, timestamp, message, Levels.Warning, extra)] else []
    ensures Locals(r) == RecordLine(ch, message, Levels.Warning, extra) + FailureLine(ch, outcome, sendToSlack)
  {
    RemoteGate(ch, timestamp, outcome, message, Levels.Warning, sendToSlack, extra);
    LocalOutput(ch, timestamp, outcome, message, Levels.Warning, sendToSlack, extra);
    Log(ch, timestamp, outcome, message, Levels.Warning, sendToSlack, extra)
  }

  /** `LogChannel.error`: `log` at ERROR, posting by default unless told not to. */
  function Error(ch: LogChannel, timestamp: string, outcome: SendOutcome, message: string,
                 sendToSlack: bool := true, extra: Option<Members> := None): (r: seq<Event>)
    ensures Remotes(r) == if sendToSlack && WebhookConfigured(ch)
                          then [SendEvent(ch, timestamp, message, Levels.Error, extra)] else []
    ensures Locals(r) == RecordLine(ch, message, Levels.Error, extra) + FailureLine(ch, outcome, sendToSlack)
  {
    RemoteGate(ch, timestamp, outcome, message, Levels.Error, sendToSlack, extra);
    LocalOutput(ch, timestamp, outcome, message, Levels.Error, sendToSlack, extra);
    Log(ch, timestamp, outcome, message, Levels.Error, sendToSlack, extra)
  }

  /** `LogChannel.critical`: `log` at CRITICAL, posting by default unless told not to. */
  function Critical(ch: LogChannel, timestamp: string, outcome: SendOutcome, message: string,
                    sendToSlack: bool := true, extra: Option<Members> := None): (r: seq<Event>)
    ensures Remotes(r) == if sendToSlack && WebhookConfigured(ch)
                          then [SendEvent(ch, timestamp, message, Levels.Critical, extra)] else []
    ensures Locals(r) == RecordLine(ch, message, Levels.Critical, extra) + FailureLine(ch, outcome, sendToSlack)
  {
    RemoteGate(ch, timestamp, outcome, message, Levels.Critical, sendToSlack, extra);
    LocalOutput(ch, timestamp, outcome, message, Levels.Critical, sendToSlack, extra);
    Log(ch, timestamp, outcome, message, Levels.Critical, sendToSlack, extra)
  }

  /** The per-level defaults: with the flag omitted, DEBUG and INFO never
      post, while WARNING, ERROR and CRITICAL post whenever a webhook is
      configured. */
  lemma ConvenienceDefaults(ch: LogChannel, timestamp: string, outcome: SendOutcome, message: string)
    ensures Remotes(Debug(ch, timestamp, outcome, message)) == []
    ensures Remotes(Info(ch, timestamp, outcome, message)) == []
    ensures |Remotes(Warning(ch, timestamp, outcome, message))| == (if WebhookConfigured(ch) then 1 else 0)
    ensures |Remotes(Error(ch, timestamp, outcome, message))| == (if WebhookConfigured(ch) then 1 else 0)
    ensures |Remotes(Critical(ch, timestamp, outcome, message))| == (if WebhookConfigured(ch) then 1 else 0)
  {
  }

  /** The delimiter without its final space. Because the delimiter begins
      with the space it ends with, a message ending in this text makes the
      first occurrence of the delimiter start inside the message. */
  const DelimiterStem := " | Dados:"

  /** Apart from an occurrence wholly inside the message, the only way the
      delimiter can start before the one appended after the message is by
      overlapping it, and that needs the message to end in the stem. */
  lemma NoEarlierDelimiter(message: string, rest: string, j: nat)
    requires !Contains(message, Delimiter) && !EndsWith(message, DelimiterStem)
    requires j < |message|
    ensures !OccursAt(message + Delimiter + rest, Delimiter, j)
  {
    var t := message + Delimiter + rest;
    if j + |Delimiter| <= |message| {
      assert t[j..j + |Delimiter|] == message[j..j + |Delimiter|];
      assert !OccursAt(message, Delimiter, j);
    } else {
      OverlapIsNotDelimiter(message, rest, j);
    }
  }

  /** A window of the delimiter's width that starts inside the message and
      ends inside the appended delimiter differs from the delimiter at some
      position. */
  lemma OverlapIsNotDelimiter(message: string, rest: string, j: nat)
    requires !EndsWith(message, DelimiterStem)
    requires j < |message| < j + |Delimiter|
    ensures (message + Delimiter + rest)[j..j + |Delimiter|] != Delimiter
  {
    var t := message + Delimiter + rest;
    var w := t[j..j + |Delimiter|];
    var k := |message| - j;
    assert w[k] == t[|message|] == ' ';
    if k == 2 {
      assert w[3] == t[|message| + 1] == '|';
    } else if k == 9 {
      assert message[j..] != DelimiterStem;
      var i :| 0 <= i < 9 && message[j..][i] != DelimiterStem[i];
      assert w[i] == message[j + i];
    } else {
      assert Delimiter[k] != ' ';
    }
  }

  /** Reading a local line back: split at the first delimiter, the text
      before it is the message and the text after it is the compact
      rendering of the extra data; with no extra data there is no delimiter
      and the line is the message. This holds for every message that neither
      contains the delimiter nor ends in its stem. */
  lemma LocalTextSplitsBack(message: string, extra: Option<Members>)
    requires !Contains(message, Delimiter) && !EndsWith(message, DelimiterStem)
    ensures Partition(LocalText(message, extra), Delimiter)
            == (message, if HasExtra(extra) then Some(Compact(Object(extra.value))) else None)
  {
    if HasExtra(extra) {
      var rest := Compact(Object(extra.value));
      var t := message + Delimiter + rest;
      assert OccursAt(t, Delimiter, |message|) by {
        assert t[|message|..|message| + |Delimiter|] == Delimiter;
      }
      forall j: nat | j < |message| ensures !OccursAt(t, Delimiter, j) {
        NoEarlierDelimiter(message, rest, j);
      }
      var r := Partition(t, Delimiter);
      assert |r.0| == |message|;
      assert r.0 == t[..|message|] == message;
      assert r.1.value == t[|message| + |Delimiter|..] == rest;
    }
  }

  /** An occurrence of the delimiter starting inside the message makes the
      split stop short of the message's end. */
  lemma EarlyDelimiterCutsMessage(message: string, extra: Option<Members>, j: nat)
    requires j < |message|
    requires OccursAt(LocalText(message, extra), Delimiter, j)
    ensures Partition(LocalText(message, extra), Delimiter).0 != message
  {
  }

  /** Not containing the delimiter is not enough on its own: with extra data
      attached, a message ending in the stem loses its tail to the
      extra-data segment, because the delimiter already starts at the stem. */
  lemma {:induction false} StemEndingMessageDoesNotSplitBack(message: string, extra: Option<Members>)
    requires EndsWith(message, DelimiterStem) && HasExtra(extra)
    ensures Partition(LocalText(message, extra), Delimiter).0 != message
  {
    var t := LocalText(message, extra);
    var j := |message| - |DelimiterStem|;
    assert t[j..j + |Delimiter|] == message[j..] + [' '];
    EarlyDelimiterCutsMessage(message, extra, j);
  }

  /** The smallest such message: `"x | Dados:"` does not contain the
      delimiter, yet its line splits back to `"x"`. */
  lemma StemEndingExample()
    ensures var message := "x" + DelimiterStem;
            var extra := Some([("code", Str("E001"))]);
            !Contains(message, Delimiter)
            && Partition(LocalText(message, extra), Delimiter).0 == "x"
  {
    var message := "x" + DelimiterStem;
    var t := LocalText(message, Some([("code", Str("E001"))]));
    assert message[9] != Delimiter[9];
    assert OccursAt(t, Delimiter, 1) by {
      assert t[1..11] == Delimiter;
    }
    assert !OccursAt(t, Delimiter, 0) by {
      assert t[0] != Delimiter[0];
    }
  }

  /** With extra data attached, the line splits back to the message exactly
      when the message neither contains the delimiter nor ends in its stem. */
  lemma {:induction false} LocalTextSplitsBackExactly(message: string, extra: Option<Members>)
    requires HasExtra(extra)
    ensures Partition(LocalText(message, extra), Delimiter).0 == message
            <==> !Contains(message, Delimiter) && !EndsWith(message, DelimiterStem)
  {
    if !Contains(message, Delimiter) && !EndsWith(message, DelimiterStem) {
      LocalTextSplitsBack(message, extra);
    } else if Contains(message, Delimiter) {
      var t := LocalText(message, extra);
      var j := Find(message, Delimiter).value;
      assert t[j..j + |Delimiter|] == message[j..j + |Delimiter|];
      EarlyDelimiterCutsMessage(message, extra, j);
    } else {
      StemEndingMessageDoesNotSplitBack(message, extra);
    }
  }

  /** A local line is a single line whenever the message is. */
  lemma LocalTextSingleLine(message: string, extra: Option<Members>)
    requires SingleLine(message)
    ensures SingleLine(LocalText(message, extra))
  {
    if HasExtra(extra) {
      CompactSingleLine(Object(extra.value));
      SingleLineAppend(message, Delimiter);
      SingleLineAppend(message + Delimiter, Compact(Object(extra.value)));
    }
  }
}
