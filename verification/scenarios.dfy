/** Concrete calls on a channel whose threshold is WARNING and whose
    webhook is configured, worked out to the exact effects. */
module Scenarios {
  import opened Wrappers
  import opened Json
  import Levels
  import opened Slack
  import opened Channel

  const Hook := "https://hooks.slack.com/services/T/B/X"
  const Now := "2024-01-01 12:00:00"

  function WarningChannel(): LogChannel {
    LogChannel(webhookUrl := Some(Hook), threshold := Levels.Warning)
  }

  /** A DEBUG record below the threshold, not asked to be posted, leaves no
      trace at all; an ERROR record posted on request is written once
      locally and posted once, titled with the ERROR marker. */
  lemma ThresholdScenario(outcome: SendOutcome)
    ensures Log(WarningChannel(), Now, outcome, "low", Levels.Debug) == []
    ensures var r := Log(WarningChannel(), Now, Delivered, "oops", Levels.Error, true);
            Locals(r) == [(Levels.Error, "oops")]
            && Remotes(r) == [SendEvent(WarningChannel(), Now, "oops", Levels.Error, None)]
    ensures SendEvent(WarningChannel(), Now, "oops", Levels.Error, None).payload.attachments[0].fields[0].title
            == "\U{274C} ERROR"
  {
    LocalOutput(WarningChannel(), Now, Delivered, "oops", Levels.Error, true, None);
    RemoteGate(WarningChannel(), Now, Delivered, "oops", Levels.Error, true, None);
  }

  /** The webhook answers 500: the call still yields its trace, which gains
      one local ERROR record about the failure and no second POST. */
  lemma ServerErrorScenario()
    ensures var r := Log(WarningChannel(), Now, Failed("500 Server Error"), "oops", Levels.Error, true);
            Locals(r) == [(Levels.Error, "oops"), (Levels.Error, "Erro ao enviar log para Slack: 500 Server Error")]
            && |Remotes(r)| == 1
  {
    assert SendFailurePrefix + "500 Server Error" == "Erro ao enviar log para Slack: 500 Server Error";
    LocalOutput(WarningChannel(), Now, Failed("500 Server Error"), "oops", Levels.Error, true, None);
    RemoteGate(WarningChannel(), Now, Failed("500 Server Error"), "oops", Levels.Error, true, None);
  }

  const CodeExtra: Members := [("code", Str("E001"))]

  /** `error("failure", extra_data={"code": "E001"})`: the local line is the
      message, the delimiter and the compact rendering of the extra data,
      and the call posts once. */
  lemma ExtraDataScenario()
    ensures var extra := CodeExtra; var r := Channel.Error(WarningChannel(), Now, Delivered, "failure", extra := Some(extra));
            Locals(r) == [(Levels.Error, "failure | Dados: " + Compact(Object(extra)))]
            && Remotes(r) == [SendEvent(WarningChannel(), Now, "failure", Levels.Error, Some(extra))]
  {
    var ch := WarningChannel();
    var extra := CodeExtra;
    assert FailureLine(ch, Delivered, true) == [];
    assert RecordLine(ch, "failure", Levels.Error, Some(extra)) == [(Levels.Error, LocalText("failure", Some(extra)))];
    assert "failure" + Delimiter == "failure | Dados: ";
    assert LocalText("failure", Some(extra)) == "failure | Dados: " + Compact(Object(extra));
  }

  /** The attachment of that post has a third field with the indented
      rendering in a code block. */
  lemma ExtraDataAttachment()
    ensures SendEvent(WarningChannel(), Now, "failure", Levels.Error, Some(CodeExtra)).payload.attachments[0].fields[2]
            == Field("Dados Extras", "```" + Pretty(Object(CodeExtra), 0) + "```", false)
  {
    assert HasExtra(Some(CodeExtra));
  }
}
