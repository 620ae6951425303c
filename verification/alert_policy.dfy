/** How the client's alert flag (Frontend/src/hooks/useWebSocket.ts) relates
    to the backend's verdict (Backend/app/processor.py): every alert is a
    failed bottle, but not every failed bottle alerts. A timed-out bottle is
    FAIL on the backend and shows no alert on the client, so the client's
    alert policy fails open. */
module AlertPolicy {
  import opened Text
  import opened AnalysisTypes
  import LiveMonitor
  import Processor

  /** An alert on either label implies the backend failed the bottle. */
  lemma AlertImpliesFail(tapLabel: string, levelLabel: string)
    ensures LiveMonitor.HasAlertFlag(tapLabel) || LiveMonitor.HasAlertFlag(levelLabel)
      ==> Processor.Verdict(tapLabel, levelLabel) == FAIL
  {
    // the two passing labels are not in the alert vocabulary
    LiveMonitor.AlertFlagNegativeExamples();
  }

  /** The timeout placeholders fail the bottle and raise no alert. */
  lemma TimeoutFailsWithoutAlert()
    ensures var r := Processor.ParallelResult(Processor.TimedOut);
      && r.Ok?
      && Processor.Verdict(r.value.0.lbl, r.value.1.lbl) == FAIL
      && !LiveMonitor.HasAlertFlag(r.value.0.lbl)
      && !LiveMonitor.HasAlertFlag(r.value.1.lbl)
  {
    LiveMonitor.AlertFlagNegativeExamples();
  }

  /** A timed-out bottle reaching the live feed is logged without an alert,
      whatever alert value it carried. */
  lemma TimedOutBottleNotAlerted(a: BottleAnalysis)
    requires a.tap.lbl == Processor.TapTimeout.lbl && a.level.lbl == Processor.LevelTimeout.lbl
    ensures var r := LiveMonitor.Accept(Some(WebSocketMessage(AnalysisResultType, Some(a))));
      r.Some? && !r.value.hasAlert
  {
    LiveMonitor.AlertFlagNegativeExamples();
  }
}
