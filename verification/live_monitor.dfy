/** The live-result hook of the monitoring page
    (Frontend/src/hooks/useWebSocket.ts).

    The hook owns one socket handle and three pieces of displayed state: the
    connection flag, the newest-first log of inspected bottles and the
    "bottles processed" counter, which subtracts a locally kept offset from the
    producer's global count so that "clear" can restart it at zero.

    The pure part is `HasAlertFlag`, `Accept` (what one decoded message adds)
    and `Step`, one handler invocation as a function of the state; the lemmas
    about `Run` hold for every sequence of handler invocations. The class
    `WebSocketHook` is the hook itself, with one method per callback. */
module LiveMonitor {
  import opened Text
  import opened AnalysisTypes

  /** The alert vocabulary, compared after lower-casing. */
  const AlertLabels: seq<string> := ["low", "full", "tap_missing"]

  /** Whether a sub-check label is an alert: the lower-cased label is one of
      `AlertLabels`, exactly. */
  function HasAlertFlag(lbl: string): (r: bool)
    ensures r ==> |lbl| == 3 || |lbl| == 4 || |lbl| == 11
  {
    LowerAscii(lbl) in AlertLabels
  }

  /** ASCII case-insensitive equality, written independently of `LowerAscii`. */
  predicate EqualsIgnoringCase(a: string, b: string)
  {
    |a| == |b| && forall i :: 0 <= i < |a| ==> AsciiLower(a[i]) == AsciiLower(b[i])
  }

  lemma AlertVocabularyIsLower()
    ensures forall w :: w in AlertLabels ==> IsLowerAscii(w) && LowerAscii(w) == w
  {
    forall w | w in AlertLabels ensures IsLowerAscii(w) && LowerAscii(w) == w {
      LowerAsciiFixesLower(w);
    }
  }

  /** A label alerts iff it equals "low", "full" or "tap_missing" up to ASCII
      case; any other label, known or not, does not alert. */
  lemma AlertFlagIff(lbl: string)
    ensures HasAlertFlag(lbl) <==>
      EqualsIgnoringCase(lbl, "low") || EqualsIgnoringCase(lbl, "full")
      || EqualsIgnoringCase(lbl, "tap_missing")
  {
    AlertVocabularyIsLower();
    forall w | w in AlertLabels
      ensures LowerAscii(lbl) == w <==> EqualsIgnoringCase(lbl, w)
    {
      if EqualsIgnoringCase(lbl, w) {
        assert forall i :: 0 <= i < |w| ==> LowerAscii(lbl)[i] == w[i];
      }
    }
  }

  lemma AlertFlagPositiveExamples()
    ensures HasAlertFlag("low") && HasAlertFlag("LOW") && HasAlertFlag("Full")
    ensures HasAlertFlag("TAP_MISSING") && HasAlertFlag("tap_missing")
  {
    assert LowerAscii("LOW") == "low";
    assert LowerAscii("low") == "low";
    assert LowerAscii("Full") == "full";
    assert LowerAscii("TAP_MISSING") == "tap_missing";
    assert LowerAscii("tap_missing") == "tap_missing";
  }

  /** Labels outside the vocabulary do not alert, among them the backend's
      verdict labels and its timeout placeholders. */
  lemma AlertFlagNegativeExamples()
    ensures !HasAlertFlag("ok") && !HasAlertFlag("tap_present") && !HasAlertFlag("")
    ensures !HasAlertFlag("tap_timeout") && !HasAlertFlag("level_timeout")
    ensures !HasAlertFlag("low ") && !HasAlertFlag("lo")
  {
    assert LowerAscii("tap_present")[4] == 'p';
    assert LowerAscii("tap_timeout")[4] == 't';
    assert LowerAscii("low ")[0] == 'l';
  }

  /** The bottle a decoded message adds to the log, if any: only an
      `analysis_result` message with a data object is accepted, and its
      `hasAlert` is recomputed from the two labels. */
  function Accept(parsed: Option<WebSocketMessage>): (r: Option<BottleAnalysis>)
    ensures r.Some? <==>
      parsed.Some? && parsed.value.msgType == AnalysisResultType && parsed.value.data.Some?
    ensures r.Some? ==>
      var a := parsed.value.data.value;
      r.value.hasAlert == (HasAlertFlag(a.tap.lbl) || HasAlertFlag(a.level.lbl))
      && r.value.(hasAlert := a.hasAlert) == a
  {
    match parsed
    case Some(WebSocketMessage(t, Some(a))) =>
      if t == AnalysisResultType then
        Some(a.(hasAlert := HasAlertFlag(a.tap.lbl) || HasAlertFlag(a.level.lbl)))
      else None
    case _ => None
  }

  /** The wire's own `hasAlert` has no influence on what is accepted. */
  lemma WireAlertIgnored(t: string, a: BottleAnalysis, b: BottleAnalysis)
    requires a.(hasAlert := b.hasAlert) == b
    ensures Accept(Some(WebSocketMessage(t, Some(a)))) == Accept(Some(WebSocketMessage(t, Some(b))))
  {
  }

  function Max(a: int, b: int): int { if a < b then b else a }

  /** `WebSocket.readyState`. */
  datatype ReadyState = Connecting | Open | Closing | Closed

  /** A socket object, told apart from the others by the order of creation. */
  datatype Socket = Socket(id: nat, readyState: ReadyState)

  /** `WebSocket.close()`: a connecting or open socket starts closing. */
  function CloseSocket(s: Socket): (r: Socket)
    ensures r.id == s.id
    ensures r.readyState == (if s.readyState in {Connecting, Open} then Closing else s.readyState)
  {
    if s.readyState == Connecting || s.readyState == Open then s.(readyState := Closing) else s
  }

  /** Everything the hook holds: the three displayed state cells, the offset
      ref, the socket ref, the number of sockets created so far and the
      sockets `close()` was called on. */
  datatype MonitorState = MonitorState(
    isConnected: bool,
    bottleAnalyses: seq<BottleAnalysis>,
    bottlesProcessed: int,
    bottlesOffset: int,
    ws: Option<Socket>,
    nextSocket: nat,
    closeRequested: set<nat>)

  const Init: MonitorState := MonitorState(false, [], 0, 0, None, 0, {})

  /** One callback invocation: the caller's `connect`, `disconnect`,
      `clearResults` and unmount, and a socket's open, close, error and message
      events. The socket events name the socket they come from. */
  datatype Event =
    | Connect
    | Disconnect
    | Opened(socket: nat)
    | ClosedBy(socket: nat)
    | Errored(socket: nat)
    | Message(parsed: Option<WebSocketMessage>)
    | ClearResults
    | Unmount

  /** The current handle with a new ready state, when the event comes from it. */
  function MarkSocket(ws: Option<Socket>, id: nat, st: ReadyState): (r: Option<Socket>)
    ensures r.Some? <==> ws.Some?
    ensures ws.Some? ==> r.value.id == ws.value.id
    ensures ws.Some? && ws.value.id == id ==> r.value.readyState == st
    ensures ws.Some? && ws.value.id != id ==> r == ws
  {
    if ws.Some? && ws.value.id == id then Some(ws.value.(readyState := st)) else ws
  }

  function Step(s: MonitorState, e: Event): (s': MonitorState)
    ensures e != ClearResults ==> s'.bottlesOffset == s.bottlesOffset
    ensures !e.Message? && e != ClearResults ==>
      s'.bottleAnalyses == s.bottleAnalyses && s'.bottlesProcessed == s.bottlesProcessed
    ensures e != Connect ==> s'.nextSocket == s.nextSocket
    ensures e == Connect ==> s'.ws.Some? && s'.nextSocket <= s.nextSocket + 1
  {
    match e
    case Connect =>
      if s.ws.Some? && s.ws.value.readyState == Open then s
      else s.(ws := Some(Socket(s.nextSocket, Connecting)), nextSocket := s.nextSocket + 1)
    case Disconnect =>
      if s.ws.Some? then
        s.(ws := None, isConnected := false, closeRequested := s.closeRequested + {s.ws.value.id})
      else s
    case Opened(id) => s.(isConnected := true, ws := MarkSocket(s.ws, id, Open))
    case ClosedBy(id) => s.(isConnected := false, ws := MarkSocket(s.ws, id, Closed))
    case Errored(id) => s.(isConnected := false, ws := MarkSocket(s.ws, id, Closed))
    case Message(parsed) =>
      (match Accept(parsed)
       case Some(a) =>
         s.(bottleAnalyses := [a] + s.bottleAnalyses,
            bottlesProcessed := Max(0, a.bottlesProcessed - s.bottlesOffset))
       case None => s)
    case ClearResults =>
      s.(bottleAnalyses := [], bottlesOffset := s.bottlesOffset + s.bottlesProcessed,
         bottlesProcessed := 0)
    case Unmount =>
      if s.ws.Some? then
        s.(ws := Some(CloseSocket(s.ws.value)), closeRequested := s.closeRequested + {s.ws.value.id})
      else s
  }

  /** The state after the events of `evs`, oldest first. */
  function Run(s: MonitorState, evs: seq<Event>): (s': MonitorState)
    ensures ClearResults !in evs ==> s'.bottlesOffset == s.bottlesOffset
    ensures s'.nextSocket <= s.nextSocket + |evs|
    decreases |evs|
  {
    if |evs| == 0 then s else Step(Run(s, evs[..|evs| - 1]), evs[|evs| - 1])
  }

  /** The invariant of the hook's state: the counter and the offset are never
      negative, the counter is derived from the newest logged bottle (and is 0
      with an empty log), and the handle is one of the sockets created. */
  ghost predicate Inv(s: MonitorState)
  {
    && s.bottlesProcessed >= 0
    && s.bottlesOffset >= 0
    && (|s.bottleAnalyses| == 0 ==> s.bottlesProcessed == 0)
    && (|s.bottleAnalyses| > 0 ==>
          s.bottlesProcessed == Max(0, s.bottleAnalyses[0].bottlesProcessed - s.bottlesOffset))
    && (s.ws.Some? ==> s.ws.value.id < s.nextSocket)
    && (forall id :: id in s.closeRequested ==> id < s.nextSocket)
  }

  lemma StepInv(s: MonitorState, e: Event)
    requires Inv(s)
    ensures Inv(Step(s, e))
    ensures Step(s, e).bottlesOffset >= s.bottlesOffset
    ensures Step(s, e).nextSocket >= s.nextSocket
  {
  }

  /** Every reachable state satisfies `Inv`; the offset never decreases. */
  lemma {:induction false} RunInv(s: MonitorState, evs: seq<Event>)
    requires Inv(s)
    ensures Inv(Run(s, evs))
    ensures Run(s, evs).bottlesOffset >= s.bottlesOffset
    decreases |evs|
  {
    if |evs| > 0 {
      RunInv(s, evs[..|evs| - 1]);
      StepInv(Run(s, evs[..|evs| - 1]), evs[|evs| - 1]);
    }
  }

  /** The bottles accepted since the last `ClearResults` of `evs`, newest first. */
  function AcceptedSinceClear(evs: seq<Event>): seq<BottleAnalysis>
    decreases |evs|
  {
    if |evs| == 0 then []
    else
      var e := evs[|evs| - 1];
      if e == ClearResults then []
      else if e.Message? && Accept(e.parsed).Some? then
        [Accept(e.parsed).value] + AcceptedSinceClear(evs[..|evs| - 1])
      else AcceptedSinceClear(evs[..|evs| - 1])
  }

  /** The number of messages of `evs` that are accepted after its last clear. */
  function CountAccepted(evs: seq<Event>): nat
    decreases |evs|
  {
    if |evs| == 0 then 0
    else
      var e := evs[|evs| - 1];
      if e == ClearResults then 0
      else (if e.Message? && Accept(e.parsed).Some? then 1 else 0) + CountAccepted(evs[..|evs| - 1])
  }

  /** The log is exactly the accepted bottles since the last clear, newest
      first, on top of the log the sequence started with if it had no clear. */
  lemma {:induction false} RunLog(s: MonitorState, evs: seq<Event>)
    ensures Run(s, evs).bottleAnalyses ==
      AcceptedSinceClear(evs) + (if ClearResults in evs then [] else s.bottleAnalyses)
    ensures |AcceptedSinceClear(evs)| == CountAccepted(evs)
    decreases |evs|
  {
    if |evs| > 0 {
      var pre := evs[..|evs| - 1];
      RunLog(s, pre);
      assert evs == pre + [evs[|evs| - 1]];
      assert ClearResults in evs <==> ClearResults in pre || evs[|evs| - 1] == ClearResults;
    }
  }

  /** Starting from mount, the log length is the number of accepted messages
      since the last clear. */
  lemma LogLengthCountsAccepted(evs: seq<Event>)
    ensures |Run(Init, evs).bottleAnalyses| == CountAccepted(evs)
    ensures Run(Init, evs).bottlesProcessed >= 0
  {
    RunLog(Init, evs);
    RunInv(Init, evs);
  }

  /** A message of another type, or one that did not parse, changes nothing,
      the connection included. */
  lemma IgnoredMessageChangesNothing(s: MonitorState, parsed: Option<WebSocketMessage>)
    requires parsed.None? || parsed.value.msgType != AnalysisResultType
    ensures Step(s, Message(parsed)) == s
  {
  }

  /** `connect` while the handle is still connecting installs a second socket
      and never closes the first one. */
  lemma ConnectTwiceBeforeOpen(s: MonitorState)
    requires Inv(s)
    requires s.ws.None? || s.ws.value.readyState != Open
    ensures var s1 := Step(s, Connect);
      var s2 := Step(s1, Connect);
      s1.ws.Some? && s2.ws.Some? && s2.ws.value.id != s1.ws.value.id
      && s1.ws.value.id !in s2.closeRequested
      && s1.ws.value.readyState == Connecting
  {
  }

  /** Bottles with the given status in a log (the page's okCount and failCount). */
  function CountStatus(log: seq<BottleAnalysis>, st: Status): (n: nat)
    ensures n <= |log|
    decreases |log|
  {
    if |log| == 0 then 0
    else (if log[0].status == st then 1 else 0) + CountStatus(log[1..], st)
  }

  /** Every logged bottle is counted as OK or as failed, never both. */
  lemma {:induction false} OkFailPartition(log: seq<BottleAnalysis>)
    ensures CountStatus(log, PASS) + CountStatus(log, FAIL) == |log|
    decreases |log|
  {
    if |log| > 0 { OkFailPartition(log[1..]); }
  }

  function Bottle(tapLabel: string, levelLabel: string, status: Status, processed: int): BottleAnalysis
  {
    BottleAnalysis("e", "bottle", "t", AnalysisData(tapLabel, 0.9, "tap.jpg"),
                   AnalysisData(levelLabel, 0.9, "level.jpg"), status, processed, false)
  }

  function MissingTapFive(): Event
  {
    Message(Some(WebSocketMessage(AnalysisResultType, Some(Bottle("tap_missing", "ok", FAIL, 5)))))
  }

  function PresentTapEight(): Event
  {
    Message(Some(WebSocketMessage(AnalysisResultType, Some(Bottle("tap_present", "ok", PASS, 8)))))
  }

  /** Connected, a missing tap with 5 bottles processed shows an alert and a
      count of 5. */
  lemma AlertScenario()
    ensures var s := Run(Init, [Connect, Opened(0), MissingTapFive()]);
      s.isConnected && |s.bottleAnalyses| == 1 && s.bottleAnalyses[0].hasAlert
      && s.bottlesProcessed == 5 && s.bottlesOffset == 0
  {
    AlertFlagPositiveExamples();
    var evs := [Connect, Opened(0), MissingTapFive()];
    var s0 := Step(Init, Connect);
    assert Run(Init, evs[..1]) == s0 by { assert evs[..1][..0] == []; }
    var s1 := Step(s0, Opened(0));
    assert Run(Init, evs[..2]) == s1 by { assert evs[..2][..1] == evs[..1]; }
    assert s1.isConnected && s1.bottleAnalyses == [] && s1.bottlesOffset == 0;
    assert Run(Init, evs) == Step(s1, MissingTapFive());
  }

  /** After that, a clear and a bottle with 8 processed shows 3 against an
      offset of 5. */
  lemma ClearScenario()
    ensures var s := Run(Init, [Connect, Opened(0), MissingTapFive(), ClearResults, PresentTapEight()]);
      s.bottlesOffset == 5 && s.bottlesProcessed == 3 && |s.bottleAnalyses| == 1
  {
    var evs := [Connect, Opened(0), MissingTapFive(), ClearResults, PresentTapEight()];
    AlertScenario();
    var s2 := Run(Init, evs[..3]);
    assert evs[..3] == [Connect, Opened(0), MissingTapFive()];
    assert s2.bottlesProcessed == 5 && s2.bottlesOffset == 0;
    var s3 := Step(s2, ClearResults);
    assert Run(Init, evs[..4]) == s3 by { assert evs[..4][..3] == evs[..3]; }
    assert s3.bottlesOffset == 5 && s3.bottleAnalyses == [];
    assert Run(Init, evs) == Step(s3, PresentTapEight());
  }

  /** The hook instance. */
  class WebSocketHook {
    var isConnected: bool
    var bottleAnalyses: seq<BottleAnalysis>
    var bottlesProcessed: int
    var bottlesOffset: int
    var ws: Option<Socket>
    var nextSocket: nat
    var closeRequested: set<nat>

    function State(): MonitorState
      reads this
    {
      MonitorState(isConnected, bottleAnalyses, bottlesProcessed, bottlesOffset,
                   ws, nextSocket, closeRequested)
    }

    ghost predicate Valid()
      reads this
    {
      Inv(State())
    }

    /** Mount: disconnected, empty log, count and offset 0, no socket. */
    constructor ()
      ensures Valid() && State() == Init
    {
      isConnected, bottleAnalyses, bottlesProcessed, bottlesOffset := false, [], 0, 0;
      ws, nextSocket, closeRequested := None, 0, {};
    }

    /** Does nothing when the current socket is open; otherwise creates a new
        socket, still connecting, and makes it the handle (a connecting socket
        is replaced without being closed). */
    method Connect()
      requires Valid()
      modifies this
      ensures Valid() && State() == Step(old(State()), Event.Connect)
      ensures old(ws).Some? && old(ws).value.readyState == Open ==> State() == old(State())
      ensures !(old(ws).Some? && old(ws).value.readyState == Open) ==>
        ws == Some(Socket(old(nextSocket), Connecting))
        && bottleAnalyses == old(bottleAnalyses) && bottlesProcessed == old(bottlesProcessed)
        && bottlesOffset == old(bottlesOffset) && isConnected == old(isConnected)
    {
      if ws.Some? && ws.value.readyState == Open {
        return;
      }
      ws := Some(Socket(nextSocket, Connecting));
      nextSocket := nextSocket + 1;
    }

    method OnOpen(socket: nat)
      requires Valid()
      modifies this
      ensures Valid() && State() == Step(old(State()), Opened(socket))
      ensures isConnected
      ensures bottleAnalyses == old(bottleAnalyses) && bottlesProcessed == old(bottlesProcessed)
      ensures bottlesOffset == old(bottlesOffset)
    {
      isConnected := true;
      ws := MarkSocket(ws, socket, Open);
    }

    method OnClose(socket: nat)
      requires Valid()
      modifies this
      ensures Valid() && State() == Step(old(State()), ClosedBy(socket))
      ensures !isConnected
      ensures bottleAnalyses == old(bottleAnalyses) && bottlesProcessed == old(bottlesProcessed)
      ensures bottlesOffset == old(bottlesOffset)
    {
      isConnected := false;
      ws := MarkSocket(ws, socket, Closed);
    }

    method OnError(socket: nat)
      requires Valid()
      modifies this
      ensures Valid() && State() == Step(old(State()), Errored(socket))
      ensures !isConnected
      ensures bottleAnalyses == old(bottleAnalyses) && bottlesProcessed == old(bottlesProcessed)
      ensures bottlesOffset == old(bottlesOffset)
    {
      isConnected := false;
      ws := MarkSocket(ws, socket, Closed);
    }

    /** A decoded payload (`None` when it did not parse). An accepted bottle is
        put in front of the log and sets the count from the producer's total
        minus the offset, clamped at 0; anything else changes nothing. */
    method OnMessage(parsed: Option<WebSocketMessage>)
      requires Valid()
      modifies this
      ensures Valid() && State() == Step(old(State()), Message(parsed))
      ensures Accept(parsed).Some? ==>
        bottleAnalyses == [Accept(parsed).value] + old(bottleAnalyses)
        && bottlesProcessed == Max(0, Accept(parsed).value.bottlesProcessed - bottlesOffset)
      ensures Accept(parsed).None? ==> State() == old(State())
      ensures bottlesOffset == old(bottlesOffset) && ws == old(ws) && isConnected == old(isConnected)
    {
      match Accept(parsed)
      case Some(a) =>
        bottleAnalyses := [a] + bottleAnalyses;
        bottlesProcessed := Max(0, a.bottlesProcessed - bottlesOffset);
      case None =>
    }

    /** Closes and forgets the handle and reports disconnected; without a
        handle it does nothing. */
    method Disconnect()
      requires Valid()
      modifies this
      ensures Valid() && State() == Step(old(State()), Event.Disconnect)
      ensures old(ws).None? ==> State() == old(State())
      ensures old(ws).Some? ==>
        ws.None? && !isConnected && closeRequested == old(closeRequested) + {old(ws).value.id}
      ensures bottleAnalyses == old(bottleAnalyses) && bottlesProcessed == old(bottlesProcessed)
      ensures bottlesOffset == old(bottlesOffset)
    {
      if ws.Some? {
        closeRequested := closeRequested + {ws.value.id};
        ws := None;
        isConnected := false;
      }
    }

    /** Empties the log, moves the displayed count into the offset and shows 0. */
    method ClearResults()
      requires Valid()
      modifies this
      ensures Valid() && State() == Step(old(State()), Event.ClearResults)
      ensures bottleAnalyses == [] && bottlesProcessed == 0
      ensures bottlesOffset == old(bottlesOffset) + old(bottlesProcessed) >= old(bottlesOffset)
      ensures ws == old(ws) && isConnected == old(isConnected)
    {
      bottleAnalyses := [];
      bottlesOffset := bottlesOffset + bottlesProcessed;
      bottlesProcessed := 0;
    }

    /** The unmount cleanup: closes the handle if there is one, but neither
        forgets it nor changes the connection flag. */
    method Unmount()
      requires Valid()
      modifies this
      ensures Valid() && State() == Step(old(State()), Event.Unmount)
      ensures old(ws).Some? ==>
        ws == Some(CloseSocket(old(ws).value)) && old(ws).value.id in closeRequested
      ensures isConnected == old(isConnected) && bottleAnalyses == old(bottleAnalyses)
      ensures bottlesProcessed == old(bottlesProcessed) && bottlesOffset == old(bottlesOffset)
    {
      if ws.Some? {
        closeRequested := closeRequested + {ws.value.id};
        ws := Some(CloseSocket(ws.value));
      }
    }
  }
}
