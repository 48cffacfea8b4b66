/**
 * The conversation lifecycle of the client page: connecting to and
 * disconnecting from the realtime service, the ten-minute conversation limit
 * with its one-minute warning, the two-minute refresh period that follows a
 * time-out, pausing the microphone, and the guards in front of every message
 * the page sends.
 *
 * `State` and one function per operation say what each operation does to
 * the page's state; `Session` is the page itself, whose fields are updated in
 * place and whose methods are proved against those functions. Clock readings
 * are integer milliseconds passed in by the caller; what the browser and the
 * network answer is passed in as an outcome.
 */
module SessionLifecycle {
  import opened Wrappers
  import opened Text
  import opened Http
  import opened TranscriptFormatter
  import SaveTranscriptRoute

  /** A conversation lasts at most ten minutes. */
  const ConversationTimeoutMs := 10 * 60 * 1000
  /** The warning comes one minute before the limit. */
  const TimeoutWarningMs := 1 * 60 * 1000
  /** After a time-out, no new conversation for two minutes. */
  const RefreshTimeoutMs := 2 * 60 * 1000

  datatype ConnectionStatus = Disconnected | Connecting | Connected

  /** A media track of the peer connection; `stopped` once `stop()` was called. */
  datatype Track = Track(audio: bool, enabled: bool, stopped: bool)

  /** An RTP sender of the peer connection, with or without a track. */
  datatype Sender = Sender(track: Option<Track>)

  /**
   * What the page keeps about the session. `peer` is the peer connection's
   * senders, `None` when there is no peer connection; `startTime` and
   * `refreshEnd` are `None` for `null`.
   */
  datatype State = State(
    status: ConnectionStatus,
    startTime: Option<int>,
    timedOut: bool,
    warning: bool,
    refreshActive: bool,
    refreshEnd: Option<int>,
    remaining: int,
    paused: bool,
    sending: bool,
    preview: string,
    peer: Option<seq<Sender>>)

  /** The state of a freshly loaded page. */
  const Initial := State(Disconnected, None, false, false, false, None, 0, false, false, "", None)

  /** JavaScript truthiness of a nullable millisecond count. */
  predicate HasTime(t: Option<int>) {
    t.Some? && t.value != 0
  }

  // ---------------------------------------------------------------------------
  // The microphone tracks.

  predicate HasAudio(x: Sender) {
    x.track.Some? && x.track.value.audio
  }

  /** Every audio track is enabled exactly when `on` holds. */
  predicate AudioEnabled(senders: seq<Sender>, on: bool) {
    forall i :: 0 <= i < |senders| && HasAudio(senders[i]) ==> senders[i].track.value.enabled == on
  }

  /** The senders after `track.enabled = on` on every audio track. */
  function EnableAudio(senders: seq<Sender>, on: bool): (r: seq<Sender>)
    ensures |r| == |senders|
  {
    seq(|senders|, i requires 0 <= i < |senders| => SetEnabled(senders[i], on))
  }

  /**
   * After `EnableAudio` the audio tracks are all at `on`, every other sender
   * is as it was, and an audio track differs only in its `enabled` flag.
   */
  lemma EnableAudioSpec(senders: seq<Sender>, on: bool)
    ensures var r := EnableAudio(senders, on);
      && AudioEnabled(r, on)
      && (forall i :: 0 <= i < |r| ==> HasAudio(r[i]) == HasAudio(senders[i]))
      && (forall i :: 0 <= i < |r| && !HasAudio(senders[i]) ==> r[i] == senders[i])
      && (forall i :: 0 <= i < |r| && HasAudio(senders[i]) ==> r[i].track.value == senders[i].track.value.(enabled := on))
  {
  }

  function SetEnabled(x: Sender, on: bool): Sender {
    if HasAudio(x) then Sender(Some(x.track.value.(enabled := on))) else x
  }

  /** The senders after `track.stop()` on every track, audio or not. */
  function StopAll(senders: seq<Sender>): (r: seq<Sender>)
    ensures |r| == |senders|
  {
    seq(|senders|, i requires 0 <= i < |senders| => Stop(senders[i]))
  }

  /** After `StopAll` every track is stopped and nothing else about the senders changed. */
  lemma StopAllSpec(senders: seq<Sender>)
    ensures var r := StopAll(senders);
      && (forall i :: 0 <= i < |r| ==> r[i].track.Some? == senders[i].track.Some?)
      && (forall i :: 0 <= i < |r| && r[i].track.Some? ==> r[i].track.value == senders[i].track.value.(stopped := true))
  {
  }

  function Stop(x: Sender): Sender {
    if x.track.Some? then Sender(Some(x.track.value.(stopped := true))) else x
  }

  /** Switching the audio tracks on and then back leaves them as they were, if they were all at the second value. */
  lemma EnableAudioUndone(senders: seq<Sender>, on: bool)
    requires AudioEnabled(senders, !on)
    ensures EnableAudio(EnableAudio(senders, on), !on) == senders
  {
    var once := EnableAudio(senders, on);
    var r := EnableAudio(once, !on);
    EnableAudioSpec(senders, on);
    EnableAudioSpec(once, !on);
    forall i | 0 <= i < |senders| ensures r[i] == senders[i] {
      if HasAudio(senders[i]) {
        assert r[i].track.value == senders[i].track.value;
      }
    }
  }

  // ---------------------------------------------------------------------------
  // The operations, as functions of the state.

  /**
   * `disconnectFromRealtime`: the tracks are stopped and the peer connection
   * dropped, the preview emptied and the pause cleared.
   */
  function Disconnect(s: State): (r: State)
    ensures r.status == Disconnected && !r.paused && r.peer.None? && r.preview == ""
    ensures r == s.(status := Disconnected, paused := false, peer := None, preview := "")
  {
    s.(peer := None, status := Disconnected, preview := "", paused := false)
  }

  /** One firing of the one-second conversation timer at clock reading `now`. */
  function Tick(s: State, now: int): State
  {
    if !(s.status == Connected && HasTime(s.startTime) && !s.timedOut) then s
    else
      var elapsed := now - s.startTime.value;
      if elapsed >= ConversationTimeoutMs then
        Disconnect(s).(timedOut := true, warning := false, startTime := None, refreshActive := true,
                       refreshEnd := Some(now + RefreshTimeoutMs), remaining := RefreshTimeoutMs)
      else if elapsed >= ConversationTimeoutMs - TimeoutWarningMs && !s.warning then
        s.(warning := true)
      else s
  }

  /** One firing of the one-second refresh-period timer at clock reading `now`. */
  function RefreshTick(s: State, now: int): State
  {
    if !(s.refreshActive && HasTime(s.refreshEnd)) then s
    else
      var timeLeft := s.refreshEnd.value - now;
      var t := s.(remaining := if timeLeft > 0 then timeLeft else 0);
      if timeLeft <= 0 then
        t.(refreshActive := false, refreshEnd := None, timedOut := false, remaining := 0)
      else t
  }

  /**
   * How an attempt to connect ends: no ephemeral key was issued, setting up
   * the connection threw, or the peer connection came up with these senders.
   */
  datatype ConnectOutcome = NoKey | ConnectError | Established(senders: seq<Sender>)

  /** Whether `connectToRealtime` gets past its first line. */
  predicate MayConnect(s: State) {
    s.status == Disconnected && !(s.timedOut && s.refreshActive)
  }

  /** `connectToRealtime`, run to its end with the given outcome. */
  function Connect(s: State, outcome: ConnectOutcome): State
  {
    if !MayConnect(s) then s
    else
      var c := s.(timedOut := if s.timedOut && !s.refreshActive then false else s.timedOut,
                  status := Connecting, paused := false);
      match outcome
      case NoKey => c.(status := Disconnected)
      case ConnectError => c.(status := Disconnected, paused := false)
      case Established(senders) => c.(peer := Some(EnableAudio(senders, true)))
  }

  /**
   * The effect that runs when the status becomes CONNECTED: a new
   * conversation starts at `now` with every time-out flag and the pause
   * cleared. A status that is already CONNECTED does not re-run it.
   */
  function SessionCreated(s: State, now: int): State
  {
    if s.status == Connected then s
    else
      s.(status := Connected, startTime := Some(now), timedOut := false, warning := false,
         refreshActive := false, refreshEnd := None, paused := false)
  }

  /** The effect that connects by itself once the page is idle and out of any refresh period. */
  function AutoConnect(s: State, outcome: ConnectOutcome): State
  {
    if s.status == Disconnected && !s.refreshActive && !s.timedOut then Connect(s, outcome) else s
  }

  /** `onToggleConnection`: nothing while connecting or in the refresh period. */
  function ToggleConnection(s: State, outcome: ConnectOutcome): State
  {
    if s.status == Connecting || s.refreshActive then s
    else if s.status == Connected then Disconnect(s)
    else Connect(s, outcome)
  }

  /** `onTogglePause`: only while connected; the audio tracks follow the new pause flag. */
  function TogglePause(s: State): State
  {
    if s.status != Connected then s
    else
      s.(paused := !s.paused, peer := if s.peer.Some? then Some(EnableAudio(s.peer.value, s.paused)) else None)
  }

  // ---------------------------------------------------------------------------
  // The guards in front of outbound messages.

  /** Simulated user messages, session updates and speech cancellation are sent only outside a time-out, refresh period or pause. */
  predicate MaySendEvents(s: State) {
    !s.timedOut && !s.refreshActive && !s.paused
  }

  /**
   * `handleSendTextMessage`: the text that goes to the service, if any. It
   * is sent trimmed, only while connected and allowed to send, and only when
   * something is left after trimming.
   */
  function TextToSend(s: State, text: string): (r: Option<string>)
    ensures r.Some? <==> s.status == Connected && MaySendEvents(s) && Trim(text) != ""
    ensures r.Some? ==> r.value == Trim(text)
  {
    if s.status != Connected || s.timedOut || s.refreshActive || s.paused then None
    else
      var trimmed := Trim(text);
      if trimmed == "" then None else Some(trimmed)
  }

  /** `handleEndConversation` goes ahead only while connected, unpaused and not already saving. */
  predicate MayEndConversation(s: State) {
    s.status == Connected && !s.paused && !s.sending
  }

  // ---------------------------------------------------------------------------
  // Ending a conversation.

  /** The JSON body of the explicit save request. */
  datatype SaveRequest = SaveRequest(fileName: string, content: string, conversationId: string, timestamp: string)

  /** `session-<start>`, or `session-<now>` when no conversation start is known. */
  function ConversationId(s: State, now: int): string
  {
    "session-" + IntToDecimal(if HasTime(s.startTime) then s.startTime.value else now)
  }

  /** The save request built from the transcript at clock reading `now`, whose ISO text is `isoNow`. */
  function ExplicitSave(s: State, items: seq<TranscriptItem>, now: int, isoNow: string): SaveRequest
  {
    var session := if HasTime(s.startTime) then Some("session-" + IntToDecimal(s.startTime.value)) else None;
    SaveRequest(GenerateTranscriptFilename(session, isoNow), FormatTranscriptAsPlainText(Some(items)),
                ConversationId(s, now), isoNow)
  }

  /** The state after `handleEndConversation` reaches its `await`, and the request it sends. */
  datatype Ending = Ending(state: State, request: Option<SaveRequest>)

  /**
   * `handleEndConversation` up to the save request: with a transcript it
   * marks the save as in flight and sends the request; without one it
   * disconnects at once.
   */
  function EndConversation(s: State, items: seq<TranscriptItem>, now: int, isoNow: string): Ending
  {
    if !MayEndConversation(s) then Ending(s, None)
    else if |items| > 0 then Ending(s.(sending := true), Some(ExplicitSave(s, items, now, isoNow)))
    else Ending(Disconnect(s).(sending := false), None)
  }

  /** The rest of `handleEndConversation`: a successful save disconnects; either way the save is over. */
  function SaveAnswered(s: State, ok: bool): State
  {
    if ok then Disconnect(s).(sending := false) else s.(sending := false)
  }

  /** The request as the save endpoint reads it. */
  function SaveBody(q: SaveRequest): RequestBody
  {
    ObjectBody(map["fileName" := JString(q.fileName), "content" := JString(q.content),
                   "conversationId" := JString(q.conversationId), "timestamp" := JString(q.timestamp),
                   "saveType" := JString("explicit")])
  }

  // ---------------------------------------------------------------------------
  // The invariant every reachable state keeps.

  datatype Event =
    | ConversationTimer(now: int)
    | RefreshTimer(now: int)
    | ConnectRequest(outcome: ConnectOutcome)
    | DisconnectRequest
    | SessionConnected(now: int)
    | IdleCheck(outcome: ConnectOutcome)
    | ToggleConnectionRequest(outcome: ConnectOutcome)
    | TogglePauseRequest
    | EndConversationRequest(items: seq<TranscriptItem>, now: int, isoNow: string)
    | SaveReply(ok: bool)

  function Step(s: State, e: Event): State
  {
    match e
    case ConversationTimer(now) => Tick(s, now)
    case RefreshTimer(now) => RefreshTick(s, now)
    case ConnectRequest(outcome) => Connect(s, outcome)
    case DisconnectRequest => Disconnect(s)
    case SessionConnected(now) => SessionCreated(s, now)
    case IdleCheck(outcome) => AutoConnect(s, outcome)
    case ToggleConnectionRequest(outcome) => ToggleConnection(s, outcome)
    case TogglePauseRequest => TogglePause(s)
    case EndConversationRequest(items, now, isoNow) => EndConversation(s, items, now, isoNow).state
    case SaveReply(ok) => SaveAnswered(s, ok)
  }

  /** The state after a sequence of events. */
  function Run(s: State, events: seq<Event>): State
    decreases |events|
  {
    if events == [] then s else Run(Step(s, events[0]), events[1..])
  }

  /**
   * The time-out flag and the refresh period go together, and the period
   * has an end time; a refresh period or a pause happens only while
   * disconnected or connected respectively; a warning needs a running
   * conversation; a disconnected page has no peer connection; and the
   * microphone is live exactly when the conversation is not paused.
   */
  predicate Consistent(s: State) {
    && s.timedOut == s.refreshActive
    && s.refreshActive == s.refreshEnd.Some?
    && (s.refreshActive ==> s.status == Disconnected)
    && (s.paused ==> s.status == Connected)
    && (s.warning ==> s.startTime.Some?)
    && s.remaining >= 0
    && (s.status == Disconnected ==> s.peer.None?)
    && (s.peer.Some? ==> AudioEnabled(s.peer.value, !s.paused))
  }

  lemma InitialConsistent()
    ensures Consistent(Initial)
  {
  }

  /** Every operation keeps the invariant. */
  lemma StepPreservesConsistency(s: State, e: Event)
    requires Consistent(s)
    ensures Consistent(Step(s, e))
  {
    match e
    case ConversationTimer(now) => TickKeeps(s, now);
    case RefreshTimer(now) => RefreshTickKeeps(s, now);
    case ConnectRequest(outcome) => ConnectKeeps(s, outcome);
    case DisconnectRequest => DisconnectKeeps(s);
    case SessionConnected(now) => SessionCreatedKeeps(s, now);
    case IdleCheck(outcome) => ConnectKeeps(s, outcome);
    case ToggleConnectionRequest(outcome) =>
      ConnectKeeps(s, outcome);
      DisconnectKeeps(s);
    case TogglePauseRequest => TogglePauseKeeps(s);
    case EndConversationRequest(items, now, isoNow) => EndConversationKeeps(s, items, now, isoNow);
    case SaveReply(ok) => SaveAnsweredKeeps(s, ok);
  }

  lemma DisconnectKeeps(s: State)
    requires Consistent(s)
    ensures Consistent(Disconnect(s))
  {
  }

  lemma TickKeeps(s: State, now: int)
    requires Consistent(s)
    ensures Consistent(Tick(s, now))
  {
  }

  lemma RefreshTickKeeps(s: State, now: int)
    requires Consistent(s)
    ensures Consistent(RefreshTick(s, now))
  {
  }

  /** A connection attempt keeps the invariant; a new peer connection comes up with the microphone on. */
  lemma ConnectKeeps(s: State, outcome: ConnectOutcome)
    requires Consistent(s)
    ensures Consistent(Connect(s, outcome))
  {
    if outcome.Established? {
      EnableAudioSpec(outcome.senders, true);
    }
  }

  lemma SessionCreatedKeeps(s: State, now: int)
    requires Consistent(s)
    ensures Consistent(SessionCreated(s, now))
  {
  }

  /** Pausing keeps the invariant: the microphone follows the new pause flag. */
  lemma TogglePauseKeeps(s: State)
    requires Consistent(s)
    ensures Consistent(TogglePause(s))
  {
    if s.status == Connected && s.peer.Some? {
      EnableAudioSpec(s.peer.value, s.paused);
    }
  }

  lemma EndConversationKeeps(s: State, items: seq<TranscriptItem>, now: int, isoNow: string)
    requires Consistent(s)
    ensures Consistent(EndConversation(s, items, now, isoNow).state)
  {
  }

  lemma SaveAnsweredKeeps(s: State, ok: bool)
    requires Consistent(s)
    ensures Consistent(SaveAnswered(s, ok))
  {
  }

  /**
   * A connection attempt does nothing unless the page is idle and out of a
   * time-out's refresh period. Otherwise any stale time-out flag and the
   * pause are cleared. The attempt ends disconnected when no key was issued
   * or setting up threw. A peer connection that came up leaves the page
   * connecting with every microphone track on. Nothing else changes.
   */
  lemma ConnectSpec(s: State, outcome: ConnectOutcome)
    ensures !MayConnect(s) ==> Connect(s, outcome) == s
    ensures MayConnect(s) && !outcome.Established? ==>
      Connect(s, outcome) == s.(status := Disconnected, timedOut := false, paused := false)
    ensures MayConnect(s) && outcome.Established? ==>
      var r := Connect(s, outcome);
      && r == s.(status := Connecting, timedOut := false, paused := false, peer := r.peer)
      && r.peer.Some? && |r.peer.value| == |outcome.senders| && AudioEnabled(r.peer.value, true)
  {
    if outcome.Established? {
      EnableAudioSpec(outcome.senders, true);
    }
  }

  /**
   * The connect button does nothing while connecting or in a refresh
   * period, disconnects a connected page and otherwise tries to connect.
   */
  lemma ToggleConnectionSpec(s: State, outcome: ConnectOutcome)
    ensures s.status == Connecting || s.refreshActive ==> ToggleConnection(s, outcome) == s
    ensures s.status == Connected && !s.refreshActive ==>
      var r := ToggleConnection(s, outcome);
      r.status == Disconnected && r.peer.None? && !r.paused
    ensures s.status == Disconnected && !s.refreshActive ==>
      ToggleConnection(s, outcome) == Connect(s, outcome) && MayConnect(s)
  {
  }

  /**
   * The pause button does nothing unless the page is connected; then it
   * flips the pause flag and turns the microphone tracks off when pausing
   * and on when resuming, keeping the same senders and everything else.
   */
  lemma TogglePauseSpec(s: State)
    ensures s.status != Connected ==> TogglePause(s) == s
    ensures s.status == Connected ==>
      var r := TogglePause(s);
      && r == s.(paused := !s.paused, peer := r.peer)
      && (r.peer.Some? <==> s.peer.Some?)
      && (r.peer.Some? ==> |r.peer.value| == |s.peer.value| && AudioEnabled(r.peer.value, !r.paused))
  {
    if s.status == Connected && s.peer.Some? {
      EnableAudioSpec(s.peer.value, s.paused);
    }
  }

  /**
   * A new conversation starts its clock at `now` and clears the time-out,
   * the warning, the refresh period and the pause; the peer connection,
   * countdown, sending flag and preview are left alone. A page already
   * connected is unchanged.
   */
  lemma SessionCreatedSpec(s: State, now: int)
    ensures s.status == Connected ==> SessionCreated(s, now) == s
    ensures s.status != Connected ==>
      var r := SessionCreated(s, now);
      && r.status == Connected && r.startTime == Some(now)
      && !r.timedOut && !r.warning && !r.refreshActive && r.refreshEnd.None? && !r.paused
      && r.peer == s.peer && r.remaining == s.remaining && r.sending == s.sending && r.preview == s.preview
  {
  }

  /**
   * The idle check connects exactly when the page is disconnected, outside a
   * refresh period and not timed out; in a consistent state that is every
   * disconnected state outside a refresh period, and the attempt then goes
   * ahead.
   */
  lemma AutoConnectSpec(s: State, outcome: ConnectOutcome)
    ensures !(s.status == Disconnected && !s.refreshActive && !s.timedOut) ==> AutoConnect(s, outcome) == s
    ensures s.status == Disconnected && !s.refreshActive && !s.timedOut ==>
      MayConnect(s) && AutoConnect(s, outcome) == Connect(s, outcome)
    ensures Consistent(s) && s.status == Disconnected && !s.refreshActive ==>
      AutoConnect(s, outcome) == Connect(s, outcome)
  {
  }

  /**
   * Ending a conversation does nothing unless the page is connected,
   * unpaused and not already saving. Then a non-empty transcript is sent as
   * one save request and the save is marked in flight; an empty one
   * disconnects at once and sends nothing.
   */
  lemma EndConversationSpec(s: State, items: seq<TranscriptItem>, now: int, isoNow: string)
    ensures !MayEndConversation(s) ==> EndConversation(s, items, now, isoNow) == Ending(s, None)
    ensures MayEndConversation(s) && |items| > 0 ==>
      var e := EndConversation(s, items, now, isoNow);
      && e.state == s.(sending := true)
      && e.request == Some(ExplicitSave(s, items, now, isoNow))
      && e.request.value.content == FormatTranscriptAsPlainText(Some(items))
    ensures MayEndConversation(s) && |items| == 0 ==>
      var e := EndConversation(s, items, now, isoNow);
      && e.request.None? && e.state.status == Disconnected && e.state.peer.None?
      && !e.state.sending && !e.state.paused
  {
  }

  /** Every state the page can reach from a fresh load keeps the invariant. */
  lemma {:induction false} RunPreservesConsistency(s: State, events: seq<Event>)
    requires Consistent(s)
    ensures Consistent(Run(s, events))
    decreases |events|
  {
    if events != [] {
      StepPreservesConsistency(s, events[0]);
      RunPreservesConsistency(Step(s, events[0]), events[1..]);
    }
  }

  // ---------------------------------------------------------------------------
  // Properties of the time limit.

  /**
   * Nine minutes into a conversation the warning is raised, once: a later
   * tick before the limit changes nothing more.
   */
  lemma WarningRaisedOnce(s: State, now: int, later: int)
    requires s.status == Connected && HasTime(s.startTime) && !s.timedOut && !s.warning
    requires s.startTime.value + ConversationTimeoutMs - TimeoutWarningMs <= now <= later
    requires later < s.startTime.value + ConversationTimeoutMs
    ensures Tick(s, now) == s.(warning := true)
    ensures Tick(Tick(s, now), later) == Tick(s, now)
  {
  }

  /** Before nine minutes a tick changes nothing. */
  lemma QuietBeforeWarning(s: State, now: int)
    requires s.status == Connected && HasTime(s.startTime)
    requires now < s.startTime.value + ConversationTimeoutMs - TimeoutWarningMs
    ensures Tick(s, now) == s
  {
  }

  /**
   * Ten minutes into a conversation a tick ends it: the page disconnects,
   * is timed out and enters a refresh period that ends two minutes later,
   * with the conversation start and the warning cleared.
   */
  lemma TimeoutStartsRefreshPeriod(s: State, now: int)
    requires s.status == Connected && HasTime(s.startTime) && !s.timedOut
    requires now >= s.startTime.value + ConversationTimeoutMs
    ensures var r := Tick(s, now);
      && r.status == Disconnected && r.peer.None? && !r.paused
      && r.timedOut && r.refreshActive
      && r.refreshEnd == Some(now + RefreshTimeoutMs) && r.remaining == RefreshTimeoutMs
      && r.startTime.None? && !r.warning
  {
  }

  /**
   * During the refresh period nothing connects and nothing is sent: connect
   * is refused, the toggle and the idle check do nothing, and every send
   * guard is closed.
   */
  lemma RefreshPeriodBlocks(s: State, outcome: ConnectOutcome, text: string)
    requires Consistent(s) && s.refreshActive
    ensures Connect(s, outcome) == s && ToggleConnection(s, outcome) == s && AutoConnect(s, outcome) == s
    ensures !MaySendEvents(s) && TextToSend(s, text).None? && !MayEndConversation(s)
  {
  }

  /**
   * A refresh tick shows the time left, never below zero; once the end time
   * is reached the period, its end time and the time-out are cleared.
   */
  lemma RefreshTickCountsDown(s: State, now: int)
    requires s.refreshActive && HasTime(s.refreshEnd)
    ensures var r := RefreshTick(s, now);
      var left := s.refreshEnd.value - now;
      && r.remaining == (if left > 0 then left else 0)
      && (r.refreshActive <==> now < s.refreshEnd.value)
      && (now >= s.refreshEnd.value ==> !r.timedOut && r.refreshEnd.None?)
      && (now < s.refreshEnd.value ==> r == s.(remaining := left))
  {
  }

  /**
   * The whole cycle: a conversation timed out at `t` can be followed by a
   * new one once a refresh tick at `t + 2 minutes` or later has run, and the
   * idle check then starts connecting by itself.
   */
  lemma {:induction false} ReconnectAfterRefresh(s: State, t: int, u: int, senders: seq<Sender>)
    requires Consistent(s) && s.status == Connected && HasTime(s.startTime) && !s.timedOut
    requires t >= s.startTime.value + ConversationTimeoutMs && t + RefreshTimeoutMs != 0
    requires u >= t + RefreshTimeoutMs
    ensures var timedOut := Tick(s, t);
      var refreshed := RefreshTick(timedOut, u);
      && AutoConnect(timedOut, Established(senders)) == timedOut
      && !refreshed.timedOut && !refreshed.refreshActive
      && AutoConnect(refreshed, Established(senders)).status == Connecting
  {
    TimeoutStartsRefreshPeriod(s, t);
    RefreshTickCountsDown(Tick(s, t), u);
  }

  /** Pausing twice gives back the state before, microphone included. */
  lemma TogglePauseTwice(s: State)
    requires Consistent(s)
    ensures TogglePause(TogglePause(s)) == s
  {
    if s.status == Connected && s.peer.Some? {
      EnableAudioUndone(s.peer.value, s.paused);
    }
  }

  /** The microphone of a consistent connected state is live exactly when it is not paused. */
  lemma MicrophoneFollowsPause(s: State, i: int)
    requires Consistent(s) && s.peer.Some? && 0 <= i < |s.peer.value| && HasAudio(s.peer.value[i])
    ensures s.peer.value[i].track.value.enabled <==> !s.paused
  {
  }

  /** While paused, nothing at all is sent and the conversation cannot be ended. */
  lemma PauseSuppressesSending(s: State, text: string)
    requires s.paused
    ensures !MaySendEvents(s) && TextToSend(s, text).None? && !MayEndConversation(s)
  {
  }

  /**
   * A second end-conversation request while the first one's save is in
   * flight is refused: at most one save request is outstanding.
   */
  lemma OneSaveAtATime(s: State, items: seq<TranscriptItem>, now: int, isoNow: string)
    requires s.status == Connected && !s.paused && !s.sending && |items| > 0
    ensures var first := EndConversation(s, items, now, isoNow);
      && first.request.Some? && first.state.sending
      && EndConversation(first.state, items, now, isoNow) == Ending(first.state, None)
  {
  }

  /**
   * The save request of an ended conversation passes the save endpoint's
   * validation exactly when the formatted transcript is not empty, and the
   * endpoint forwards the same file name and text.
   */
  lemma ExplicitSaveAccepted(s: State, items: seq<TranscriptItem>, now: int, isoNow: string)
    ensures var q := ExplicitSave(s, items, now, isoNow);
      && (SaveTranscriptRoute.ValidBody(SaveBody(q)) <==> q.content != "")
      && (q.content != "" ==>
            var p := SaveTranscriptRoute.PayloadOf(SaveBody(q));
            p.fileName == q.fileName && p.textContent == q.content
            && p.conversationId == Some(JString(q.conversationId)))
  {
    var q := ExplicitSave(s, items, now, isoNow);
    assert q.fileName[..11] == "transcript_" by {
      FilenameShape(if HasTime(s.startTime) then Some("session-" + IntToDecimal(s.startTime.value)) else None, isoNow);
    }
    assert Field(SaveBody(q), "fileName") == Some(JString(q.fileName));
    assert Field(SaveBody(q), "content") == Some(JString(q.content));
  }

  // ---------------------------------------------------------------------------
  // The page.

  class Session {
    var status: ConnectionStatus
    var startTime: Option<int>
    var timedOut: bool
    var warning: bool
    var refreshActive: bool
    var refreshEnd: Option<int>
    var remaining: int
    var paused: bool
    var sending: bool
    var preview: string
    /** Whether the page holds a peer connection, whose senders are `senders`. */
    var hasPeer: bool
    var senders: array<Sender>

    /** The page's state as a value. */
    function Snapshot(): State
      reads this, senders
    {
      State(status, startTime, timedOut, warning, refreshActive, refreshEnd, remaining, paused, sending,
            preview, if hasPeer then Some(senders[..]) else None)
    }

    /**
     * The page's invariant: its state is `Consistent`. Every handler below
     * keeps it, because the operation it is proved against does.
     */
    predicate Valid()
      reads this, senders
    {
      Consistent(Snapshot())
    }

    constructor()
      ensures Snapshot() == Initial && Valid()
    {
      status, startTime, timedOut, warning := Disconnected, None, false, false;
      refreshActive, refreshEnd, remaining := false, None, 0;
      paused, sending, preview := false, false, "";
      hasPeer := false;
      senders := new Sender[0];
    }

    /** `track.enabled = on` for every sender whose track is audio. */
    method SetAudioEnabled(on: bool)
      modifies senders
      ensures senders[..] == EnableAudio(old(senders[..]), on)
    {
      ghost var before := senders[..];
      var i := 0;
      while i < senders.Length
        invariant 0 <= i <= senders.Length
        invariant forall k :: 0 <= k < i ==> senders[k] == SetEnabled(before[k], on)
        invariant forall k :: i <= k < senders.Length ==> senders[k] == before[k]
      {
        var x := senders[i];
        if x.track.Some? && x.track.value.audio {
          senders[i] := Sender(Some(x.track.value.(enabled := on)));
        }
        i := i + 1;
      }
    }

    /** `track.stop()` for every sender that has a track. */
    method StopTracks()
      modifies senders
      ensures senders[..] == StopAll(old(senders[..]))
    {
      ghost var before := senders[..];
      var i := 0;
      while i < senders.Length
        invariant 0 <= i <= senders.Length
        invariant forall k :: 0 <= k < i ==> senders[k] == Stop(before[k])
        invariant forall k :: i <= k < senders.Length ==> senders[k] == before[k]
      {
        var x := senders[i];
        if x.track.Some? {
          senders[i] := Sender(Some(x.track.value.(stopped := true)));
        }
        i := i + 1;
      }
    }

    method DisconnectFromRealtime()
      modifies this, senders
      ensures Snapshot() == Disconnect(old(Snapshot()))
      ensures senders == old(senders) && (old(hasPeer) ==> senders[..] == StopAll(old(senders[..])))
      ensures old(Valid()) ==> Valid()
    {
      if hasPeer {
        StopTracks();
        hasPeer := false;
      }
      status := Disconnected;
      preview := "";
      paused := false;
      if old(Valid()) { DisconnectKeeps(old(Snapshot())); }
    }

    /** The conversation timer fires at `now`. */
    method ConversationTimerFires(now: int)
      modifies this, senders
      ensures Snapshot() == Tick(old(Snapshot()), now)
      ensures old(Valid()) ==> Valid()
    {
      if status == Connected && HasTime(startTime) && !timedOut {
        var elapsed := now - startTime.value;
        if elapsed >= ConversationTimeoutMs {
          TimeOut(now);
        } else if elapsed >= ConversationTimeoutMs - TimeoutWarningMs && !warning {
          warning := true;
        }
      }
      if old(Valid()) { TickKeeps(old(Snapshot()), now); }
    }

    /** The conversation hit its limit at `now`: disconnect and start the refresh period. */
    method TimeOut(now: int)
      modifies this, senders
      ensures Snapshot() == Disconnect(old(Snapshot())).(timedOut := true, warning := false, startTime := None,
        refreshActive := true, refreshEnd := Some(now + RefreshTimeoutMs), remaining := RefreshTimeoutMs)
    {
      DisconnectFromRealtime();
      timedOut, warning, startTime := true, false, None;
      refreshActive, refreshEnd, remaining := true, Some(now + RefreshTimeoutMs), RefreshTimeoutMs;
    }

    /** The refresh timer fires at `now`. */
    method RefreshTimerFires(now: int)
      modifies this
      ensures Snapshot() == RefreshTick(old(Snapshot()), now)
      ensures old(Valid()) ==> Valid()
    {
      if refreshActive && HasTime(refreshEnd) {
        var timeLeft := refreshEnd.value - now;
        remaining := if timeLeft > 0 then timeLeft else 0;
        if timeLeft <= 0 {
          refreshActive, refreshEnd, timedOut, remaining := false, None, false, 0;
        }
      }
      if old(Valid()) { RefreshTickKeeps(old(Snapshot()), now); }
    }

    /** The peer connection comes up with these senders, and every microphone track is switched on. */
    method AttachPeer(ss: seq<Sender>)
      modifies this
      ensures Snapshot() == old(Snapshot()).(peer := Some(EnableAudio(ss, true)))
      ensures fresh(senders)
    {
      senders := new Sender[|ss|](i requires 0 <= i < |ss| => ss[i]);
      assert senders[..] == ss;
      hasPeer := true;
      SetAudioEnabled(true);
    }

    /** `connectToRealtime`, run to its end with the given outcome. */
    method ConnectToRealtime(outcome: ConnectOutcome)
      modifies this, senders
      ensures Snapshot() == Connect(old(Snapshot()), outcome)
      ensures old(Valid()) ==> Valid()
    {
      if status == Disconnected && !(timedOut && refreshActive) {
        if timedOut && !refreshActive {
          timedOut := false;
        }
        status := Connecting;
        paused := false;
        match outcome {
          case NoKey =>
            status := Disconnected;
          case ConnectError =>
            status := Disconnected;
            paused := false;
          case Established(ss) =>
            AttachPeer(ss);
        }
      }
      if old(Valid()) { ConnectKeeps(old(Snapshot()), outcome); }
    }

    /** The status became CONNECTED at `now`. */
    method OnSessionConnected(now: int)
      modifies this
      ensures Snapshot() == SessionCreated(old(Snapshot()), now)
      ensures old(Valid()) ==> Valid()
    {
      if status != Connected {
        status, startTime, timedOut, warning := Connected, Some(now), false, false;
        refreshActive, refreshEnd, paused := false, None, false;
      }
      if old(Valid()) { SessionCreatedKeeps(old(Snapshot()), now); }
    }

    /** The auto-connect effect, with the outcome a connection attempt would have. */
    method ConnectWhenIdle(outcome: ConnectOutcome)
      modifies this, senders
      ensures Snapshot() == AutoConnect(old(Snapshot()), outcome)
      ensures old(Valid()) ==> Valid()
    {
      if status == Disconnected && !refreshActive && !timedOut {
        ConnectToRealtime(outcome);
      }
    }

    method OnToggleConnection(outcome: ConnectOutcome)
      modifies this, senders
      ensures Snapshot() == ToggleConnection(old(Snapshot()), outcome)
      ensures old(Valid()) ==> Valid()
    {
      if status == Connecting || refreshActive {
      } else if status == Connected {
        DisconnectFromRealtime();
      } else {
        ConnectToRealtime(outcome);
      }
    }

    method OnTogglePause()
      modifies this, senders
      ensures Snapshot() == TogglePause(old(Snapshot()))
      ensures old(Valid()) ==> Valid()
    {
      if status == Connected {
        var was := paused;
        paused := !was;
        if hasPeer {
          SetAudioEnabled(was);
        }
      }
      if old(Valid()) { TogglePauseKeeps(old(Snapshot())); }
    }

    /** `handleEndConversation` up to its `await`: the save request it sends, if any. */
    method HandleEndConversation(items: seq<TranscriptItem>, now: int, isoNow: string) returns (request: Option<SaveRequest>)
      modifies this, senders
      ensures Ending(Snapshot(), request) == EndConversation(old(Snapshot()), items, now, isoNow)
      ensures old(Valid()) ==> Valid()
    {
      request := None;
      if status == Connected && !paused && !sending {
        sending := true;
        if |items| > 0 {
          request := Some(ExplicitSave(Snapshot(), items, now, isoNow));
        } else {
          DisconnectFromRealtime();
          sending := false;
        }
      }
      if old(Valid()) { EndConversationKeeps(old(Snapshot()), items, now, isoNow); }
    }

    /** The save request was answered; `ok` is whether the response was a success. */
    method EndConversationAnswered(ok: bool)
      modifies this, senders
      ensures Snapshot() == SaveAnswered(old(Snapshot()), ok)
      ensures old(Valid()) ==> Valid()
    {
      if ok {
        DisconnectFromRealtime();
      }
      sending := false;
      if old(Valid()) { SaveAnsweredKeeps(old(Snapshot()), ok); }
    }

    /** `handleSendTextMessage`: the text sent, if any; the session state is unchanged. */
    method HandleSendTextMessage(text: string) returns (sent: Option<string>)
      ensures sent == TextToSend(Snapshot(), text)
      ensures sent.Some? ==> sent.value != "" && sent.value == Trim(text)
    {
      if status != Connected || timedOut || refreshActive || paused {
        return None;
      }
      var trimmed := Trim(text);
      if trimmed == "" {
        return None;
      }
      sent := Some(trimmed);
    }

    /** `sendSimulatedUserMessage`: the text sent, if any. */
    method SendSimulatedUserMessage(text: string) returns (sent: Option<string>)
      ensures sent.Some? <==> MaySendEvents(Snapshot())
      ensures sent.Some? ==> sent.value == text
    {
      if timedOut || refreshActive || paused {
        return None;
      }
      sent := Some(text);
    }

    /** `updateSession` and `cancelAssistantSpeech`: whether they get past their guard. */
    method MaySend() returns (go: bool)
      ensures go <==> !timedOut && !refreshActive && !paused
    {
      go := !(timedOut || refreshActive || paused);
    }
  }
}
