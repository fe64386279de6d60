/**
 * The voice-agent page: a call to a hosted conversational agent, driven by
 * the call button and by the voice SDK's callbacks, and the screen derived
 * from the call state.
 */
module VoiceAgent {
  import opened Common

  /** The connection states the voice SDK reports. */
  datatype Status = Disconnected | Connecting | Connected | Disconnecting

  /** The page's `agentState`: one of the SDK's states, or `None` for `null`. */
  type AgentState = Option<Status>

  const DefaultAgentId := "agent_8701kfjzrrhcf408keqd06k3pryw"
  const NotAllowed := "NotAllowedError"
  const MicPermissionMessage := "Please enable microphone permissions in your browser."
  const ConnectedLabel := "Connected"

  /** The agent to call: the configured id when it is set and non-empty (`||`), else the built-in one. */
  function AgentId(env: Option<string>): (id: string)
    ensures id != ""
    ensures env.Some? && env.value != "" ==> id == env.value
    ensures env.None? || env.value == "" ==> id == DefaultAgentId
  {
    if env.Some? && env.value != "" then env.value else DefaultAgentId
  }

  /** The state name as the SDK spells it (what the shimmering status text shows). */
  function StatusName(s: Status): string
  {
    match s
    case Disconnected => "disconnected"
    case Connecting => "connecting"
    case Connected => "connected"
    case Disconnecting => "disconnecting"
  }

  /** No call and none being set up: `"disconnected"` or `null`, the states the call button starts from. */
  predicate IsIdle(s: AgentState)
    ensures IsIdle(s) <==> !IsCallActive(s) && !IsTransitioning(s)
  {
    s == Some(Disconnected) || s.None?
  }

  /** `isCallActive`: the state is the string `"connected"`; never together with `isTransitioning`. */
  predicate IsCallActive(s: AgentState)
    ensures IsCallActive(s) <==> s.Some? && StatusName(s.value) == "connected"
    ensures IsCallActive(s) ==> !IsTransitioning(s)
  {
    s == Some(Connected)
  }

  /** `isTransitioning`: the state is the string `"connecting"` or `"disconnecting"`. */
  predicate IsTransitioning(s: AgentState)
    ensures IsTransitioning(s) <==>
              s.Some? && (StatusName(s.value) == "connecting" || StatusName(s.value) == "disconnecting")
  {
    s == Some(Connecting) || s == Some(Disconnecting)
  }

  /** Every state is exactly one of idle, in a call, or transitioning. */
  lemma StatesPartitioned(s: AgentState)
    ensures IsIdle(s) || IsCallActive(s) || IsTransitioning(s)
    ensures !(IsCallActive(s) && IsTransitioning(s))
    ensures !(IsIdle(s) && IsCallActive(s)) && !(IsIdle(s) && IsTransitioning(s))
  {
    if s.Some? {
      assert s.value.Disconnected? || s.value.Connecting? || s.value.Connected? || s.value.Disconnecting?;
    }
  }

  /** The orb's animation mode. */
  datatype OrbMode = Talking | Thinking

  /** The orb: talking while connected, thinking while connecting, `null` otherwise. */
  function Orb(s: AgentState): (r: Option<OrbMode>)
    ensures r == Some(Talking) <==> IsCallActive(s)
    ensures r == Some(Thinking) <==> s == Some(Connecting)
    ensures r.None? <==> IsIdle(s) || s == Some(Disconnecting)
  {
    match s
    case Some(Connected) => Some(Talking)
    case Some(Connecting) => Some(Thinking)
    case _ => None
  }

  /** What the page keeps between renders. */
  datatype Screen = Screen(agentState: AgentState, errorMessage: Option<string>)

  /** The first render: disconnected, no error. */
  const Initial := Screen(Some(Disconnected), None)

  /** The status panel below the title. */
  datatype Panel =
    | ErrorText(message: string)
    | Description
    | Indicator(shimmering: bool, text: string)

  datatype Icon = Loader | PhoneOff | Mic

  /** What the page shows for a given state, apart from layout and animation. */
  datatype View = View(orb: Option<OrbMode>, pulsingRing: bool, panel: Panel, hint: bool,
                       buttonDisabled: bool, destructive: bool, icon: Icon, tips: bool)

  /** `errorMessage ?`: an error is shown when it is set and non-empty. */
  predicate ShowsError(err: Option<string>)
    ensures err.None? ==> !ShowsError(err)
    ensures err == Some("") ==> !ShowsError(err)
    ensures err == Some(MicPermissionMessage) ==> ShowsError(err)
  {
    err.Some? && err.value != ""
  }

  /** The rendered page. The error text, when there is one, takes the status panel's place. */
  function Render(u: Screen): (r: View)
    ensures r.orb == Orb(u.agentState)
    ensures r.panel.ErrorText? <==> ShowsError(u.errorMessage)
    ensures ShowsError(u.errorMessage) ==> r.panel == ErrorText(u.errorMessage.value)
    ensures r.panel == Description <==> !ShowsError(u.errorMessage) && IsIdle(u.agentState)
    ensures r.panel.Indicator? ==>
              && !IsIdle(u.agentState)
              && (r.panel.shimmering <==> IsTransitioning(u.agentState))
              && (r.panel.shimmering ==> r.panel.text == StatusName(u.agentState.value))
              && (!r.panel.shimmering ==> r.panel.text == ConnectedLabel)
    ensures r.hint <==> IsIdle(u.agentState)
    ensures r.buttonDisabled <==> IsTransitioning(u.agentState)
    ensures r.pulsingRing <==> IsCallActive(u.agentState)
    ensures r.destructive <==> IsCallActive(u.agentState)
    ensures r.tips <==> IsCallActive(u.agentState)
    ensures r.icon == Loader <==> IsTransitioning(u.agentState)
    ensures r.icon == PhoneOff <==> IsCallActive(u.agentState)
    ensures r.icon == Mic <==> IsIdle(u.agentState)
  {
    var s := u.agentState;
    var active := s == Some(Connected);
    var transitioning := s == Some(Connecting) || s == Some(Disconnecting);
    var panel :=
      if ShowsError(u.errorMessage) then ErrorText(u.errorMessage.value)
      else if s == Some(Disconnected) || s == None then Description
      else if transitioning then Indicator(true, StatusName(s.value))
      else Indicator(false, ConnectedLabel);
    var icon := if transitioning then Loader else if active then PhoneOff else Mic;
    View(Orb(s), active, panel, s == Some(Disconnected) || s == None, transitioning, active, icon, active)
  }

  /** What `startConversation` can catch. */
  datatype Thrown = DomException(name: string) | OtherError

  /** The events the page reacts to. */
  datatype Event =
    | Call                     // the call button (`handleCall`)
    | MicrophoneGranted        // `getUserMedia` resolved
    | StartFailed(e: Thrown)   // `getUserMedia` or `startSession` threw
    | StatusChanged(s: Status) // the SDK's `onStatusChange`
    | SdkError                 // the SDK's `onError`

  /** The calls the page makes into the browser and the voice SDK. */
  datatype SdkCall = GetUserMedia | StartSession(agentId: string) | EndSession

  /**
   * The state after an event. Only the call button and a failed start touch
   * the error; a failure or an SDK error always ends disconnected; the button
   * does nothing while transitioning; and an error, when it changes, is
   * cleared or becomes the microphone message.
   */
  function Next(u: Screen, e: Event): (r: Screen)
    ensures !e.Call? && !e.StartFailed? ==> r.errorMessage == u.errorMessage
    ensures e.StartFailed? || e.SdkError? ==> r.agentState == Some(Disconnected)
    ensures e.Call? && IsTransitioning(u.agentState) ==> r == u
    ensures e.Call? && !IsTransitioning(u.agentState) ==> r.agentState != u.agentState
    ensures r.errorMessage != u.errorMessage ==> r.errorMessage in {None, Some(MicPermissionMessage)}
    ensures u.agentState.Some? ==> r.agentState.Some?
  {
    match e
    case Call =>
      if IsIdle(u.agentState) then Screen(Some(Connecting), None)
      else if IsCallActive(u.agentState) then u.(agentState := Some(Disconnected))
      else u
    case MicrophoneGranted => u
    case StartFailed(t) =>
      Screen(Some(Disconnected), if t == DomException(NotAllowed) then Some(MicPermissionMessage) else u.errorMessage)
    case StatusChanged(s) => u.(agentState := Some(s))
    case SdkError => u.(agentState := Some(Disconnected))
  }

  /**
   * The calls an event makes, in order: at most one; only the call button and
   * a granted microphone call out; the session is ended only from a call in
   * progress, and a session is only started with the configured agent.
   */
  function Effects(u: Screen, e: Event, agentId: string): (r: seq<SdkCall>)
    ensures |r| <= 1
    ensures r != [] ==> e.Call? || e.MicrophoneGranted?
    ensures EndSession in r ==> IsCallActive(u.agentState)
    ensures GetUserMedia in r ==> IsIdle(u.agentState)
    ensures forall a :: StartSession(a) in r ==> a == agentId
  {
    match e
    case Call =>
      if IsIdle(u.agentState) then [GetUserMedia]
      else if IsCallActive(u.agentState) then [EndSession]
      else []
    case MicrophoneGranted => [StartSession(agentId)]
    case _ => []
  }

  /** The button is disabled exactly in the states where pressing it would do nothing. */
  lemma CallIgnoredIffDisabled(u: Screen, agentId: string)
    ensures Next(u, Call) == u && Effects(u, Call, agentId) == [] <==> Render(u).buttonDisabled
  {
  }

  /** A call attempt starts from a clean slate: the error is cleared and the state is connecting. */
  lemma CallFromIdleClearsError(u: Screen, agentId: string)
    requires IsIdle(u.agentState)
    ensures Next(u, Call) == Screen(Some(Connecting), None)
    ensures Effects(u, Call, agentId) == [GetUserMedia]
    ensures Render(Next(u, Call)).buttonDisabled
  {
  }

  /**
   * A failed start always ends disconnected, and shows an error exactly when
   * the microphone permission was refused or an error was already shown.
   */
  lemma StartFailureDisconnects(u: Screen, t: Thrown)
    ensures Next(u, StartFailed(t)).agentState == Some(Disconnected)
    ensures Next(u, StartFailed(t)).errorMessage.Some?
        <==> t == DomException(NotAllowed) || u.errorMessage.Some?
    ensures t == DomException(NotAllowed) ==> Render(Next(u, StartFailed(t))).panel == ErrorText(MicPermissionMessage)
  {
  }

  /** The states the page can be in: never `null`, and no error but the microphone one. */
  predicate Reachable(u: Screen)
  {
    u.agentState.Some? && (u.errorMessage.None? || u.errorMessage == Some(MicPermissionMessage))
  }

  lemma NextKeepsReachable(u: Screen, e: Event)
    requires Reachable(u)
    ensures Reachable(Next(u, e))
  {
  }

  /** The state after a sequence of events. */
  function Run(u: Screen, events: seq<Event>): Screen
    decreases |events|
  {
    if events == [] then u else Run(Next(u, events[0]), events[1..])
  }

  /** Every state the page reaches from its first render is `Reachable`. */
  lemma {:induction false} RunKeepsReachable(u: Screen, events: seq<Event>)
    requires Reachable(u)
    ensures Reachable(Run(u, events))
    decreases |events|
  {
    if events != [] {
      NextKeepsReachable(u, events[0]);
      RunKeepsReachable(Next(u, events[0]), events[1..]);
    }
  }

  /** An error is on screen only if the microphone permission was refused along the way. */
  lemma {:induction false} ErrorNeedsRefusal(u: Screen, events: seq<Event>)
    ensures Run(u, events).errorMessage.Some? ==>
              u.errorMessage.Some? || StartFailed(DomException(NotAllowed)) in events
    decreases |events|
  {
    if events != [] {
      ErrorNeedsRefusal(Next(u, events[0]), events[1..]);
      assert events == [events[0]] + events[1..];
    }
  }

  /** From the first render: never `null`, and any error shown is the refused-microphone one. */
  lemma InitialRuns(events: seq<Event>)
    ensures Run(Initial, events).agentState.Some?
    ensures Run(Initial, events).errorMessage.Some? ==>
              Run(Initial, events).errorMessage == Some(MicPermissionMessage)
              && StartFailed(DomException(NotAllowed)) in events
  {
    RunKeepsReachable(Initial, events);
    ErrorNeedsRefusal(Initial, events);
  }

  /** `VoiceChatInterface`: the page's state and the calls it has made so far. */
  class VoiceChatInterface {
    var agentState: AgentState
    var errorMessage: Option<string>
    var sdkCalls: seq<SdkCall>
    const agentId: string

    function State(): Screen
      reads this
    {
      Screen(agentState, errorMessage)
    }

    /** The first render; `env` is the configured agent id, if any. */
    constructor (env: Option<string>)
      ensures State() == Initial && sdkCalls == [] && agentId == AgentId(env)
    {
      agentState := Some(Disconnected);
      errorMessage := None;
      sdkCalls := [];
      agentId := AgentId(env);
    }

    /**
     * `handleCall`: from idle, mark the call as connecting and begin
     * `startConversation` (clear the error, ask for the microphone); in a
     * call, end the session; while transitioning, nothing.
     */
    method HandleCall()
      modifies this
      ensures State() == Next(old(State()), Call)
      ensures sdkCalls == old(sdkCalls) + Effects(old(State()), Call, agentId)
    {
      if agentState == Some(Disconnected) || agentState == None {
        agentState := Some(Connecting);
        errorMessage := None;
        sdkCalls := sdkCalls + [GetUserMedia];
      } else if agentState == Some(Connected) {
        sdkCalls := sdkCalls + [EndSession];
        agentState := Some(Disconnected);
      }
    }

    /** `getUserMedia` resolved: `startConversation` opens the session with the configured agent. */
    method MicrophoneGranted()
      modifies this
      ensures State() == Next(old(State()), Event.MicrophoneGranted)
      ensures sdkCalls == old(sdkCalls) + Effects(old(State()), Event.MicrophoneGranted, agentId)
    {
      sdkCalls := sdkCalls + [StartSession(agentId)];
    }

    /** The `catch` of `startConversation`. */
    method StartConversationFailed(t: Thrown)
      modifies this
      ensures State() == Next(old(State()), StartFailed(t))
      ensures sdkCalls == old(sdkCalls)
    {
      agentState := Some(Disconnected);
      if t.DomException? && t.name == NotAllowed {
        errorMessage := Some(MicPermissionMessage);
      }
    }

    /** The SDK's `onStatusChange`: the page adopts the reported status. */
    method OnStatusChange(s: Status)
      modifies this
      ensures State() == Next(old(State()), StatusChanged(s))
      ensures sdkCalls == old(sdkCalls)
    {
      agentState := Some(s);
    }

    /** The SDK's `onError`: back to disconnected, whatever the state. */
    method OnError()
      modifies this
      ensures State() == Next(old(State()), SdkError)
      ensures sdkCalls == old(sdkCalls)
    {
      agentState := Some(Disconnected);
    }
  }
}
