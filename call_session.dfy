/** The voice page's call-session controller: the six state fields the page
    keeps, the platform event handlers that overwrite them, `toggleCall`, and
    the start button's label and enablement derived from them. */
module GenerateProgramPage {
  import opened Js
  import opened Transcript

  /** The lifecycle the three flags encode when at most one of them is set. */
  datatype Status = Idle | Connecting | Active | Ended

  /** The signed-in user as `useUser()` reports it. */
  datatype User = User(id: string, firstName: Option<string>, lastName: Option<string>)

  /** The `variableValues` passed to the platform's `start`. */
  datatype StartVariables = StartVariables(
    fullName: string,
    userId: string,
    currentDay: string,
    rolePersona: string,
    dayFormatInstruction: string)

  /** What `toggleCall` asks of the voice platform. */
  datatype PlatformCall = NoCall | Stop | Start(workflowId: string, variables: StartVariables)

  const RolePersona := "Nutrition and Fitness Coach"
  const DayFormatInstruction :=
    "Please refer to workout days by their name (e.g., Monday, Tuesday) starting from today, rather than saying Day 1 or Day 2."

  /** `${first || ""} ${last || ""}`.trim() || "Guest" */
  function FullName(user: User): (r: string)
    ensures r != "" && !IsJsSpace(r[0]) && !IsJsSpace(r[|r| - 1])
    ensures JoinedName(user.firstName, user.lastName) != "" ==> r == JoinedName(user.firstName, user.lastName)
    ensures JoinedName(user.firstName, user.lastName) == "" ==> r == "Guest"
    ensures user.firstName.None? && user.lastName.None? ==> r == "Guest"
  {
    var n := JoinedName(user.firstName, user.lastName);
    if n == "" then "Guest" else n
  }

  /** The variables sent with a new call: the user's display name and id,
      today's weekday, and the fixed persona and day-naming instruction. */
  function StartVariablesFor(user: User, today: string): (v: StartVariables)
    ensures v.fullName != "" && v.fullName == FullName(user)
    ensures v.userId == user.id && v.currentDay == today
    ensures v.rolePersona == RolePersona && v.dayFormatInstruction == DayFormatInstruction
  {
    StartVariables(FullName(user), user.id, today, RolePersona, DayFormatInstruction)
  }

  /** The button's text. */
  function ButtonLabel(connecting: bool, callActive: bool, callEnded: bool): (r: string)
    ensures r == "CONNECTING..." <==> connecting
    ensures r == "END CALL" <==> !connecting && callActive
    ensures r == "REDIRECTING..." <==> !connecting && !callActive && callEnded
    ensures r == "START CALL" <==> !connecting && !callActive && !callEnded
  {
    if connecting then "CONNECTING..."
    else if callActive then "END CALL"
    else if callEnded then "REDIRECTING..."
    else "START CALL"
  }

  /** The button is clickable unless connecting, ended, or the user is not loaded. */
  predicate ButtonEnabled(connecting: bool, callEnded: bool, isLoaded: bool): (r: bool)
    ensures r <==> isLoaded && !connecting && !callEnded
  {
    !(connecting || callEnded || !isLoaded)
  }

  /** The coach card's status line. */
  function SpeakerStatus(isSpeaking: bool, callActive: bool): (r: string)
    ensures r == "Speaking" <==> isSpeaking
    ensures r == "Listening" <==> !isSpeaking && callActive
    ensures r == "Standby" <==> !isSpeaking && !callActive
  {
    if isSpeaking then "Speaking" else if callActive then "Listening" else "Standby"
  }

  /** A clickable button reads START CALL or END CALL, the latter exactly
      during a call. */
  lemma EnabledButtonLabel(connecting: bool, callActive: bool, callEnded: bool, isLoaded: bool)
    requires ButtonEnabled(connecting, callEnded, isLoaded)
    ensures ButtonLabel(connecting, callActive, callEnded) in {"START CALL", "END CALL"}
    ensures ButtonLabel(connecting, callActive, callEnded) == "END CALL" <==> callActive
  {
  }

  class CallSession {
    var callActive: bool
    var connecting: bool
    var isSpeaking: bool
    var messages: seq<Entry>
    var callEnded: bool
    /** The last `volume-level` reading, kept opaque. */
    var volume: real

    /** At most one of connecting, active and ended holds. */
    ghost predicate Valid()
      reads this
    {
      !(connecting && callActive) && !(callEnded && (connecting || callActive))
    }

    function Status(): (s: Status)
      reads this
      requires Valid()
      ensures s == Connecting <==> connecting
      ensures s == Active <==> callActive
      ensures s == Ended <==> callEnded
      ensures s == Idle <==> !connecting && !callActive && !callEnded
    {
      if connecting then Connecting
      else if callActive then Active
      else if callEnded then Ended
      else Idle
    }

    /** The label the button shows in each status. */
    lemma LabelOfStatus()
      requires Valid()
      ensures ButtonLabel(connecting, callActive, callEnded) == match Status()
        case Idle => "START CALL"
        case Connecting => "CONNECTING..."
        case Active => "END CALL"
        case Ended => "REDIRECTING..."
    {
    }

    constructor ()
      ensures Valid() && Status() == Idle
      ensures !isSpeaking && messages == [] && volume == 0.0
    {
      callActive, connecting, isSpeaking := false, false, false;
      messages, callEnded, volume := [], false, 0.0;
    }

    /** `call-start`: the call is up; it also clears an earlier end. */
    method OnCallStart()
      modifies this
      ensures Valid() && Status() == Active
      ensures !connecting && callActive && !callEnded
      ensures isSpeaking == old(isSpeaking) && messages == old(messages) && volume == old(volume)
    {
      connecting := false;
      callActive := true;
      callEnded := false;
    }

    /** `call-end`, from any state. */
    method OnCallEnd()
      modifies this
      ensures Valid() && Status() == Ended
      ensures !callActive && !connecting && !isSpeaking && callEnded
      ensures messages == old(messages) && volume == old(volume)
    {
      callActive := false;
      connecting := false;
      isSpeaking := false;
      callEnded := true;
    }

    method OnSpeechStart()
      modifies this
      ensures old(Valid()) ==> Valid()
      ensures isSpeaking
      ensures callActive == old(callActive) && connecting == old(connecting) && callEnded == old(callEnded)
      ensures messages == old(messages) && volume == old(volume)
    {
      isSpeaking := true;
    }

    method OnSpeechEnd()
      modifies this
      ensures old(Valid()) ==> Valid()
      ensures !isSpeaking
      ensures callActive == old(callActive) && connecting == old(connecting) && callEnded == old(callEnded)
      ensures messages == old(messages) && volume == old(volume)
    {
      isSpeaking := false;
    }

    method OnVolumeLevel(level: real)
      modifies this
      ensures old(Valid()) ==> Valid()
      ensures volume == level
      ensures callActive == old(callActive) && connecting == old(connecting) && callEnded == old(callEnded)
      ensures isSpeaking == old(isSpeaking) && messages == old(messages)
    {
      volume := level;
    }

    /** `message`: folded into the transcript by the reconciler. */
    method OnMessage(m: VapiMessage)
      modifies this
      ensures old(Valid()) ==> Valid()
      ensures messages == Reduce(old(messages), m)
      ensures callActive == old(callActive) && connecting == old(connecting) && callEnded == old(callEnded)
      ensures isSpeaking == old(isSpeaking) && volume == old(volume)
    {
      messages := Reduce(messages, m);
    }

    /** `error`: back to a state from which a call can be retried; an ended
        session stays ended. */
    method OnError()
      modifies this
      ensures Valid() && Status() == if old(callEnded) then Ended else Idle
      ensures !connecting && !callActive
      ensures callEnded == old(callEnded) && isSpeaking == old(isSpeaking)
      ensures messages == old(messages) && volume == old(volume)
    {
      connecting := false;
      callActive := false;
    }

    /** The button's handler. During a call it only asks the platform to
        stop; without a loaded user it does nothing; otherwise it clears the
        transcript and the ended flag and starts a call as the user, and a
        failed start drops back out of connecting. */
    method ToggleCall(isLoaded: bool, user: Option<User>, workflowId: string, today: string, startSucceeds: bool)
      returns (call: PlatformCall)
      modifies this
      ensures old(Valid()) ==> Valid()
      ensures old(callActive) ==> call == Stop
      ensures !old(callActive) && (!isLoaded || user.None?) ==> call == NoCall
      ensures old(callActive) || !isLoaded || user.None? ==>
        && callActive == old(callActive) && connecting == old(connecting) && callEnded == old(callEnded)
        && isSpeaking == old(isSpeaking) && messages == old(messages) && volume == old(volume)
      ensures !old(callActive) && isLoaded && user.Some? ==>
        && call == Start(workflowId, StartVariablesFor(user.value, today))
        && Valid() && Status() == (if startSucceeds then Connecting else Idle)
        && connecting == startSucceeds && !callActive && !callEnded && messages == []
        && isSpeaking == old(isSpeaking) && volume == old(volume)
    {
      if callActive {
        call := Stop;
      } else if !isLoaded || user.None? {
        call := NoCall;
      } else {
        connecting := true;
        messages := [];
        callEnded := false;
        call := Start(workflowId, StartVariablesFor(user.value, today));
        if !startSucceeds {
          connecting := false;
        }
      }
    }
  }
}
