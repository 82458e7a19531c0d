/**
 * `RadiumDevToolsManagerDelegate`: the process-wide DevTools delegate, which
 * keeps one session per attached client channel and routes each command to
 * its channel's session. Channels and web contents are named by numbers;
 * whether a web contents belongs to a `views::WebView` is an input.
 */
module RadiumDevToolsManagerDelegate {
  import S = RadiumDevToolsSession

  /** `content::DevToolsAgentHost::kTypePage`, `kTypeOther`. */
  const TypePage: string := "page"
  const TypeOther: string := "other"

  /** How routing a command ended. */
  datatype HandleResult =
    | Routed                // passed to the channel's session
    | UnknownChannel        // the callback ran with the message, then `NOTREACHED()` was hit

  class RadiumDevToolsManagerDelegate {
    /** `sessions_`. */
    var sessions: map<nat, S.RadiumDevToolsSession>
    /** Whether `keep_alive_` holds a keep-alive. */
    var keepAlive: bool

    /** Each session belongs to the channel it is stored under. */
    ghost predicate Valid()
      reads this, sessions.Values
    {
      forall c :: c in sessions ==> sessions[c].channel == c
    }

    /** The constructor: there must be no instance yet, and the new delegate becomes it. */
    constructor (g: Globals)
      requires g.instance == null
      modifies g
      ensures Valid() && sessions == map[] && !keepAlive
      ensures g.instance == this
    {
      sessions := map[];
      keepAlive := false;
      new;
      g.instance := this;
    }

    /** The destructor: this delegate must be the instance, which is cleared. */
    method Destroy(g: Globals)
      requires g.instance == this
      modifies g
      ensures g.instance == null
    {
      g.instance := null;
    }

    /** `ClientAttached`: a channel not yet attached gets one new session. */
    method ClientAttached(channel: nat)
      requires Valid() && channel !in sessions
      modifies this
      ensures Valid() && keepAlive == old(keepAlive)
      ensures sessions.Keys == old(sessions).Keys + {channel}
      ensures fresh(sessions[channel]) && sessions[channel].pending == map[] && sessions[channel].events == []
      ensures forall c :: c in old(sessions) ==> sessions[c] == old(sessions)[c]
    {
      var session := new S.RadiumDevToolsSession(channel);
      sessions := sessions[channel := session];
    }

    /** `ClientDetached`: the channel's session, if any, goes. */
    method ClientDetached(channel: nat)
      requires Valid()
      modifies this
      ensures Valid() && keepAlive == old(keepAlive)
      ensures sessions == old(sessions) - {channel}
    {
      sessions := sessions - {channel};
    }

    /**
     * `HandleCommand`: a command on an attached channel goes to that
     * channel's session; on an unknown channel the callback gets the message
     * back (`UnknownChannel`). Sessions are told apart by their channel, so
     * every other session is left as it was.
     */
    method HandleCommand(channel: nat, message: S.Bytes, callId: int, methodFound: bool, callback: nat)
      returns (r: HandleResult, handedBack: seq<S.Event>)
      requires Valid()
      modifies sessions.Values
      ensures channel !in sessions ==> r == UnknownChannel && handedBack == [S.CallbackRun(callback, message)]
      ensures channel in sessions ==>
              r == Routed && handedBack == [] &&
              (!methodFound ==> sessions[channel].pending == old(sessions[channel].pending) &&
                                sessions[channel].events == old(sessions[channel].events) + [S.CallbackRun(callback, message)]) &&
              (methodFound ==> sessions[channel].pending == old(sessions[channel].pending)[callId := callback] &&
                               sessions[channel].events == old(sessions[channel].events) + [S.Dispatched(callId)])
      ensures Valid() && sessions == old(sessions) && keepAlive == old(keepAlive)
      ensures forall c :: c in sessions && c != channel ==>
                sessions[c].pending == old(sessions[c].pending) && sessions[c].events == old(sessions[c].events)
    {
      if channel !in sessions {
        return UnknownChannel, [S.CallbackRun(callback, message)];
      }
      sessions[channel].HandleCommand(message, callId, methodFound, callback);
      r, handedBack := Routed, [];
    }

    /** `AllowInspectingRenderFrameHost`: every frame may be inspected. */
    method AllowInspectingRenderFrameHost(frame: nat) returns (r: bool)
      ensures r
    {
      r := true;
    }
  }

  /** `g_instance`. */
  class Globals {
    var instance: RadiumDevToolsManagerDelegate?

    constructor ()
      ensures instance == null
    {
      instance := null;
    }

    /** `AllowBrowserToClose`: the instance, if any, drops its keep-alive. */
    method AllowBrowserToClose()
      modifies if instance != null then {instance} else {}
      ensures instance != null ==> !instance.keepAlive && instance.sessions == old(instance.sessions)
    {
      if instance != null {
        instance.keepAlive := false;
      }
    }
  }

  /** `GetTargetType`: a page when the contents belongs to a WebView, anything else otherwise. */
  function GetTargetType(isWebViewContents: bool): (r: string)
    ensures r == TypePage <==> isWebViewContents
    ensures r in {TypePage, TypeOther}
  {
    if isWebViewContents then TypePage else TypeOther
  }

  /** Attaching, routing a known command, and detaching: the session saw the command, and afterwards no session is left. */
  method AttachRouteDetach(channel: nat, message: S.Bytes, callId: int, callback: nat)
    returns (routed: HandleResult, pendingThen: map<int, nat>, left: nat)
    ensures routed == Routed && pendingThen == map[callId := callback] && left == 0
  {
    var g := new Globals();
    var d := new RadiumDevToolsManagerDelegate(g);
    d.ClientAttached(channel);
    var handedBack;
    routed, handedBack := d.HandleCommand(channel, message, callId, true, callback);
    pendingThen := d.sessions[channel].pending;
    d.ClientDetached(channel);
    left := |d.sessions|;
  }
}
