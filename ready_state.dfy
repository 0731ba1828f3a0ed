/**
 * The ready handshake of the React viewer page (`ReadyStateManager`): the
 * page tells the host it is `ready` once both its message listener and its
 * DOM are set up, and never a second time.
 */
module ReadyState {
  import opened Messages

  /** The two notifications the manager receives. */
  datatype Call = ListenerReady | DomReady

  /** The manager's three flags and the number of `ready` messages posted to the host. */
  datatype Flags = Flags(eventListenerReady: bool, domReady: bool, readySent: bool, posted: nat)

  const Initial := Flags(false, false, false, 0)

  /**
   * One notification: set its flag, then `checkAndSendReady`. `hasHost` is
   * whether `window.vscode` exists; `readySent` is set either way.
   */
  function Step(f: Flags, c: Call, hasHost: bool): Flags
  {
    Check(SetFlag(f, c), hasHost)
  }

  function SetFlag(f: Flags, c: Call): Flags
  {
    match c
      case ListenerReady => f.(eventListenerReady := true)
      case DomReady => f.(domReady := true)
  }

  /** `checkAndSendReady`. */
  function Check(g: Flags, hasHost: bool): Flags
  {
    if g.eventListenerReady && g.domReady && !g.readySent then
      g.(readySent := true, posted := g.posted + (if hasHost then 1 else 0))
    else g
  }

  /** The flags after a sequence of notifications, starting from the initial ones. */
  function Run(calls: seq<Call>, hasHost: bool): Flags
  {
    if |calls| == 0 then Initial else Step(Run(calls[..|calls| - 1], hasHost), calls[|calls| - 1], hasHost)
  }

  /**
   * Whatever the order and repetition of the notifications: each flag is set
   * iff its notification came, `ready` counts as sent iff both came, and it
   * is posted exactly once when both came and a host exists, else never.
   */
  lemma {:induction false} RunSendsOnce(calls: seq<Call>, hasHost: bool)
    ensures var f := Run(calls, hasHost);
      && (f.eventListenerReady <==> ListenerReady in calls)
      && (f.domReady <==> DomReady in calls)
      && (f.readySent <==> ListenerReady in calls && DomReady in calls)
      && f.posted == (if hasHost && ListenerReady in calls && DomReady in calls then 1 else 0)
  {
    if |calls| > 0 {
      var init := calls[..|calls| - 1];
      RunSendsOnce(init, hasHost);
      assert calls == init + [calls[|calls| - 1]];
      assert forall c :: c in calls <==> c in init || c == calls[|calls| - 1];
    }
  }

  class ReadyStateManager {
    var eventListenerReady: bool
    var domReady: bool
    var readySent: bool
    /** Whether the page runs inside the editor's webview (`window.vscode`). */
    const hasHost: bool
    /** Messages posted to the host. */
    var sent: seq<Message>
    /** The notifications received so far. */
    ghost var calls: seq<Call>

    /** The flags and the posted messages are those the notifications so far produce. */
    ghost predicate Valid()
      reads this
    {
      && Flags(eventListenerReady, domReady, readySent, |sent|) == Run(calls, hasHost)
      && forall i :: 0 <= i < |sent| ==> sent[i] == Ready
    }

    /** All three flags start false and nothing is posted. */
    constructor (hasHost: bool)
      ensures Valid() && this.hasHost == hasHost
      ensures !eventListenerReady && !domReady && !readySent && sent == [] && calls == []
    {
      eventListenerReady := false;
      domReady := false;
      readySent := false;
      this.hasHost := hasHost;
      sent := [];
      calls := [];
    }

    method SetEventListenerReady()
      requires Valid()
      modifies this
      ensures Valid() && calls == old(calls) + [ListenerReady]
    {
      eventListenerReady := true;
      CheckAndSendReady(ListenerReady);
    }

    method SetDomReady()
      requires Valid()
      modifies this
      ensures Valid() && calls == old(calls) + [DomReady]
    {
      domReady := true;
      CheckAndSendReady(DomReady);
    }

    /** `checkAndSendReady`, after the flag of notification `c` has been set. */
    method CheckAndSendReady(ghost c: Call)
      requires Flags(eventListenerReady, domReady, readySent, |sent|) == SetFlag(Run(calls, hasHost), c)
      requires forall i :: 0 <= i < |sent| ==> sent[i] == Ready
      modifies this`readySent, this`sent, this`calls
      ensures Valid() && calls == old(calls) + [c]
    {
      calls := calls + [c];
      if eventListenerReady && domReady && !readySent {
        readySent := true;
        if hasHost {
          sent := sent + [Ready];
        }
      }
    }
  }

  /** Sent after the two notifications in either order: exactly one `ready`, when a host exists. */
  method ReadyOnceEitherOrder(hasHost: bool, domFirst: bool) returns (sent: seq<Message>)
    ensures sent == if hasHost then [Ready] else []
  {
    var m := new ReadyStateManager(hasHost);
    if domFirst {
      m.SetDomReady();
      m.SetEventListenerReady();
    } else {
      m.SetEventListenerReady();
      m.SetDomReady();
    }
    m.SetDomReady();
    RunSendsOnce(m.calls, hasHost);
    sent := m.sent;
  }
}
