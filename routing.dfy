/**
 * The two message-routing entry points of the conductor, as functions from a message and
 * the world to the calls the router makes and how it ends.
 */
module Routing {
  import opened Wrappers
  import opened Collaborators

  /** `InboundSession.REPLY_MODE_NONE`, the reply mode that asks for no direct response. */
  const ReplyModeNone: string := "none"

  /** The receipt asks for a direct response: a mode is set (truthy) and it is not "none". */
  predicate WantsDirectResponse(receipt: MessageReceipt)
  {
    match receipt.directResponseMode
    case None => false
    case Some(mode) => mode != "" && mode != ReplyModeNone
  }

  /** The single `queue_message` call the inbound router makes for `message`. */
  function Enqueue(message: InboundMessage): Event
  {
    QueueMessage(message, OutboundRouter, DispatchComplete(message))
  }

  /** What one call of the inbound router does: its calls, in order, and how it ends. */
  datatype Queued = Queued(events: seq<Event>, result: Outcome<Exc>)

  /** `inbound_message_router`: warn when a direct response is requested, then always enqueue. */
  function InboundRoute(message: InboundMessage, w: World): (r: Queued)
    // the last call enqueues the message itself, unchanged, with the outbound router as
    // responder and a completion callback that reports on this same message
    ensures |r.events| >= 1 && r.events[|r.events| - 1] == Enqueue(message)
    ensures forall task, info ::
              r.events[|r.events| - 1].completion.Call(task, info) == DispatchCompleted(message, task, info)
    // it is the only enqueue: whatever comes before it is the warning, logged at most once
    ensures forall i :: 0 <= i < |r.events| - 1 ==> r.events[i] == WarnDirectResponse(message.transportType)
    ensures |r.events| <= 2
    // the warning is logged exactly when a direct response is requested
    ensures WarnDirectResponse(message.transportType) in r.events <==> WantsDirectResponse(message.receipt)
    // the router raises only what queue_message raises
    ensures r.result.Fail? <==> Fails(w, Enqueue(message))
    ensures r.result.Fail? ==> w.raises(Enqueue(message)) == Some(r.result.error)
  {
    var warning := if WantsDirectResponse(message.receipt) then [WarnDirectResponse(message.transportType)] else [];
    var q := Enqueue(message);
    Queued(warning + [q], if Fails(w, q) then Fail(w.raises(q).value) else Pass)
  }

  /** What one call of the outbound router does: the message afterwards, its calls, how it ends. */
  datatype Routed = Routed(message: OutboundFields, events: seq<Event>, result: Outcome<Exc>)

  /** `outbound.target or outbound.target_list`: an explicit target, or a non-empty target list. */
  predicate HasTargets(m: OutboundFields)
  {
    m.target.Some? || (m.targetList.Some? && m.targetList.value != [])
  }

  /** Targets are resolved only with no target, no (or an empty) target list, and a connection id. */
  predicate NeedsResolution(m: OutboundFields)
  {
    !HasTargets(m) && m.connectionId.Some? && m.connectionId.value != ""
  }

  /** The exception the router catches around `call` (and drops the message on). */
  function Caught(call: Event): Exc
  {
    if call.GetConnectionTargets? then ConnectionManagerError else OutboundDeliveryError
  }

  /** Hand `m` to the outbound transport manager after the calls `prior`. */
  function Delivery(context: Context, m: OutboundFields, prior: seq<Event>, w: World): Routed
  {
    var call := Deliver(context, m);
    match w.raises(call)
    case None => Routed(m, prior + [call], Pass)
    case Some(e) => Routed(m, prior + [call], if e == OutboundDeliveryError then Pass else Fail(e))
  }

  /** `outbound_message_router`: resolve connection targets when needed, then deliver once. */
  function RouteOutbound(context: Context, m: OutboundFields, w: World): (r: Routed)
    // target_list is the only field the router may change, and only to the resolved targets
    ensures r.message == m.(targetList := r.message.targetList)
    ensures r.message != m ==>
      NeedsResolution(m) && r.message.targetList == Some(w.targets(context, m.connectionId.value))
    // with a target, a non-empty target list or no connection id: no lookup, and the
    // unchanged message is delivered exactly once
    ensures !NeedsResolution(m) ==> r.message == m && r.events == [Deliver(context, m)]
    // otherwise the lookup comes first; if it succeeds the resolved message is delivered once,
    // if it raises nothing is delivered
    ensures NeedsResolution(m) ==>
      var lookup := GetConnectionTargets(context, m.connectionId.value);
      && |r.events| >= 1 && r.events[0] == lookup
      && (Fails(w, lookup) ==> r.events == [lookup] && r.message == m)
      && (!Fails(w, lookup) ==>
            r.message.targetList == Some(w.targets(context, m.connectionId.value))
            && r.events == [lookup, Deliver(context, r.message)])
    // a ConnectionManagerError from the lookup drops the message: the router returns normally
    ensures NeedsResolution(m)
              && w.raises(GetConnectionTargets(context, m.connectionId.value)) == Some(ConnectionManagerError)
            ==> r.result.Pass? && forall e | e in r.events :: !e.Deliver?
    // an OutboundDeliveryError from deliver drops the message: no retry, the router returns normally
    ensures Deliver(context, r.message) in r.events
              && w.raises(Deliver(context, r.message)) == Some(OutboundDeliveryError)
            ==> r.result.Pass? && r.events[|r.events| - 1] == Deliver(context, r.message)
    // every other exception of the last call propagates unchanged; nothing else raises
    ensures |r.events| >= 1
    ensures r.result.Fail? ==>
      w.raises(r.events[|r.events| - 1]) == Some(r.result.error) && r.result.error != Caught(r.events[|r.events| - 1])
    ensures r.result.Pass? ==>
      w.raises(r.events[|r.events| - 1]) in {None, Some(Caught(r.events[|r.events| - 1]))}
  {
    if NeedsResolution(m) then
      var id := m.connectionId.value;
      var lookup := GetConnectionTargets(context, id);
      match w.raises(lookup)
      case None => Delivery(context, m.(targetList := Some(w.targets(context, id))), [lookup], w)
      case Some(e) => Routed(m, [lookup], if e == ConnectionManagerError then Pass else Fail(e))
    else
      Delivery(context, m, [], w)
  }

  /**
   * A message with only a connection id whose targets resolve to `[t1, t2]` is delivered with
   * exactly that target list.
   */
  lemma ResolvedTargetsAreDelivered(context: Context, m: OutboundFields, w: World,
                                    t1: ConnectionTarget, t2: ConnectionTarget)
    requires m.target.None? && m.targetList.None? && m.connectionId == Some("c1")
    requires w.targets(context, "c1") == [t1, t2] && !Fails(w, GetConnectionTargets(context, "c1"))
    ensures RouteOutbound(context, m, w).message.targetList == Some([t1, t2])
    ensures Deliver(context, m.(targetList := Some([t1, t2]))) in RouteOutbound(context, m, w).events
  {
  }
}
