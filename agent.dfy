/**
 * The conductor itself: an object whose methods make the collaborator calls of setup, start,
 * stop and the two routers, update its fields in place, and record every call in a ghost
 * trace. Each method is proved to do exactly what the matching function of `Lifecycle` or
 * `Routing` describes.
 */
module Agent {
  import opened Wrappers
  import opened Config
  import opened Collaborators
  import opened Lifecycle
  import opened Routing
  import opened LifecycleProperties

  /** An outbound message; the outbound router may fill in its `target_list`. */
  class OutboundMessage {
    var payload: string
    var connectionId: Option<string>
    var target: Option<ConnectionTarget>
    var targetList: Option<seq<ConnectionTarget>>

    /** The message's fields as a value. */
    function Fields(): OutboundFields
      reads this
    {
      OutboundFields(payload, connectionId, target, targetList)
    }

    constructor (fields: OutboundFields)
      ensures Fields() == fields
    {
      payload := fields.payload;
      connectionId := fields.connectionId;
      target := fields.target;
      targetList := fields.targetList;
    }
  }

  /** The conductor: the context builder it was made with and the components setup creates. */
  class Conductor {
    const contextBuilder: ContextBuilder
    var adminServer: Option<AdminServer>
    var context: Option<Context>
    var dispatcher: Option<Dispatcher>
    var inboundTransportManager: Option<InboundTransportManager>
    var outboundTransportManager: Option<OutboundTransportManager>
    /** The collaborator calls made so far, in order. */
    ghost var trace: seq<Event>

    /** The conductor's fields as a value. */
    function State(): ConductorState
      reads this
    {
      ConductorState(adminServer, context, dispatcher, inboundTransportManager, outboundTransportManager)
    }

    /** `__init__`: every component unset. */
    constructor (builder: ContextBuilder)
      ensures contextBuilder == builder && State() == Initial && trace == []
    {
      contextBuilder := builder;
      adminServer := None;
      context := None;
      dispatcher := None;
      inboundTransportManager := None;
      outboundTransportManager := None;
      trace := [];
    }

    /** Make one collaborator call: it is recorded, and it raises what the world says. */
    method Invoke(e: Event, w: World) returns (raised: Option<Exc>)
      modifies this`trace
      ensures trace == old(trace) + [e] && raised == w.raises(e)
    {
      trace := trace + [e];
      raised := w.raises(e);
    }

    /** Log `e`: recorded, and never raises. */
    method Log(e: Event)
      modifies this`trace
      ensures trace == old(trace) + [e]
    {
      trace := trace + [e];
    }

    /**
     * The loop of setup that registers each webhook url, stopping at the first that raises.
     * `r` is the run so far, whose calls `trace` ends with.
     */
    method AddWebhookTargets(urls: seq<Value>, w: World, ghost before: seq<Event>, ghost r: Run)
      returns (result: Outcome<Exc>)
      requires r.result.Pass? && trace == before + r.events
      modifies this`trace
      ensures var out := Steps(r, WebhookCalls(urls), w);
              trace == before + out.events && result == out.result
    {
      ghost var calls := WebhookCalls(urls);
      ghost var out := Steps(r, calls, w);
      ghost var g := r;
      var i := 0;
      while i < |urls|
        invariant 0 <= i <= |urls|
        invariant g.result.Pass? && trace == before + g.events
        invariant Steps(g, calls[i..], w) == out
      {
        StepsFrom(g, calls, i, w);
        ghost var before' := before + g.events;
        g := Call(g, calls[i], w, g.state);
        var raised := Invoke(AddWebhookTarget(urls[i]), w);
        if raised.Some? {
          return Fail(raised.value);
        }
        assert trace == before' + [calls[i]];
        assert before + g.events == before' + [calls[i]];
        assert Steps(g, calls[i + 1..], w) == out;
        i := i + 1;
        assert g.result.Pass? && trace == before + g.events;
        assert Steps(g, calls[i..], w) == out;
      }
      StepsOfNoCall(g, w);
      result := Pass;
    }

    /**
     * The first part of `setup`: build the context, then create the dispatcher and the two
     * transport managers, setting each manager up right after it is assigned.
     */
    method SetupCore(built: Context, w: World) returns (result: Outcome<Exc>)
      requires built == Context(contextBuilder.settings)
      modifies this`dispatcher, this`inboundTransportManager, this`outboundTransportManager, this`trace
      ensures var core := CoreSetup(contextBuilder, old(State()), w);
              State() == core.state && trace == old(trace) + core.events && result == core.result
    {
      ghost var r := Run(State(), [], Pass);
      result := CreateDispatcher(built, w, old(trace), r);
      r := DispatcherSetup(r, built, w);
      if result.Fail? {
        return;
      }
      result := CreateInboundTransports(built, w, old(trace), r);
      r := InboundSetup(r, built, w);
      if result.Fail? {
        return;
      }
      result := CreateOutboundTransports(built, w, old(trace), r);
    }

    /** Build the context, then create the dispatcher. `r` is the run so far, whose calls `trace` ends with. */
    method CreateDispatcher(built: Context, w: World, ghost before: seq<Event>, ghost r: Run)
      returns (result: Outcome<Exc>)
      requires r.result.Pass? && State() == r.state && trace == before + r.events
      modifies this`dispatcher, this`trace
      ensures var out := DispatcherSetup(r, built, w);
              State() == out.state && trace == before + out.events && result == out.result
    {
      var raised := Invoke(BuildContext, w);
      if raised.Some? {
        return Fail(raised.value);
      }
      raised := Invoke(NewDispatcher(built), w);
      if raised.Some? {
        return Fail(raised.value);
      }
      dispatcher := Some(Dispatcher(built));
      result := Pass;
    }

    /** Create the inbound transport manager and set up the inbound transports. */
    method CreateInboundTransports(built: Context, w: World, ghost before: seq<Event>, ghost r: Run)
      returns (result: Outcome<Exc>)
      requires r.result.Pass? && State() == r.state && trace == before + r.events
      modifies this`inboundTransportManager, this`trace
      ensures var out := InboundSetup(r, built, w);
              State() == out.state && trace == before + out.events && result == out.result
    {
      var raised := Invoke(NewInboundTransportManager(built), w);
      if raised.Some? {
        return Fail(raised.value);
      }
      inboundTransportManager := Some(InboundTransportManager(built, InboundRouter));
      raised := Invoke(SetupInboundTransports, w);
      if raised.Some? {
        return Fail(raised.value);
      }
      result := Pass;
    }

    /** Create the outbound transport manager, which runs its tasks on the dispatcher, and set up its transports. */
    method CreateOutboundTransports(built: Context, w: World, ghost before: seq<Event>, ghost r: Run)
      returns (result: Outcome<Exc>)
      requires r.result.Pass? && State() == r.state && trace == before + r.events
      requires dispatcher == Some(Dispatcher(built))
      modifies this`outboundTransportManager, this`trace
      ensures var out := OutboundSetup(r, built, w);
              State() == out.state && trace == before + out.events && result == out.result
    {
      var raised := Invoke(NewOutboundTransportManager(built), w);
      if raised.Some? {
        return Fail(raised.value);
      }
      outboundTransportManager := Some(OutboundTransportManager(built, DispatcherRunTask(dispatcher.value)));
      raised := Invoke(SetupOutboundTransports, w);
      if raised.Some? {
        return Fail(raised.value);
      }
      result := Pass;
    }

    /**
     * The admin block of `setup`: create the admin server, register each webhook url, bind the
     * server in the injector. `r` is the run so far, whose calls `trace` ends with.
     */
    method SetupAdminServer(built: Context, w: World, ghost before: seq<Event>, ghost r: Run)
      returns (result: Outcome<Exc>)
      requires r.result.Pass? && State() == r.state && trace == before + r.events
      requires dispatcher == Some(Dispatcher(built))
      modifies this`adminServer, this`trace
      ensures var out := AdminSetup(r, built, w);
              State() == out.state && trace == before + out.events && result == out.result
    {
      var host := Get(built.settings, "admin.host", Str("0.0.0.0"));
      var port := Get(built.settings, "admin.port", Str("80"));
      var server := AdminServer(host, port, built, OutboundRouter, DispatcherPutTask(dispatcher.value));
      assert server == AdminServerFor(built) && NewAdminServer(host, port) == NewAdminServerCall(built);
      var raised := Invoke(NewAdminServer(host, port), w);
      if raised.Some? {
        return Fail(raised.value);
      }
      adminServer := Some(server);
      ghost var created := Call(r, NewAdminServerCall(built), w, r.state.(adminServer := Some(server)));
      assert State() == created.state && trace == before + created.events && created.result.Pass?;
      result := RegisterWebhooks(built.settings, w, before, created);
      if result.Fail? {
        return;
      }
      result := BindAdminServer(server, w, before, WebhookSetup(created, built.settings, w));
    }

    /** Bind the admin server in the injector: the last, fatal, step of the admin block. */
    method BindAdminServer(server: AdminServer, w: World, ghost before: seq<Event>, ghost r: Run)
      returns (result: Outcome<Exc>)
      requires r.result.Pass? && trace == before + r.events
      modifies this`trace
      ensures var out := Steps(r, [BindInstance(BaseAdminServer, AdminServerInstance(server))], w);
              trace == before + out.events && result == out.result
    {
      StepsOfOneCall(r, BindInstance(BaseAdminServer, AdminServerInstance(server)), w);
      var raised := Invoke(BindInstance(BaseAdminServer, AdminServerInstance(server)), w);
      result := if raised.Some? then Fail(raised.value) else Pass;
    }

    /**
     * The webhook block of `setup`: when webhook urls are configured, iterate over them and
     * register each. `r` is the run so far, whose calls `trace` ends with.
     */
    method RegisterWebhooks(settings: Settings, w: World, ghost before: seq<Event>, ghost r: Run)
      returns (result: Outcome<Exc>)
      requires r.result.Pass? && trace == before + r.events
      modifies this`trace
      ensures var out := WebhookSetup(r, settings, w);
              trace == before + out.events && result == out.result
    {
      var urls := Get(settings, "admin.webhook_urls", Null);
      if !Truthy(urls) {
        return Pass;
      }
      var items := Iterate(urls);
      if items.None? {
        return Fail(TypeError);
      }
      result := AddWebhookTargets(items.value, w, before, r);
    }

    /**
     * The stats-collector block of `setup`: fetch the collector and, when there is one, wrap the
     * instrumented methods. `r` is the run so far, whose calls `trace` ends with.
     */
    method SetupCollector(built: Context, w: World, ghost before: seq<Event>, ghost r: Run)
      returns (result: Outcome<Exc>)
      requires r.result.Pass? && trace == before + r.events
      requires dispatcher == Some(Dispatcher(built))
      modifies this`trace
      ensures var out := CollectorSetup(r, built, w);
              trace == before + out.events && result == out.result
    {
      var raised := Invoke(InjectCollector, w);
      if raised.Some? {
        return Fail(raised.value);
      }
      if w.collector {
        result := WrapInstrumented(built, w, before, Call(r, InjectCollector, w, r.state));
        return;
      }
      result := Pass;
    }

    /** Wrap the instrumented methods with the stats collector, stopping at the first wrap that raises. */
    method WrapInstrumented(built: Context, w: World, ghost before: seq<Event>, ghost r: Run)
      returns (result: Outcome<Exc>)
      requires r.result.Pass? && trace == before + r.events
      requires dispatcher == Some(Dispatcher(built))
      modifies this`trace
      ensures var out := Steps(r, WrapCalls(built), w);
              trace == before + out.events && result == out.result
    {
      ghost var calls := WrapCalls(built);
      var raised := Invoke(Wrap(ConductorMethods, ["outbound_message_router"]), w);
      if raised.Some? {
        FirstFailureAt(calls, w, 0);
        return Fail(raised.value);
      }
      raised := Invoke(Wrap(DispatcherMethods(dispatcher.value), ["handle_message"]), w);
      if raised.Some? {
        FirstFailureAt(calls, w, 1);
        return Fail(raised.value);
      }
      raised := Invoke(Wrap(ConnectionManagerClass, ["get_connection_targets",
          "fetch_did_document", "find_message_connection"]), w);
      if raised.Some? {
        FirstFailureAt(calls, w, 2);
        return Fail(raised.value);
      }
      FirstFailureAt(calls, w, 3);
      result := Pass;
    }

    /**
     * `setup`: the core components, then the admin server when enabled, then the stats
     * collector; the context is assigned last. Every error propagates.
     */
    method Setup(w: World) returns (result: Outcome<Exc>)
      modifies this
      ensures var r := SetupRun(contextBuilder, old(State()), w);
              State() == r.state && trace == old(trace) + r.events && result == r.result
    {
      var built := Context(contextBuilder.settings);
      ghost var core := CoreSetup(contextBuilder, State(), w);
      result := SetupCore(built, w);
      if result.Fail? {
        return;
      }
      ghost var admin := core;
      if Truthy(Get(built.settings, "admin.enabled", Null)) {
        result := SetupAdminServer(built, w, old(trace), core);
        admin := AdminSetup(core, built, w);
        if result.Fail? {
          return;
        }
      }
      result := SetupCollector(built, w, old(trace), admin);
      if result.Fail? {
        return;
      }
      context := Some(built);
    }

    /** The first part of `start`: configure the wallet and the ledger, start both transports. */
    method StartCore(w: World) returns (result: Outcome<Exc>)
      modifies this`trace
      ensures trace == old(trace) + Made(StartCalls(w.publicDid), w) && result == Ending(StartCalls(w.publicDid), w)
    {
      ghost var calls := StartCalls(w.publicDid);
      var raised := Invoke(WalletConfig, w);
      assert trace == old(trace) + calls[..1];
      if raised.Some? {
        FirstFailureAt(calls, w, 0);
        return Fail(raised.value);
      }
      var publicDid := w.publicDid;
      raised := Invoke(LedgerConfig(publicDid), w);
      assert trace == old(trace) + calls[..2];
      if raised.Some? {
        FirstFailureAt(calls, w, 1);
        return Fail(raised.value);
      }
      raised := Invoke(StartInboundTransports, w);
      assert trace == old(trace) + calls[..3];
      if raised.Some? {
        FirstFailureAt(calls, w, 2);
        return Fail(raised.value);
      }
      raised := Invoke(StartOutboundTransports, w);
      assert trace == old(trace) + calls;
      if raised.Some? {
        FirstFailureAt(calls, w, 3);
        return Fail(raised.value);
      }
      FirstFailureAt(calls, w, 4);
      result := Pass;
    }

    /**
     * `start`: configure the wallet and the ledger and start both transports (all fatal), then
     * the admin server, the test suite's connection and the invitation.
     */
    method Start(w: World) returns (result: Outcome<Exc>)
      requires Configured(State())
      modifies this`trace
      ensures var r := StartRun(old(State()), w);
              trace == old(trace) + r.events && result == r.result
    {
      ghost var s := State();
      ghost var begun := Steps(Run(s, [], Pass), StartCalls(w.publicDid), w);
      var settings := context.value.settings;
      StartAfterOpening(s, w);
      result := StartCore(w);
      if result.Fail? {
        return;
      }
      result := StartAdmin(w, old(trace), begun);
      ghost var admin := AdminStart(begun, s, w);
      if result.Fail? {
        return;
      }
      result := CreateTestSuiteConnection(w, old(trace), admin);
      ghost var tested := TestSuiteStart(admin, settings, w);
      if result.Fail? {
        return;
      }
      PrintInvitation(w, old(trace), tested);
      result := Pass;
    }

    /**
     * The admin block of `start`: when there is an admin server, start it (its error only
     * logged) and bind its responder. `r` is the run so far, whose calls `trace` ends with.
     */
    method StartAdmin(w: World, ghost before: seq<Event>, ghost r: Run) returns (result: Outcome<Exc>)
      requires r.result.Pass? && trace == before + r.events
      modifies this`trace
      ensures var out := AdminStart(r, State(), w);
              trace == before + out.events && result == out.result
    {
      if adminServer.None? {
        return Pass;
      }
      var _ := Invoke(StartAdminServer, w);
      var raised := Invoke(BindInstance(BaseResponder, AdminResponder(adminServer.value)), w);
      result := if raised.Some? then Fail(raised.value) else Pass;
    }

    /**
     * The test-suite block of `start`: when its endpoint is set, create the static connection
     * with fixed seeds. `r` is the run so far, whose calls `trace` ends with.
     */
    method CreateTestSuiteConnection(w: World, ghost before: seq<Event>, ghost r: Run) returns (result: Outcome<Exc>)
      requires context.Some? && r.result.Pass? && trace == before + r.events
      modifies this`trace
      ensures var out := TestSuiteStart(r, context.value.settings, w);
              trace == before + out.events && result == out.result
    {
      var endpoint := Get(context.value.settings, "debug.test_suite_endpoint", Null);
      if !Truthy(endpoint) {
        return Pass;
      }
      var raised := Invoke(TestSuiteConnection(endpoint), w);
      result := if raised.Some? then Fail(raised.value) else Pass;
    }

    /**
     * The invitation block of `start`: when asked to, create an invitation and its url, any
     * error only logged. `r` is the run so far, whose calls `trace` ends with.
     */
    method PrintInvitation(w: World, ghost before: seq<Event>, ghost r: Run)
      requires context.Some? && r.result.Pass? && trace == before + r.events
      modifies this`trace
      ensures trace == before + InvitationStart(r, context.value.settings, w).events
    {
      var settings := context.value.settings;
      if !Truthy(Get(settings, "debug.print_invitation", Null)) {
        return;
      }
      ghost var calls := InvitationCalls(settings);
      var raised := Invoke(CreateInvitation(Get(settings, "debug.invite_role", Null),
                                            Get(settings, "debug.invite_label", Null),
                                            Get(settings, "debug.invite_multi_use", Bool(false)),
                                            Get(settings, "debug.invite_public", Bool(false))), w);
      if raised.Some? {
        FirstFailureAt(calls, w, 0);
        return;
      }
      raised := Invoke(InvitationUrl(Get(settings, "invite_base_url", Null)), w);
      FirstFailureAt(calls, w, if raised.Some? then 1 else 2);
    }

    /** `stop`: schedule the stop of each component that exists, the admin server first. */
    method Stop()
      modifies this`trace
      ensures trace == old(trace) + StopCalls(State())
    {
      if adminServer.Some? {
        Log(StopAdminServer);
      }
      if inboundTransportManager.Some? {
        Log(StopInboundTransports);
      }
      if outboundTransportManager.Some? {
        Log(StopOutboundTransports);
      }
    }

    /**
     * `inbound_message_router`: warn when the receipt asks for a direct response the transport
     * cannot give, then queue the message on the dispatcher.
     */
    method InboundMessageRouter(message: InboundMessage, w: World) returns (result: Outcome<Exc>)
      requires dispatcher.Some?
      modifies this`trace
      ensures var q := InboundRoute(message, w);
              trace == old(trace) + q.events && result == q.result
    {
      var mode := message.receipt.directResponseMode;
      if mode.Some? && mode.value != "" && mode.value != ReplyModeNone {
        Log(WarnDirectResponse(message.transportType));
      }
      var raised := Invoke(QueueMessage(message, OutboundRouter, DispatchComplete(message)), w);
      result := if raised.Some? then Fail(raised.value) else Pass;
    }

    /**
     * `outbound_message_router`: resolve the connection's targets when the message has none,
     * then hand it to the outbound transport manager; a lookup or delivery failure of the
     * expected kind drops the message.
     */
    method OutboundMessageRouter(requestContext: Context, outbound: OutboundMessage,
                                 inbound: Option<InboundMessage>, w: World)
      returns (result: Outcome<Exc>)
      requires outboundTransportManager.Some?
      modifies this`trace, outbound`targetList
      ensures var r := RouteOutbound(requestContext, old(outbound.Fields()), w);
              outbound.Fields() == r.message && trace == old(trace) + r.events && result == r.result
    {
      ghost var m := outbound.Fields();
      ghost var prior: seq<Event> := [];
      var hasTargets := outbound.target.Some? || (outbound.targetList.Some? && outbound.targetList.value != []);
      if !hasTargets && outbound.connectionId.Some? && outbound.connectionId.value != "" {
        assert NeedsResolution(m);
        var raised := Invoke(GetConnectionTargets(requestContext, outbound.connectionId.value), w);
        if raised.Some? {
          return if raised.value == ConnectionManagerError then Pass else Fail(raised.value);
        }
        outbound.targetList := Some(w.targets(requestContext, outbound.connectionId.value));
        prior := [GetConnectionTargets(requestContext, m.connectionId.value)];
      }
      assert RouteOutbound(requestContext, m, w) == Delivery(requestContext, outbound.Fields(), prior, w);
      var raised := Invoke(Deliver(requestContext, outbound.Fields()), w);
      result := if raised.Some? && raised.value != OutboundDeliveryError then Fail(raised.value) else Pass;
    }
  }
}
