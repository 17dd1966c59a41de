/**
 * The conductor's lifecycle (`setup`, `start`, `stop`) as functions from the conductor's
 * fields and the world to a run: the fields afterwards, the calls made in order, and
 * whether the operation returned or raised. Each step is either fatal (its exception
 * propagates and nothing after it happens) or recoverable (its exception is swallowed).
 */
module Lifecycle {
  import opened Wrappers
  import opened Config
  import opened Collaborators

  /** The conductor's fields, apart from the context builder, which never changes. */
  datatype ConductorState = ConductorState(
    adminServer: Option<AdminServer>,
    context: Option<Context>,
    dispatcher: Option<Dispatcher>,
    inboundTransportManager: Option<InboundTransportManager>,
    outboundTransportManager: Option<OutboundTransportManager>)

  /** The fields as `__init__` leaves them: all `None`. */
  const Initial := ConductorState(None, None, None, None, None)

  /** What a completed setup leaves behind, and what start and the routers rely on. */
  predicate Configured(s: ConductorState)
  {
    s.context.Some? && s.dispatcher.Some? && s.inboundTransportManager.Some? && s.outboundTransportManager.Some?
  }

  /** The fields afterwards, the calls made (in order), and how the operation ended. */
  datatype Run = Run(state: ConductorState, events: seq<Event>, result: Outcome<Exc>)

  /**
   * A fatal step: once the run has failed nothing more happens; otherwise `e` is called and,
   * if it returns, the fields become `after`; if it raises, the run fails with its exception.
   */
  function Call(r: Run, e: Event, w: World, after: ConductorState): Run
  {
    if r.result.Fail? then r
    else match w.raises(e)
      case Some(x) => Run(r.state, r.events + [e], Fail(x))
      case None => Run(after, r.events + [e], Pass)
  }

  /** A recoverable step: `e` is called inside `try ... except Exception`, its exception logged. */
  function Attempt(r: Run, e: Event): Run
  {
    if r.result.Fail? then r else r.(events := r.events + [e])
  }

  /** The index of the first of `calls` that raises, or `|calls|` when none does. */
  function FirstFailure(calls: seq<Event>, w: World): (k: nat)
    ensures k <= |calls|
    ensures forall i :: 0 <= i < k ==> !Fails(w, calls[i])
    ensures k < |calls| ==> Fails(w, calls[k])
  {
    if calls == [] || Fails(w, calls[0]) then 0 else 1 + FirstFailure(calls[1..], w)
  }

  /** The calls actually made of `calls`: all of them up to and including the first that raises. */
  function Made(calls: seq<Event>, w: World): seq<Event>
  {
    var k := FirstFailure(calls, w);
    if k < |calls| then calls[..k + 1] else calls
  }

  /** The outcome of making `calls` in order: the exception of the first that raises, if any. */
  function Ending(calls: seq<Event>, w: World): Outcome<Exc>
  {
    var k := FirstFailure(calls, w);
    if k < |calls| then Fail(w.raises(calls[k]).value) else Pass
  }

  /** The first call that raises is the one at `i`, when all before it return (`i == |calls|`: none raises). */
  lemma FirstFailureAt(calls: seq<Event>, w: World, i: nat)
    requires i <= |calls|
    requires forall j :: 0 <= j < i ==> !Fails(w, calls[j])
    requires i < |calls| ==> Fails(w, calls[i])
    ensures FirstFailure(calls, w) == i
    ensures i < |calls| ==> Made(calls, w) == calls[..i + 1] && Ending(calls, w) == Fail(w.raises(calls[i]).value)
    ensures i == |calls| ==> Made(calls, w) == calls && Ending(calls, w) == Pass
  {
  }

  /**
   * Fatal calls that assign nothing, made one after another: the first that raises ends
   * the run with its exception, and the calls after it are never made.
   */
  function Steps(r: Run, calls: seq<Event>, w: World): Run
  {
    if r.result.Fail? then r else Run(r.state, r.events + Made(calls, w), Ending(calls, w))
  }

  /**
   * Fatal steps after a run that returned make a prefix of their calls: every one of them
   * returns except the last when the run fails, which raised the run's error; the run
   * returns exactly when all the calls were made and returned. The fields are untouched.
   */
  lemma StepsStopAtFirstFailure(r: Run, calls: seq<Event>, w: World)
    requires r.result.Pass?
    ensures var out := Steps(r, calls, w);
            var n := |out.events| - |r.events|;
            && out.state == r.state
            && 0 <= n <= |calls| && out.events == r.events + calls[..n] && (calls != [] ==> n >= 1)
            && (forall i :: 0 <= i < n - 1 ==> !Fails(w, calls[i]))
            && (out.result.Pass? <==> n == |calls| && forall i :: 0 <= i < |calls| ==> !Fails(w, calls[i]))
            && (out.result.Fail? ==> n >= 1 && w.raises(calls[n - 1]) == Some(out.result.error))
  {
    var k := FirstFailure(calls, w);
    if k < |calls| {
      assert Made(calls, w) == calls[..k + 1];
    } else {
      assert calls[..|calls|] == calls;
    }
  }

  /** `Steps` makes its calls one at a time: the first as a fatal `Call`, then the rest. */
  lemma StepsOneCallAtATime(r: Run, calls: seq<Event>, w: World)
    requires calls != []
    ensures Steps(r, calls, w) == Steps(Call(r, calls[0], w, r.state), calls[1..], w)
  {
    if r.result.Pass? {
      if Fails(w, calls[0]) {
        assert FirstFailure(calls, w) == 0;
        assert Made(calls, w) == [calls[0]];
      } else {
        var k := FirstFailure(calls[1..], w);
        assert FirstFailure(calls, w) == k + 1;
        assert Made(calls, w) == [calls[0]] + Made(calls[1..], w) by {
          if k < |calls[1..]| {
            assert calls[..k + 2] == [calls[0]] + calls[1..][..k + 1];
          } else {
            assert calls == [calls[0]] + calls[1..];
          }
        }
        assert r.events + Made(calls, w) == (r.events + [calls[0]]) + Made(calls[1..], w);
      }
    }
  }

  /** A single fatal step is a `Call` that assigns nothing. */
  lemma StepsOfOneCall(r: Run, e: Event, w: World)
    ensures Steps(r, [e], w) == Call(r, e, w, r.state)
  {
    if !Fails(w, e) {
      assert FirstFailure([e], w) == 1;
    }
  }

  /** No further fatal steps leave the run as it is. */
  lemma StepsOfNoCall(r: Run, w: World)
    ensures Steps(r, [], w) == r
  {
  }

  /** The same, for the calls from `i` on: make call `i`, then those after it. */
  lemma StepsFrom(r: Run, calls: seq<Event>, i: nat, w: World)
    requires i < |calls|
    ensures Steps(r, calls[i..], w) == Steps(Call(r, calls[i], w, r.state), calls[i + 1..], w)
  {
    StepsOneCallAtATime(r, calls[i..], w);
    assert calls[i..][1..] == calls[i + 1..];
  }

  // ---------------------------------------------------------------------------------------
  // setup
  // ---------------------------------------------------------------------------------------

  /** The calls setup makes before the admin server, in order. */
  function CoreCalls(context: Context): seq<Event>
  {
    [BuildContext, NewDispatcher(context), NewInboundTransportManager(context), SetupInboundTransports,
     NewOutboundTransportManager(context), SetupOutboundTransports]
  }

  /** The inbound transport manager setup creates: it routes every received message to the conductor. */
  function InboundManagerFor(context: Context): InboundTransportManager
  {
    InboundTransportManager(context, InboundRouter)
  }

  /** The outbound transport manager setup creates: it runs background tasks on the dispatcher. */
  function OutboundManagerFor(context: Context): OutboundTransportManager
  {
    OutboundTransportManager(context, DispatcherRunTask(Dispatcher(context)))
  }

  /** The context was built and the dispatcher's constructor returned. */
  predicate DispatcherBuilt(context: Context, w: World)
  {
    !Fails(w, BuildContext) && !Fails(w, NewDispatcher(context))
  }

  /** ... and then the inbound transport manager's constructor returned. */
  predicate InboundManagerBuilt(context: Context, w: World)
  {
    DispatcherBuilt(context, w) && !Fails(w, NewInboundTransportManager(context))
  }

  /** ... and then the inbound transports were set up and the outbound manager's constructor returned. */
  predicate OutboundManagerBuilt(context: Context, w: World)
  {
    && InboundManagerBuilt(context, w)
    && !Fails(w, SetupInboundTransports)
    && !Fails(w, NewOutboundTransportManager(context))
  }

  /** Every core call of setup returns. */
  predicate CoreReturns(context: Context, w: World)
  {
    OutboundManagerBuilt(context, w) && !Fails(w, SetupOutboundTransports)
  }

  /** Build the context, then create the dispatcher, assigned once its constructor returns. */
  function DispatcherSetup(r: Run, context: Context, w: World): (out: Run)
    ensures r.result.Fail? ==> out == r
    // the dispatcher is assigned, and nothing else, exactly when the context and it were built
    ensures r.result.Pass? ==>
              && out.state == (if DispatcherBuilt(context, w) then r.state.(dispatcher := Some(Dispatcher(context)))
                               else r.state)
              && (out.result.Pass? <==> DispatcherBuilt(context, w))
  {
    var built := Call(r, BuildContext, w, r.state);
    Call(built, NewDispatcher(context), w, r.state.(dispatcher := Some(Dispatcher(context))))
  }

  /** Create the inbound transport manager, assigned once its constructor returns, then set it up. */
  function InboundSetup(r: Run, context: Context, w: World): (out: Run)
    ensures r.result.Fail? ==> out == r
    // the manager is assigned, and nothing else, exactly when its constructor returned
    ensures r.result.Pass? ==>
              && out.state == (if Fails(w, NewInboundTransportManager(context)) then r.state
                               else r.state.(inboundTransportManager := Some(InboundManagerFor(context))))
              && (out.result.Pass? <==>
                    !Fails(w, NewInboundTransportManager(context)) && !Fails(w, SetupInboundTransports))
  {
    var created := Call(r, NewInboundTransportManager(context), w,
                        r.state.(inboundTransportManager := Some(InboundManagerFor(context))));
    Call(created, SetupInboundTransports, w, created.state)
  }

  /** Create the outbound transport manager, assigned once its constructor returns, then set it up. */
  function OutboundSetup(r: Run, context: Context, w: World): (out: Run)
    ensures r.result.Fail? ==> out == r
    // the manager is assigned, and nothing else, exactly when its constructor returned
    ensures r.result.Pass? ==>
              && out.state == (if Fails(w, NewOutboundTransportManager(context)) then r.state
                               else r.state.(outboundTransportManager := Some(OutboundManagerFor(context))))
              && (out.result.Pass? <==>
                    !Fails(w, NewOutboundTransportManager(context)) && !Fails(w, SetupOutboundTransports))
  {
    var created := Call(r, NewOutboundTransportManager(context), w,
                        r.state.(outboundTransportManager := Some(OutboundManagerFor(context))));
    Call(created, SetupOutboundTransports, w, created.state)
  }

  /**
   * Build the context, then create the dispatcher and the two transport managers, setting each
   * manager up right after it is assigned; every call fatal.
   */
  function CoreSetup(builder: ContextBuilder, s: ConductorState, w: World): (r: Run)
    // each component is assigned exactly when its constructor, and every call before it,
    // returned; nothing else changes
    ensures var context := Context(builder.settings);
            r.state == s.(dispatcher := if DispatcherBuilt(context, w) then Some(Dispatcher(context)) else s.dispatcher,
                          inboundTransportManager :=
                            if InboundManagerBuilt(context, w) then Some(InboundManagerFor(context))
                            else s.inboundTransportManager,
                          outboundTransportManager :=
                            if OutboundManagerBuilt(context, w) then Some(OutboundManagerFor(context))
                            else s.outboundTransportManager)
    // it returns exactly when every core call does, having made them all in order
    ensures r.result.Pass? <==> CoreReturns(Context(builder.settings), w)
    ensures r.result.Pass? ==> r.events == CoreCalls(Context(builder.settings))
  {
    var context := Context(builder.settings);
    OutboundSetup(InboundSetup(DispatcherSetup(Run(s, [], Pass), context, w), context, w), context, w)
  }

  /** `add_webhook_target(url)` for each url, in list order. */
  function WebhookCalls(urls: seq<Value>): seq<Event>
  {
    seq(|urls|, i requires 0 <= i < |urls| => AddWebhookTarget(urls[i]))
  }

  /** The admin server setup builds: bound to the configured host and port, "0.0.0.0" and "80" by default. */
  function AdminServerFor(context: Context): AdminServer
  {
    AdminServer(Get(context.settings, "admin.host", Str("0.0.0.0")), Get(context.settings, "admin.port", Str("80")),
                context, OutboundRouter, DispatcherPutTask(Dispatcher(context)))
  }

  /** The calls that build and register the admin server, before its webhooks. */
  function NewAdminServerCall(context: Context): Event
  {
    NewAdminServer(AdminServerFor(context).host, AdminServerFor(context).port)
  }

  /**
   * The webhook block of setup: when `admin.webhook_urls` is set, register each of its urls in
   * order; a value that cannot be iterated raises a `TypeError`.
   */
  function WebhookSetup(r: Run, settings: Settings, w: World): (out: Run)
    ensures out.state == r.state
    ensures r.result.Fail? || !Truthy(Get(settings, "admin.webhook_urls", Null)) ==> out == r
  {
    var urls := Get(settings, "admin.webhook_urls", Null);
    if r.result.Fail? || !Truthy(urls) then r
    else match Iterate(urls)
      case None => r.(result := Fail(TypeError))
      case Some(items) => Steps(r, WebhookCalls(items), w)
  }

  /**
   * The `if context.settings.get("admin.enabled")` block of setup: build the admin server,
   * register the webhook targets, bind the server in the injector; every error re-raised.
   */
  function AdminSetup(r: Run, context: Context, w: World): (out: Run)
    ensures r.result.Fail? ==> out == r
    ensures r.result.Pass? ==>
      && |out.events| > |r.events| && out.events[..|r.events|] == r.events
      && out.events[|r.events|] == NewAdminServerCall(context)
      && out.state == if Fails(w, NewAdminServerCall(context)) then r.state
                      else r.state.(adminServer := Some(AdminServerFor(context)))
    ensures r.result.Pass? && Fails(w, NewAdminServerCall(context)) ==>
      out == Run(r.state, r.events + [NewAdminServerCall(context)], Fail(w.raises(NewAdminServerCall(context)).value))
  {
    if r.result.Fail? then r
    else
      var server := AdminServerFor(context);
      var created := Call(r, NewAdminServerCall(context), w, r.state.(adminServer := Some(server)));
      Steps(WebhookSetup(created, context.settings, w), [BindInstance(BaseAdminServer, AdminServerInstance(server))], w)
  }

  /** The methods the stats collector wraps, when there is one. */
  function WrapCalls(context: Context): seq<Event>
  {
    [Wrap(ConductorMethods, ["outbound_message_router"]),
     Wrap(DispatcherMethods(Dispatcher(context)), ["handle_message"]),
     Wrap(ConnectionManagerClass, ["get_connection_targets", "fetch_did_document", "find_message_connection"])]
  }

  /** Fetch the stats collector, if any, and wrap the instrumented methods with it. */
  function CollectorSetup(r: Run, context: Context, w: World): (out: Run)
    ensures out.state == r.state
    ensures r.result.Fail? ==> out == r
    ensures r.result.Pass? ==> |out.events| > |r.events| && out.events[..|r.events|] == r.events
  {
    var injected := Call(r, InjectCollector, w, r.state);
    if injected.result.Pass? && w.collector then Steps(injected, WrapCalls(context), w) else injected
  }

  /** Whether the settings enable the admin server. */
  predicate AdminEnabled(settings: Settings)
  {
    Truthy(Get(settings, "admin.enabled", Null))
  }

  /** `setup`: every step fatal; the context is assigned last. */
  function SetupRun(builder: ContextBuilder, s: ConductorState, w: World): (r: Run)
    // a setup that returns leaves a configured conductor over the built context
    ensures r.result.Pass? ==> Configured(r.state) && r.state.context == Some(Context(builder.settings))
    // the context is assigned only when every step succeeded
    ensures r.result.Fail? ==> r.state.context == s.context
  {
    var context := Context(builder.settings);
    var core := CoreSetup(builder, s, w);
    var admin := if AdminEnabled(context.settings) then AdminSetup(core, context, w) else core;
    var stats := CollectorSetup(admin, context, w);
    if stats.result.Pass? then stats.(state := stats.state.(context := Some(context))) else stats
  }

  // ---------------------------------------------------------------------------------------
  // start
  // ---------------------------------------------------------------------------------------

  /** The four fatal steps that open start, in order. */
  function StartCalls(publicDid: Value): seq<Event>
  {
    [WalletConfig, LedgerConfig(publicDid), StartInboundTransports, StartOutboundTransports]
  }

  /** The static connection start creates for the test suite: fixed seeds, role and alias. */
  function TestSuiteConnection(endpoint: Value): Event
  {
    CreateStaticConnection(Sha256("aries-protocol-test-subject"), Sha256("aries-protocol-test-suite"),
                           endpoint, "tester", "test-suite")
  }

  /** The two calls of the debug invitation, in one `try` block. */
  function InvitationCalls(settings: Settings): seq<Event>
  {
    [CreateInvitation(Get(settings, "debug.invite_role", Null), Get(settings, "debug.invite_label", Null),
                      Get(settings, "debug.invite_multi_use", Bool(false)),
                      Get(settings, "debug.invite_public", Bool(false))),
     InvitationUrl(Get(settings, "invite_base_url", Null))]
  }

  /** The admin server part of start: its start is recoverable, binding its responder is not. */
  function AdminStart(r: Run, s: ConductorState, w: World): (out: Run)
    ensures out.state == r.state
    ensures r.result.Fail? || s.adminServer.None? ==> out == r
    ensures r.result.Pass? && s.adminServer.Some? ==>
      var bind := BindInstance(BaseResponder, AdminResponder(s.adminServer.value));
      out == Run(r.state, r.events + [StartAdminServer, bind],
                 if Fails(w, bind) then Fail(w.raises(bind).value) else Pass)
  {
    if s.adminServer.Some? then
      Steps(Attempt(r, StartAdminServer), [BindInstance(BaseResponder, AdminResponder(s.adminServer.value))], w)
    else r
  }

  /** The test-suite part of start: a fatal static connection, made when its endpoint is set. */
  function TestSuiteStart(r: Run, settings: Settings, w: World): (out: Run)
    ensures r.result.Fail? ==> out == r
    ensures r.result.Pass? ==>
      var endpoint := Get(settings, "debug.test_suite_endpoint", Null);
      var call := TestSuiteConnection(endpoint);
      out == if !Truthy(endpoint) then r
             else Run(r.state, r.events + [call], if Fails(w, call) then Fail(w.raises(call).value) else Pass)
  {
    var endpoint := Get(settings, "debug.test_suite_endpoint", Null);
    if Truthy(endpoint) then Steps(r, [TestSuiteConnection(endpoint)], w) else r
  }

  /** The invitation part of start: both calls sit in one `try` whose errors are only logged. */
  function InvitationStart(r: Run, settings: Settings, w: World): (out: Run)
    // whatever the invitation calls do, start's outcome is unchanged
    ensures out.state == r.state && out.result == r.result
    ensures r.result.Fail? || !Truthy(Get(settings, "debug.print_invitation", Null)) ==> out == r
    ensures |out.events| >= |r.events| && out.events[..|r.events|] == r.events
    ensures forall i :: |r.events| <= i < |out.events| ==>
      out.events[i].CreateInvitation? || out.events[i].InvitationUrl?
  {
    if r.result.Pass? && Truthy(Get(settings, "debug.print_invitation", Null))
    then Steps(r, InvitationCalls(settings), w).(result := Pass)
    else r
  }

  /** `start`: wallet, ledger and both transports fatal; admin start and the invitation recoverable. */
  function StartRun(s: ConductorState, w: World): (r: Run)
    requires Configured(s)
    ensures r.state == s
  {
    var begun := Steps(Run(s, [], Pass), StartCalls(w.publicDid), w);
    var settings := s.context.value.settings;
    InvitationStart(TestSuiteStart(AdminStart(begun, s, w), settings, w), settings, w)
  }

  // ---------------------------------------------------------------------------------------
  // stop
  // ---------------------------------------------------------------------------------------

  /** The position of a stop call in `stop`'s order. */
  function StopRank(e: Event): nat
  {
    match e
    case StopAdminServer => 0
    case StopInboundTransports => 1
    case _ => 2
  }

  /** `stop`: a stop is scheduled for each component that exists, admin server first. */
  function StopCalls(s: ConductorState): (r: seq<Event>)
    ensures StopAdminServer in r <==> s.adminServer.Some?
    ensures StopInboundTransports in r <==> s.inboundTransportManager.Some?
    ensures StopOutboundTransports in r <==> s.outboundTransportManager.Some?
    ensures forall e | e in r :: e.StopAdminServer? || e.StopInboundTransports? || e.StopOutboundTransports?
    // each at most once, in the order admin server, inbound, outbound
    ensures forall i, j :: 0 <= i < j < |r| ==> StopRank(r[i]) < StopRank(r[j])
  {
    (if s.adminServer.Some? then [StopAdminServer] else [])
    + (if s.inboundTransportManager.Some? then [StopInboundTransports] else [])
    + (if s.outboundTransportManager.Some? then [StopOutboundTransports] else [])
  }
}
