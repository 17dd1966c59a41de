/**
 * Properties of the lifecycle that relate several steps or several operations: which errors
 * start and setup raise or swallow, the order of the webhook registrations, and which
 * components stop stops after a setup that succeeded or failed part-way.
 */
module LifecycleProperties {
  import opened Wrappers
  import opened Config
  import opened Collaborators
  import opened Lifecycle

  // ---------------------------------------------------------------------------------------
  // outcomes that depend only on the calls made
  // ---------------------------------------------------------------------------------------

  /** Two worlds that agree on how each of `calls` ends make the same fatal run of them. */
  lemma {:induction false} StepsDependOnlyOnTheirCalls(r: Run, calls: seq<Event>, w1: World, w2: World)
    requires forall i :: 0 <= i < |calls| ==> w1.raises(calls[i]) == w2.raises(calls[i])
    ensures Steps(r, calls, w1) == Steps(r, calls, w2)
    decreases |calls|
  {
    if calls != [] {
      assert Call(r, calls[0], w1, r.state) == Call(r, calls[0], w2, r.state);
      StepsDependOnlyOnTheirCalls(Call(r, calls[0], w1, r.state), calls[1..], w1, w2);
    }
  }

  /** `w`, except that every call `spared` selects returns normally. */
  function Returning(w: World, spared: Event -> bool): World
  {
    w.(raises := (e: Event) => if spared(e) then None else w.raises(e))
  }

  /** Every call of start other than the admin server's start and the invitation's two. */
  lemma StartCallsAreFatal(s: ConductorState, w: World, w': World)
    requires Configured(s)
    requires w'.publicDid == w.publicDid
    requires forall e: Event :: !e.StartAdminServer? && !e.CreateInvitation? && !e.InvitationUrl? ==>
                                  w'.raises(e) == w.raises(e)
    ensures StartRun(s, w).result == StartRun(s, w').result
  {
    var settings := s.context.value.settings;
    var calls := StartCalls(w.publicDid);
    StepsDependOnlyOnTheirCalls(Run(s, [], Pass), calls, w, w');
    var begun := Steps(Run(s, [], Pass), calls, w);
    if s.adminServer.Some? {
      var bind := BindInstance(BaseResponder, AdminResponder(s.adminServer.value));
      StepsDependOnlyOnTheirCalls(Attempt(begun, StartAdminServer), [bind], w, w');
    }
    var a := AdminStart(begun, s, w);
    assert a == AdminStart(begun, s, w');
    var endpoint := Get(settings, "debug.test_suite_endpoint", Null);
    StepsDependOnlyOnTheirCalls(a, [TestSuiteConnection(endpoint)], w, w');
    assert TestSuiteStart(a, settings, w) == TestSuiteStart(a, settings, w');
  }

  /** A failing admin server start is swallowed: start does exactly the same when it fails. */
  lemma AdminStartFailureIsSwallowed(s: ConductorState, w: World)
    requires Configured(s)
    ensures StartRun(s, w) == StartRun(s, Returning(w, (e: Event) => e.StartAdminServer?))
  {
    var w' := Returning(w, (e: Event) => e.StartAdminServer?);
    var settings := s.context.value.settings;
    var calls := StartCalls(w.publicDid);
    StepsDependOnlyOnTheirCalls(Run(s, [], Pass), calls, w, w');
    var begun := Steps(Run(s, [], Pass), calls, w);
    if s.adminServer.Some? {
      var bind := BindInstance(BaseResponder, AdminResponder(s.adminServer.value));
      StepsDependOnlyOnTheirCalls(Attempt(begun, StartAdminServer), [bind], w, w');
    }
    var a := AdminStart(begun, s, w);
    assert a == AdminStart(begun, s, w');
    var endpoint := Get(settings, "debug.test_suite_endpoint", Null);
    StepsDependOnlyOnTheirCalls(a, [TestSuiteConnection(endpoint)], w, w');
    var t := TestSuiteStart(a, settings, w);
    assert t == TestSuiteStart(a, settings, w');
    StepsDependOnlyOnTheirCalls(t, InvitationCalls(settings), w, w');
    assert InvitationStart(t, settings, w) == InvitationStart(t, settings, w');
  }

  /** A failing invitation is swallowed: start ends the same way whether or not it fails. */
  lemma InvitationFailureIsSwallowed(s: ConductorState, w: World)
    requires Configured(s)
    ensures StartRun(s, w).result
         == StartRun(s, Returning(w, (e: Event) => e.CreateInvitation? || e.InvitationUrl?)).result
  {
    StartCallsAreFatal(s, w, Returning(w, (e: Event) => e.CreateInvitation? || e.InvitationUrl?));
  }

  // ---------------------------------------------------------------------------------------
  // start
  // ---------------------------------------------------------------------------------------

  /** Which start event, if any, is the admin server's start or its responder binding. */
  predicate AdminStartEvent(e: Event)
  {
    e.StartAdminServer? || e.BindInstance?
  }

  /** The four calls that open start. */
  predicate OpeningEvent(e: Event)
  {
    e.WalletConfig? || e.LedgerConfig? || e.StartInboundTransports? || e.StartOutboundTransports?
  }

  /** The calls of start whose error ends start. */
  predicate FatalStartEvent(e: Event)
  {
    e.WalletConfig? || e.LedgerConfig? || e.StartInboundTransports? || e.StartOutboundTransports?
    || e.BindInstance? || e.CreateStaticConnection?
  }

  /** What the steps after the opening ones may call, given the admin server and the settings. */
  predicate LaterStartEvent(e: Event, s: ConductorState, settings: Settings)
  {
    var endpoint := Get(settings, "debug.test_suite_endpoint", Null);
    || (s.adminServer.Some? &&
        (e == StartAdminServer || e == BindInstance(BaseResponder, AdminResponder(s.adminServer.value))))
    || (Truthy(endpoint) && e == TestSuiteConnection(endpoint))
    || e.CreateInvitation? || e.InvitationUrl?
  }

  /**
   * `out` continues `r` as the steps after the opening ones do: nothing changes after a
   * failure; otherwise the run is only extended, with calls `LaterStartEvent` allows, and if
   * it fails, its last call raised the error and was the responder binding or the static
   * connection.
   */
  predicate LaterStartExtends(r: Run, out: Run, s: ConductorState, settings: Settings, w: World)
  {
    && (r.result.Fail? ==> out == r)
    && |out.events| >= |r.events| && out.events[..|r.events|] == r.events
    && (forall i :: |r.events| <= i < |out.events| ==> LaterStartEvent(out.events[i], s, settings))
    && (r.result.Pass? && out.result.Fail? ==>
          && |out.events| > |r.events|
          && var last := out.events[|out.events| - 1];
             w.raises(last) == Some(out.result.error) && (last.BindInstance? || last.CreateStaticConnection?))
  }

  /** Two extensions one after the other are one extension. */
  lemma LaterStartExtendsTwice(a: Run, b: Run, c: Run, s: ConductorState, settings: Settings, w: World)
    requires LaterStartExtends(a, b, s, settings, w) && LaterStartExtends(b, c, s, settings, w)
    ensures LaterStartExtends(a, c, s, settings, w)
  {
    assert c.events[..|a.events|] == b.events[..|a.events|];
    forall i | |a.events| <= i < |c.events|
      ensures LaterStartEvent(c.events[i], s, settings)
    {
      if i < |b.events| {
        assert c.events[i] == b.events[i];
      }
    }
  }

  /**
   * The admin server part of start extends the run so, appending only the admin server's
   * start and its responder binding, and failing only through the binding.
   */
  lemma AdminStartExtends(r: Run, s: ConductorState, settings: Settings, w: World)
    ensures LaterStartExtends(r, AdminStart(r, s, w), s, settings, w)
    ensures var out := AdminStart(r, s, w);
            && (forall i :: |r.events| <= i < |out.events| ==> AdminStartEvent(out.events[i]))
            && (r.result.Pass? && out.result.Fail? ==>
                  |out.events| > |r.events| && out.events[|out.events| - 1].BindInstance?)
  {
  }

  /**
   * The test-suite part of start extends the run so, appending only the static connection,
   * and failing only through it.
   */
  lemma TestSuiteStartExtends(r: Run, s: ConductorState, settings: Settings, w: World)
    ensures LaterStartExtends(r, TestSuiteStart(r, settings, w), s, settings, w)
    ensures var out := TestSuiteStart(r, settings, w);
            forall i :: |r.events| <= i < |out.events| ==> out.events[i].CreateStaticConnection?
  {
  }

  /**
   * The invitation part of start extends the run so, appending only invitation calls; it
   * never changes the outcome or the fields.
   */
  lemma InvitationStartExtends(r: Run, s: ConductorState, settings: Settings, w: World)
    ensures LaterStartExtends(r, InvitationStart(r, settings, w), s, settings, w)
    ensures var out := InvitationStart(r, settings, w);
            && out.result == r.result && out.state == r.state
            && (forall i :: |r.events| <= i < |out.events| ==>
                  out.events[i].CreateInvitation? || out.events[i].InvitationUrl?)
  {
  }

  /** The steps after the opening ones, together, extend the run so. */
  lemma LaterStartSteps(begun: Run, s: ConductorState, settings: Settings, w: World)
    ensures var later := InvitationStart(TestSuiteStart(AdminStart(begun, s, w), settings, w), settings, w);
            LaterStartExtends(begun, later, s, settings, w)
  {
    var a := AdminStart(begun, s, w);
    var t := TestSuiteStart(a, settings, w);
    AdminStartExtends(begun, s, settings, w);
    TestSuiteStartExtends(a, s, settings, w);
    InvitationStartExtends(t, s, settings, w);
    LaterStartExtendsTwice(begun, a, t, s, settings, w);
    LaterStartExtendsTwice(begun, t, InvitationStart(t, settings, w), s, settings, w);
  }

  /** Start, split at the end of its opening steps: a failure there is the whole of start. */
  lemma StartAfterOpening(s: ConductorState, w: World)
    requires Configured(s)
    ensures var begun := Steps(Run(s, [], Pass), StartCalls(w.publicDid), w);
            var settings := s.context.value.settings;
            && (begun.result.Fail? ==> StartRun(s, w) == begun)
            && StartRun(s, w) == InvitationStart(TestSuiteStart(AdminStart(begun, s, w), settings, w), settings, w)
  {
    LaterStartSteps(Steps(Run(s, [], Pass), StartCalls(w.publicDid), w), s, s.context.value.settings, w);
  }

  /**
   * Start opens with wallet, ledger, inbound and outbound in this order; the first of them
   * that raises ends start with its error and nothing after it is attempted.
   */
  lemma StartOpensInOrder(s: ConductorState, w: World)
    requires Configured(s)
    ensures var r := StartRun(s, w);
            var calls := StartCalls(w.publicDid);
            var k := FirstFailure(calls, w);
            && (k < |calls| ==> r == Run(s, calls[..k + 1], Fail(w.raises(calls[k]).value)))
            && (k == |calls| ==> |r.events| >= |calls| && r.events[..|calls|] == calls)
  {
    var calls := StartCalls(w.publicDid);
    LaterStartSteps(Steps(Run(s, [], Pass), calls, w), s, s.context.value.settings, w);
  }

  /** The opening steps of start make a prefix of its four calls; a failure is the last one's. */
  lemma OpeningSteps(s: ConductorState, w: World)
    ensures var calls := StartCalls(w.publicDid);
            var begun := Steps(Run(s, [], Pass), calls, w);
            && |begun.events| <= |calls|
            && (forall i :: 0 <= i < |begun.events| ==> begun.events[i] == calls[i])
            && (begun.result.Pass? <==> FirstFailure(calls, w) == |calls|)
            && (begun.result.Pass? ==> begun.events == calls)
            && (forall i :: 0 <= i < |begun.events| ==> OpeningEvent(begun.events[i]))
            && (begun.result.Fail? ==>
                  |begun.events| >= 1 && w.raises(begun.events[|begun.events| - 1]) == Some(begun.result.error))
  {
    var calls := StartCalls(w.publicDid);
    var m := Made(calls, w);
    forall i | 0 <= i < |m|
      ensures m[i] == calls[i] && OpeningEvent(m[i])
    {
      assert m[i] == calls[..|m|][i];
    }
  }

  /** Every call of start is an opening call or one `LaterStartEvent` allows. */
  lemma StartEvents(s: ConductorState, w: World)
    requires Configured(s)
    ensures var r := StartRun(s, w);
            forall i :: 0 <= i < |r.events| ==>
              OpeningEvent(r.events[i]) || LaterStartEvent(r.events[i], s, s.context.value.settings)
  {
    var begun := Steps(Run(s, [], Pass), StartCalls(w.publicDid), w);
    LaterStartSteps(begun, s, s.context.value.settings, w);
    OpeningSteps(s, w);
    var r := StartRun(s, w);
    forall i | 0 <= i < |begun.events|
      ensures OpeningEvent(r.events[i])
    {
      assert r.events[i] == begun.events[i];
    }
  }

  /** Start touches the admin server only when there is one. */
  lemma StartAdminOnlyWhenPresent(s: ConductorState, w: World)
    requires Configured(s)
    ensures var r := StartRun(s, w);
            s.adminServer.None? ==> forall i :: 0 <= i < |r.events| ==> !AdminStartEvent(r.events[i])
  {
    StartEvents(s, w);
  }

  /**
   * When there is an admin server and the opening steps have returned, start starts it and
   * then binds its responder, whatever the start did.
   */
  lemma StartAdminThenResponder(s: ConductorState, w: World)
    requires Configured(s)
    ensures var r := StartRun(s, w);
            s.adminServer.Some? && FirstFailure(StartCalls(w.publicDid), w) == 4 ==>
              |r.events| >= 6 && r.events[4] == StartAdminServer
              && r.events[5] == BindInstance(BaseResponder, AdminResponder(s.adminServer.value))
  {
    var settings := s.context.value.settings;
    var calls := StartCalls(w.publicDid);
    if s.adminServer.Some? && FirstFailure(calls, w) == 4 {
      FirstFailureAt(calls, w, 4);
      var begun := Steps(Run(s, [], Pass), calls, w);
      assert begun == Run(s, calls, Pass);
      var a := AdminStart(begun, s, w);
      var t := TestSuiteStart(a, settings, w);
      var r := InvitationStart(t, settings, w);
      assert StartRun(s, w) == r;
      assert t.events[..6] == a.events;
      assert r.events[..6] == t.events[..6];
    }
  }

  /**
   * When start fails, its last call raised the error it ends with, and that call is one of
   * the fatal ones: never the admin server's start nor the invitation.
   */
  lemma StartFailsOnlyThroughFatalCalls(s: ConductorState, w: World)
    requires Configured(s)
    ensures var r := StartRun(s, w);
            r.result.Fail? ==>
              && |r.events| >= 1
              && w.raises(r.events[|r.events| - 1]) == Some(r.result.error)
              && FatalStartEvent(r.events[|r.events| - 1])
  {
    var calls := StartCalls(w.publicDid);
    var begun := Steps(Run(s, [], Pass), calls, w);
    LaterStartSteps(begun, s, s.context.value.settings, w);
    OpeningSteps(s, w);
    if begun.result.Fail? {
      assert OpeningEvent(begun.events[|begun.events| - 1]);
    }
  }

  /**
   * The only static connection start creates is the test suite's, with its fixed seeds, and
   * only when the test-suite endpoint is set.
   */
  lemma StartTestSuiteConnectionOnlyWhenSet(s: ConductorState, w: World)
    requires Configured(s)
    ensures var r := StartRun(s, w);
            var endpoint := Get(s.context.value.settings, "debug.test_suite_endpoint", Null);
            forall i :: 0 <= i < |r.events| && r.events[i].CreateStaticConnection? ==>
              Truthy(endpoint) && r.events[i] == TestSuiteConnection(endpoint)
  {
    StartEvents(s, w);
  }

  /** The test suite's connection is created whenever the endpoint is set and the admin part returned. */
  lemma StartTestSuiteConnectionWhenSet(s: ConductorState, w: World)
    requires Configured(s)
    ensures var r := StartRun(s, w);
            var endpoint := Get(s.context.value.settings, "debug.test_suite_endpoint", Null);
            var admin := AdminStart(Steps(Run(s, [], Pass), StartCalls(w.publicDid), w), s, w);
            admin.result.Pass? && Truthy(endpoint) ==>
              |r.events| > |admin.events| && r.events[|admin.events|] == TestSuiteConnection(endpoint)
  {
    var settings := s.context.value.settings;
    var a := AdminStart(Steps(Run(s, [], Pass), StartCalls(w.publicDid), w), s, w);
    var t := TestSuiteStart(a, settings, w);
    var r := InvitationStart(t, settings, w);
    if a.result.Pass? && Truthy(Get(settings, "debug.test_suite_endpoint", Null)) {
      assert r.events[|a.events|] == t.events[|a.events|];
    }
  }

  /** A failing test-suite connection, once reached, ends start with its error. */
  lemma StartTestSuiteFailurePropagates(s: ConductorState, w: World)
    requires Configured(s)
    ensures var endpoint := Get(s.context.value.settings, "debug.test_suite_endpoint", Null);
            var admin := AdminStart(Steps(Run(s, [], Pass), StartCalls(w.publicDid), w), s, w);
            admin.result.Pass? && Truthy(endpoint) && Fails(w, TestSuiteConnection(endpoint)) ==>
              StartRun(s, w).result == Fail(w.raises(TestSuiteConnection(endpoint)).value)
  {
    StartAfterOpening(s, w);
  }

  // ---------------------------------------------------------------------------------------
  // setup
  // ---------------------------------------------------------------------------------------

  /** Whether `webhook_urls` is set but cannot be iterated, so that the loop over it raises. */
  predicate WebhooksNotIterable(settings: Settings)
  {
    var urls := Get(settings, "admin.webhook_urls", Null);
    Truthy(urls) && Iterate(urls).None?
  }

  /**
   * No error is swallowed: a run that returns made only calls that returned, and one that
   * fails ends with the call that raised its error, or, for a webhook list that cannot be
   * iterated, with the admin server's construction and a type error.
   */
  predicate ReRaises(r: Run, w: World, context: Context)
  {
    && (r.result.Pass? ==> forall i :: 0 <= i < |r.events| ==> !Fails(w, r.events[i]))
    && (r.result.Fail? ==>
          && |r.events| >= 1
          && (|| w.raises(r.events[|r.events| - 1]) == Some(r.result.error)
              || (&& r.events[|r.events| - 1] == NewAdminServerCall(context)
                  && r.result.error == TypeError && WebhooksNotIterable(context.settings))))
  }

  /** Fatal steps keep `ReRaises`. */
  lemma StepsReRaise(r: Run, calls: seq<Event>, w: World, context: Context)
    requires ReRaises(r, w, context)
    ensures ReRaises(Steps(r, calls, w), w, context)
  {
    var out := Steps(r, calls, w);
    if r.result.Pass? {
      var m := Made(calls, w);
      assert out.events == r.events + m;
      if out.result.Pass? {
        forall i | 0 <= i < |out.events|
          ensures !Fails(w, out.events[i])
        {
          if i >= |r.events| {
            assert out.events[i] == m[i - |r.events|];
          }
        }
      }
    }
  }

  /** A fatal call keeps `ReRaises`. */
  lemma CallReRaises(r: Run, e: Event, w: World, after: ConductorState, context: Context)
    requires ReRaises(r, w, context)
    ensures ReRaises(Call(r, e, w, after), w, context)
  {
    var out := Call(r, e, w, after);
    if r.result.Pass? && out.result.Pass? {
      assert out.events == r.events + [e];
      forall i | 0 <= i < |out.events|
        ensures !Fails(w, out.events[i])
      {
        if i < |r.events| {
          assert out.events[i] == r.events[i];
        }
      }
    }
  }

  /** Building the context and the core components re-raises every error. */
  lemma CoreSetupReRaises(builder: ContextBuilder, s: ConductorState, w: World)
    ensures ReRaises(CoreSetup(builder, s, w), w, Context(builder.settings))
  {
    var context := Context(builder.settings);
    var r0 := Run(s, [], Pass);
    var built := Call(r0, BuildContext, w, s);
    CallReRaises(r0, BuildContext, w, s, context);
    var dispatched := Call(built, NewDispatcher(context), w, s.(dispatcher := Some(Dispatcher(context))));
    CallReRaises(built, NewDispatcher(context), w, s.(dispatcher := Some(Dispatcher(context))), context);
    var after := dispatched.state.(inboundTransportManager := Some(InboundManagerFor(context)));
    var inbound := Call(dispatched, NewInboundTransportManager(context), w, after);
    CallReRaises(dispatched, NewInboundTransportManager(context), w, after, context);
    var inboundReady := Call(inbound, SetupInboundTransports, w, inbound.state);
    CallReRaises(inbound, SetupInboundTransports, w, inbound.state, context);
    after := inboundReady.state.(outboundTransportManager := Some(OutboundManagerFor(context)));
    var outbound := Call(inboundReady, NewOutboundTransportManager(context), w, after);
    CallReRaises(inboundReady, NewOutboundTransportManager(context), w, after, context);
    CallReRaises(outbound, SetupOutboundTransports, w, outbound.state, context);
  }

  /** The admin server part of setup re-raises every error. */
  lemma AdminSetupReRaises(r: Run, context: Context, w: World)
    requires ReRaises(r, w, context)
    ensures ReRaises(AdminSetup(r, context, w), w, context)
    // a webhook setting that is set but cannot be iterated raises a type error
    ensures r.result.Pass? && !Fails(w, NewAdminServerCall(context)) && WebhooksNotIterable(context.settings) ==>
              AdminSetup(r, context, w).result == Fail(TypeError)
  {
    if r.result.Pass? {
      var server := AdminServerFor(context);
      var created := Call(r, NewAdminServerCall(context), w, r.state.(adminServer := Some(server)));
      CallReRaises(r, NewAdminServerCall(context), w, r.state.(adminServer := Some(server)), context);
      var urls := Get(context.settings, "admin.webhook_urls", Null);
      var registered := WebhookSetup(created, context.settings, w);
      if created.result.Pass? && Truthy(urls) {
        if Iterate(urls).Some? {
          StepsReRaise(created, WebhookCalls(Iterate(urls).value), w, context);
        } else {
          assert created.events == r.events + [NewAdminServerCall(context)];
        }
      }
      StepsReRaise(registered, [BindInstance(BaseAdminServer, AdminServerInstance(server))], w, context);
    }
  }

  /** The stats collector part of setup re-raises every error. */
  lemma CollectorSetupReRaises(r: Run, context: Context, w: World)
    requires ReRaises(r, w, context)
    ensures ReRaises(CollectorSetup(r, context, w), w, context)
  {
    CallReRaises(r, InjectCollector, w, r.state, context);
    StepsReRaise(Call(r, InjectCollector, w, r.state), WrapCalls(context), w, context);
  }

  /** Setup re-raises every error of the calls it makes. */
  lemma SetupReRaisesEveryError(builder: ContextBuilder, s: ConductorState, w: World)
    ensures ReRaises(SetupRun(builder, s, w), w, Context(builder.settings))
  {
    var context := Context(builder.settings);
    var core := CoreSetup(builder, s, w);
    CoreSetupReRaises(builder, s, w);
    var admin := if AdminEnabled(context.settings) then AdminSetup(core, context, w) else core;
    if AdminEnabled(context.settings) {
      AdminSetupReRaises(core, context, w);
    }
    CollectorSetupReRaises(admin, context, w);
    var stats := CollectorSetup(admin, context, w);
    assert SetupRun(builder, s, w).events == stats.events;
    assert SetupRun(builder, s, w).result == stats.result;
  }

  /** The webhook targets a trace registers, in order. */
  function WebhookTargets(events: seq<Event>): seq<Value>
  {
    if events == [] then []
    else (if events[0].AddWebhookTarget? then [events[0].url] else []) + WebhookTargets(events[1..])
  }

  /** The targets of two traces one after the other are the targets of each, in turn. */
  lemma {:induction false} WebhookTargetsAppend(a: seq<Event>, b: seq<Event>)
    ensures WebhookTargets(a + b) == WebhookTargets(a) + WebhookTargets(b)
  {
    if a == [] {
      assert a + b == b;
    } else {
      var ab := a + b;
      assert ab[0] == a[0] && ab[1..] == a[1..] + b;
      WebhookTargetsAppend(a[1..], b);
      var head := if a[0].AddWebhookTarget? then [a[0].url] else [];
      assert WebhookTargets(ab) == head + (WebhookTargets(a[1..]) + WebhookTargets(b));
      assert WebhookTargets(a) == head + WebhookTargets(a[1..]);
    }
  }

  /** A trace without a webhook registration registers no target. */
  lemma {:induction false} NoWebhookTargets(events: seq<Event>)
    requires forall i :: 0 <= i < |events| ==> !events[i].AddWebhookTarget?
    ensures WebhookTargets(events) == []
  {
    if events != [] {
      NoWebhookTargets(events[1..]);
    }
  }

  /** The registrations of a list of urls register exactly those urls, in order. */
  lemma {:induction false} WebhookTargetsOfCalls(urls: seq<Value>)
    ensures WebhookTargets(WebhookCalls(urls)) == urls
  {
    if urls != [] {
      assert WebhookCalls(urls)[1..] == WebhookCalls(urls[1..]);
      WebhookTargetsOfCalls(urls[1..]);
    }
  }

  /** The urls setup registers: the configured list, when it is set. */
  function ConfiguredWebhooks(settings: Settings): seq<Value>
  {
    var urls := Get(settings, "admin.webhook_urls", Null);
    if AdminEnabled(settings) && Truthy(urls) && Iterate(urls).Some? then Iterate(urls).value else []
  }

  /** The calls of the admin server part, when it returns. */
  lemma AdminSetupEvents(r: Run, context: Context, w: World)
    requires r.result.Pass?
    ensures var out := AdminSetup(r, context, w);
            var urls := Get(context.settings, "admin.webhook_urls", Null);
            var items := if Truthy(urls) && Iterate(urls).Some? then Iterate(urls).value else [];
            out.result.Pass? ==>
              out.events == r.events + [NewAdminServerCall(context)] + WebhookCalls(items)
                + [BindInstance(BaseAdminServer, AdminServerInstance(AdminServerFor(context)))]
  {
    var server := AdminServerFor(context);
    var bind := BindInstance(BaseAdminServer, AdminServerInstance(server));
    var created := Call(r, NewAdminServerCall(context), w, r.state.(adminServer := Some(server)));
    var urls := Get(context.settings, "admin.webhook_urls", Null);
    var items := if Truthy(urls) && Iterate(urls).Some? then Iterate(urls).value else [];
    var registered := WebhookSetup(created, context.settings, w);
    var out := Steps(registered, [bind], w);
    assert AdminSetup(r, context, w) == out;
    if out.result.Pass? {
      assert created.events == r.events + [NewAdminServerCall(context)];
      assert registered.events == created.events + WebhookCalls(items) by {
        if Truthy(urls) {
          assert Made(WebhookCalls(items), w) == WebhookCalls(items);
        }
      }
    }
  }

  /** The targets of a trace extended by one call, registrations of `items`, and one call. */
  lemma TargetsAroundWebhookCalls(prefix: seq<Event>, before: Event, items: seq<Value>, after: Event)
    requires !before.AddWebhookTarget? && !after.AddWebhookTarget?
    ensures WebhookTargets(prefix + [before] + WebhookCalls(items) + [after]) == WebhookTargets(prefix) + items
  {
    WebhookTargetsOfCalls(items);
    NoWebhookTargets([before]);
    NoWebhookTargets([after]);
    WebhookTargetsAppend(prefix + [before] + WebhookCalls(items), [after]);
    WebhookTargetsAppend(prefix + [before], WebhookCalls(items));
    WebhookTargetsAppend(prefix, [before]);
  }

  /** The webhook urls the admin server part registers, when it returns. */
  lemma AdminSetupWebhooks(r: Run, context: Context, w: World)
    requires r.result.Pass?
    ensures var out := AdminSetup(r, context, w);
            var urls := Get(context.settings, "admin.webhook_urls", Null);
            out.result.Pass? ==>
              WebhookTargets(out.events) == WebhookTargets(r.events)
                + (if Truthy(urls) && Iterate(urls).Some? then Iterate(urls).value else [])
  {
    AdminSetupEvents(r, context, w);
    var urls := Get(context.settings, "admin.webhook_urls", Null);
    var items := if Truthy(urls) && Iterate(urls).Some? then Iterate(urls).value else [];
    TargetsAroundWebhookCalls(r.events, NewAdminServerCall(context), items,
                              BindInstance(BaseAdminServer, AdminServerInstance(AdminServerFor(context))));
  }

  /** Building the context and the core components registers no webhook. */
  lemma CoreSetupWebhooks(builder: ContextBuilder, s: ConductorState, w: World)
    ensures CoreSetup(builder, s, w).result.Pass? ==> WebhookTargets(CoreSetup(builder, s, w).events) == []
  {
    NoWebhookTargets(CoreCalls(Context(builder.settings)));
  }

  /** The stats collector part registers no webhook. */
  lemma CollectorSetupWebhooks(r: Run, context: Context, w: World)
    requires r.result.Pass?
    ensures var out := CollectorSetup(r, context, w);
            out.result.Pass? ==> WebhookTargets(out.events) == WebhookTargets(r.events)
  {
    var out := CollectorSetup(r, context, w);
    if out.result.Pass? {
      var tail := if w.collector then [InjectCollector] + WrapCalls(context) else [InjectCollector];
      assert out.events == r.events + tail by {
        if w.collector {
          assert Made(WrapCalls(context), w) == WrapCalls(context);
        }
      }
      NoWebhookTargets(tail);
      WebhookTargetsAppend(r.events, tail);
    }
  }

  /**
   * A setup that returns has registered each configured webhook url once, in list order, and
   * nothing else (none at all when the admin server is disabled).
   */
  lemma SetupRegistersWebhooksInOrder(builder: ContextBuilder, s: ConductorState, w: World)
    ensures var r := SetupRun(builder, s, w);
            r.result.Pass? ==> WebhookTargets(r.events) == ConfiguredWebhooks(builder.settings)
  {
    var context := Context(builder.settings);
    var core := CoreSetup(builder, s, w);
    var admin := if AdminEnabled(context.settings) then AdminSetup(core, context, w) else core;
    var stats := CollectorSetup(admin, context, w);
    assert SetupRun(builder, s, w).events == stats.events;
    if stats.result.Pass? {
      assert admin.result.Pass? && core.result.Pass?;
      CollectorSetupWebhooks(admin, context, w);
      CoreSetupWebhooks(builder, s, w);
      if AdminEnabled(context.settings) {
        AdminSetupWebhooks(core, context, w);
      }
    }
  }

  /**
   * When a stats collector is available, a setup that returns ends by fetching it and wrapping
   * the instrumented methods; otherwise it ends by fetching it.
   */
  lemma SetupWrapsWhenCollector(builder: ContextBuilder, s: ConductorState, w: World)
    ensures var r := SetupRun(builder, s, w);
            var n := |r.events|;
            r.result.Pass? ==>
              && (w.collector ==>
                    n >= 4 && r.events[n - 4..] == [InjectCollector] + WrapCalls(Context(builder.settings)))
              && (!w.collector ==> n >= 1 && r.events[n - 1] == InjectCollector)
  {
    var context := Context(builder.settings);
    var core := CoreSetup(builder, s, w);
    var admin := if AdminEnabled(context.settings) then AdminSetup(core, context, w) else core;
    var stats := CollectorSetup(admin, context, w);
    assert SetupRun(builder, s, w).events == stats.events;
    if admin.result.Pass? {
      CollectorSetupEnds(admin, context, w);
    }
  }

  /** A collector block that returns ends with the fetch of the collector, or with the three wraps when there is one. */
  lemma CollectorSetupEnds(r: Run, context: Context, w: World)
    requires r.result.Pass?
    ensures var out := CollectorSetup(r, context, w);
            var n := |out.events|;
            out.result.Pass? ==>
              && (w.collector ==> n >= 4 && out.events[n - 4..] == [InjectCollector] + WrapCalls(context))
              && (!w.collector ==> n >= 1 && out.events[n - 1] == InjectCollector)
  {
    var out := CollectorSetup(r, context, w);
    if out.result.Pass? {
      CollectorSetupEvents(r, context, w);
      var tail := [InjectCollector] + (if w.collector then WrapCalls(context) else []);
      assert out.events == r.events + tail;
      if w.collector {
        assert out.events[|out.events| - 4..] == tail;
      }
    }
  }

  /** The calls of the stats collector part, when it returns: the fetch, then the wraps if there is a collector. */
  lemma CollectorSetupEvents(r: Run, context: Context, w: World)
    requires r.result.Pass?
    ensures var out := CollectorSetup(r, context, w);
            out.result.Pass? ==>
              out.events == r.events + ([InjectCollector] + (if w.collector then WrapCalls(context) else []))
  {
    if w.collector && CollectorSetup(r, context, w).result.Pass? {
      assert Made(WrapCalls(context), w) == WrapCalls(context);
    }
  }

  // ---------------------------------------------------------------------------------------
  // stop after setup
  // ---------------------------------------------------------------------------------------

  /** Once created, the dispatcher and the transport managers stay assigned whatever fails later in setup. */
  lemma SetupKeepsCoreComponents(builder: ContextBuilder, s: ConductorState, w: World)
    ensures var context := Context(builder.settings);
            var r := SetupRun(builder, s, w);
            && r.state.dispatcher == (if DispatcherBuilt(context, w) then Some(Dispatcher(context)) else s.dispatcher)
            && r.state.inboundTransportManager
                 == (if InboundManagerBuilt(context, w) then Some(InboundManagerFor(context))
                     else s.inboundTransportManager)
            && r.state.outboundTransportManager
                 == (if OutboundManagerBuilt(context, w) then Some(OutboundManagerFor(context))
                     else s.outboundTransportManager)
  {
    var context := Context(builder.settings);
    var core := CoreSetup(builder, s, w);
    var admin := if AdminEnabled(context.settings) then AdminSetup(core, context, w) else core;
    var stats := CollectorSetup(admin, context, w);
    assert admin.state.dispatcher == core.state.dispatcher;
    assert SetupRun(builder, s, w).state.dispatcher == stats.state.dispatcher == admin.state.dispatcher;
  }

  /** A setup whose core calls all return made them first, in order. */
  lemma SetupMakesCoreCallsFirst(builder: ContextBuilder, s: ConductorState, w: World)
    ensures var context := Context(builder.settings);
            var r := SetupRun(builder, s, w);
            CoreReturns(context, w) ==> |r.events| > 6 && r.events[..6] == CoreCalls(context)
  {
    var context := Context(builder.settings);
    var core := CoreSetup(builder, s, w);
    var admin := if AdminEnabled(context.settings) then AdminSetup(core, context, w) else core;
    var stats := CollectorSetup(admin, context, w);
    assert SetupRun(builder, s, w).events == stats.events;
    if core.result.Pass? {
      assert |core.events| == 6;
      assert |admin.events| >= 6 && admin.events[..6] == core.events;
      if admin.result.Pass? {
        assert |stats.events| > |admin.events| && stats.events[..|admin.events|] == admin.events;
        assert stats.events[..6] == admin.events[..6];
      } else {
        assert |admin.events| > 6;
      }
    }
  }

  /** Whether setup's admin server constructor ran and returned. */
  predicate AdminServerBuilt(builder: ContextBuilder, w: World)
  {
    var context := Context(builder.settings);
    CoreReturns(context, w) && AdminEnabled(builder.settings) && !Fails(w, NewAdminServerCall(context))
  }

  /**
   * Setup assigns the admin server exactly when its constructor ran and returned, and then one
   * bound to the configured (or default) host and port; an error of that constructor is re-raised.
   */
  lemma SetupAssignsAdminServer(builder: ContextBuilder, s: ConductorState, w: World)
    ensures var r := SetupRun(builder, s, w);
            r.state.adminServer
              == if AdminServerBuilt(builder, w) then Some(AdminServerFor(Context(builder.settings))) else s.adminServer
    ensures var context := Context(builder.settings);
            CoreReturns(context, w) && AdminEnabled(builder.settings) && Fails(w, NewAdminServerCall(context))
            ==> SetupRun(builder, s, w).result == Fail(w.raises(NewAdminServerCall(context)).value)
  {
  }

  /**
   * Stop after a setup of a fresh conductor, whether it returned or failed part-way, stops
   * exactly the components whose constructors returned: the admin server first, then the
   * inbound and the outbound transports.
   */
  lemma StopAfterSetup(builder: ContextBuilder, w: World)
    ensures var r := SetupRun(builder, Initial, w);
            var context := Context(builder.settings);
            StopCalls(r.state) ==
              (if AdminServerBuilt(builder, w) then [StopAdminServer] else [])
              + (if InboundManagerBuilt(context, w) then [StopInboundTransports] else [])
              + (if OutboundManagerBuilt(context, w) then [StopOutboundTransports] else [])
  {
    SetupKeepsCoreComponents(builder, Initial, w);
    SetupAssignsAdminServer(builder, Initial, w);
  }

  // ---------------------------------------------------------------------------------------
  // whole runs
  // ---------------------------------------------------------------------------------------

  /**
   * With the admin server disabled, a fresh conductor never has one: start neither starts
   * nor binds it and stop does not stop it.
   */
  lemma AdminDisabledRun(builder: ContextBuilder, w: World)
    requires !AdminEnabled(builder.settings)
    ensures var r := SetupRun(builder, Initial, w);
            && r.state.adminServer.None?
            && StopAdminServer !in StopCalls(r.state)
            && (r.result.Pass? ==>
                  var started := StartRun(r.state, w);
                  forall i :: 0 <= i < |started.events| ==> !AdminStartEvent(started.events[i]))
  {
    var r := SetupRun(builder, Initial, w);
    SetupAssignsAdminServer(builder, Initial, w);
    if r.result.Pass? {
      StartAdminOnlyWhenPresent(r.state, w);
    }
  }

  /**
   * With the admin server enabled, a fresh conductor whose setup returned has one, bound to
   * the configured host and port, and stop stops it first.
   */
  lemma AdminEnabledRun(builder: ContextBuilder, w: World)
    requires AdminEnabled(builder.settings)
    ensures var r := SetupRun(builder, Initial, w);
            r.result.Pass? ==>
              && r.state.adminServer == Some(AdminServerFor(Context(builder.settings)))
              && StopCalls(r.state) == [StopAdminServer, StopInboundTransports, StopOutboundTransports]
  {
    SetupAssignsAdminServer(builder, Initial, w);
    SetupReturnsWithAdminServer(builder, Initial, w);
  }

  /** With the admin server enabled, a setup that returns built it. */
  lemma SetupReturnsWithAdminServer(builder: ContextBuilder, s: ConductorState, w: World)
    requires AdminEnabled(builder.settings)
    ensures SetupRun(builder, s, w).result.Pass? ==> AdminServerBuilt(builder, w)
  {
    var context := Context(builder.settings);
    var core := CoreSetup(builder, s, w);
    var admin := AdminSetup(core, context, w);
    var stats := CollectorSetup(admin, context, w);
    assert SetupRun(builder, s, w).result == stats.result;
    if core.result.Pass? && Fails(w, NewAdminServerCall(context)) {
      assert admin.result.Fail?;
    }
  }
}
