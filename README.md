# Conductor of an Aries cloud agent, modelled in Dafny

The conductor (`aries_cloudagent/conductor.py`) is the agent's orchestrator. It owns the
context builder it was made with and, once set up, the dispatcher, the inbound and outbound
transport managers, the injection context and, when enabled, the admin server. Its methods are:

- `setup`: build the context, create the dispatcher and both transport managers, create the
  admin server and register its webhook targets when `admin.enabled` is set, wrap the
  instrumented methods when a stats collector is available, and assign the context last;
- `start`: configure the wallet and the ledger, start both transports (all fatal), start the
  admin server (its error only logged) and bind its responder, create the test suite's static
  connection when `debug.test_suite_endpoint` is set, and print an invitation when
  `debug.print_invitation` is set (its errors only logged);
- `stop`: schedule the stop of each component that exists;
- `inbound_message_router`: warn when a direct response is requested, then queue the message
  on the dispatcher with the outbound router as responder and a completion callback;
- `outbound_message_router`: resolve the connection's targets when the message carries none,
  then hand the message to the outbound transport manager; a `ConnectionManagerError` from the
  lookup or an `OutboundDeliveryError` from delivery drops the message.

Every collaborator (context builder, dispatcher, transport managers, admin server, connection
manager, wallet and ledger configuration, stats collector) is abstract: each call it receives
is an `Event`, and a `World` value says which calls raise which exception, what the wallet's
public DID is, whether a collector is available and which targets a connection resolves to.
Python exceptions become an `Outcome` (`Pass` or `Fail(error)`).

The project has two layers:

- `Routing`, `Lifecycle`: the behaviour as functions. A `Run` is the conductor's fields
  afterwards, the calls made in order, and the outcome. A step is fatal (`Call`, `Steps`:
  its exception ends the run) or recoverable (`Attempt`: its exception is swallowed).
  `LifecycleProperties` proves what the lifecycle promises as lemmas.
- `Agent`: the conductor as a class whose fields the methods update in place, with a ghost
  `trace` of the calls made. Every method is proved to produce exactly the run, trace and
  outcome of the matching function. `OutboundMessage` is a class whose `targetList` the
  outbound router overwrites.

Files: `wrappers.dfy` (Option, Outcome), `config.dfy` (setting values, Python truthiness,
`settings.get`, iteration), `collaborators.dfy` (collaborators as values, the events, the
world), `routing.dfy`, `lifecycle.dfy`, `lifecycle_properties.dfy`, `agent.dfy`.

## Model

| member | source | states |
|---|---|---|
| Config.IterateStringJoins | aries_cloudagent/conductor.py:94-95 | iterating a string setting yields one one-character string per character, and joined back in order they give the string |
| Routing.InboundRoute | aries_cloudagent/conductor.py:229-248 | exactly one `queue_message`, last, with the unchanged message, the outbound router as responder and a completion callback that, for whatever task and exception info it receives, calls `dispatch_complete` on this same message with them; the only other call is the warning, made at most once and iff a direct-response mode is set and is not "none"; the router raises exactly what `queue_message` raises |
| Routing.RouteOutbound | aries_cloudagent/conductor.py:290-308 | only `target_list` may change, and only to the resolved targets; with a target or a non-empty target list (or no connection id) no lookup and one delivery of the unchanged message; otherwise lookup first, then one delivery of the resolved message, or none if the lookup raised; `ConnectionManagerError` and `OutboundDeliveryError` are swallowed, every other exception of the last call propagates |
| Routing.ResolvedTargetsAreDelivered | aries_cloudagent/conductor.py:290-301 | a message with only a connection id whose targets resolve to `[t1, t2]` is delivered with exactly that target list |
| Lifecycle.StepsStopAtFirstFailure | aries_cloudagent/conductor.py:133-148 | fatal calls made in a row: the fields are untouched, the calls made are a prefix of them, every call before the last made returned, the run returns exactly when all were made and returned, and a failed run ends with the exception of its last call |
| Lifecycle.DispatcherSetup | aries_cloudagent/conductor.py:65-67 | after a failure it does nothing; otherwise the dispatcher over the built context is assigned, and nothing else, exactly when the context and the dispatcher were built, and the step returns exactly then |
| Lifecycle.InboundSetup | aries_cloudagent/conductor.py:69-73 | after a failure it does nothing; otherwise the inbound manager is assigned, and nothing else, exactly when its constructor returned, and the step returns exactly when the constructor and the manager's setup both return |
| Lifecycle.OutboundSetup | aries_cloudagent/conductor.py:75-79 | after a failure it does nothing; otherwise the outbound manager is assigned, and nothing else, exactly when its constructor returned, and the step returns exactly when the constructor and the manager's setup both return |
| Lifecycle.CoreSetup | aries_cloudagent/conductor.py:65-79 | the dispatcher, the inbound manager (routing to the inbound router) and the outbound manager (running tasks on the dispatcher) are each assigned exactly when its constructor and every call before it returned, nothing else changes; the core returns iff all six calls return, having made them in order |
| Lifecycle.WebhookSetup | aries_cloudagent/conductor.py:93-96 | the webhook block changes no field, and does nothing after a failure or when `admin.webhook_urls` is unset |
| Lifecycle.AdminSetup | aries_cloudagent/conductor.py:82-100 | the admin block first builds the admin server; the field is set to the server on the configured host and port exactly when its constructor returns; a constructor error ends the block with that error |
| Lifecycle.CollectorSetup | aries_cloudagent/conductor.py:102-123 | the collector block changes no field, does nothing after a failure, and otherwise only adds calls |
| Lifecycle.SetupRun | aries_cloudagent/conductor.py:62-125 | a setup that returns leaves the dispatcher, both managers and the built context set; the context is assigned last, so a failed setup leaves it as it was |
| Lifecycle.AdminStart | aries_cloudagent/conductor.py:153-161 | with an admin server: its start, then the binding of its responder as `BaseResponder` whatever the start did; only the binding's error counts |
| Lifecycle.TestSuiteStart | aries_cloudagent/conductor.py:176-185 | the static connection is created only when the endpoint is set, and its error ends start |
| Lifecycle.InvitationStart | aries_cloudagent/conductor.py:193-207 | the invitation calls never change the outcome or the fields and only add `create_invitation` and url calls |
| Lifecycle.StartRun | aries_cloudagent/conductor.py:127-207 | start changes no field of the conductor |
| Lifecycle.StopCalls | aries_cloudagent/conductor.py:209-218 | a stop is scheduled for the admin server, the inbound and the outbound manager iff each exists, nothing else, each once, admin server first |
| LifecycleProperties.AdminStartExtends | aries_cloudagent/conductor.py:153-161 | the admin part of start only appends the admin server's start and the responder binding, and fails only through the binding, with its error |
| LifecycleProperties.TestSuiteStartExtends | aries_cloudagent/conductor.py:176-190 | the test-suite part of start only appends the static connection, and fails only through it, with its error |
| LifecycleProperties.InvitationStartExtends | aries_cloudagent/conductor.py:193-207 | the invitation part of start only appends invitation calls and changes neither the outcome nor the fields |
| LifecycleProperties.LaterStartSteps | aries_cloudagent/conductor.py:153-207 | the steps after the opening ones only append their own calls, and a failure among them is the responder binding's or the static connection's, with its error |
| LifecycleProperties.StartCallsAreFatal | aries_cloudagent/conductor.py:127-207 | how start ends depends only on the wallet, ledger, transport, responder-binding and static-connection calls |
| LifecycleProperties.AdminStartFailureIsSwallowed | aries_cloudagent/conductor.py:153-157 | start does exactly the same whether or not the admin server's start raises |
| LifecycleProperties.InvitationFailureIsSwallowed | aries_cloudagent/conductor.py:193-207 | start ends the same way whether or not the invitation calls raise |
| LifecycleProperties.StartOpensInOrder | aries_cloudagent/conductor.py:133-148 | start opens with wallet, ledger (given the public DID), inbound start, outbound start; the first of them that raises ends start with its error and nothing after it is called |
| LifecycleProperties.StartAdminOnlyWhenPresent | aries_cloudagent/conductor.py:153-161 | without an admin server start neither starts one nor binds a responder |
| LifecycleProperties.StartAdminThenResponder | aries_cloudagent/conductor.py:153-161 | with an admin server and the transports started, the next calls are its start and then the binding of its responder |
| LifecycleProperties.StartFailsOnlyThroughFatalCalls | aries_cloudagent/conductor.py:133-185 | a failed start ends with the call that raised its error, and that call is wallet, ledger, a transport start, the responder binding or the static connection, never the admin start or the invitation |
| LifecycleProperties.StartTestSuiteConnectionOnlyWhenSet | aries_cloudagent/conductor.py:176-185 | the only static connection start creates has the fixed seeds, role "tester" and alias "test-suite", and only with the endpoint set |
| LifecycleProperties.StartTestSuiteConnectionWhenSet | aries_cloudagent/conductor.py:176-185 | once the admin part returned and the endpoint is set, the static connection is the next call |
| LifecycleProperties.StartTestSuiteFailurePropagates | aries_cloudagent/conductor.py:176-185 | a static-connection error, once reached, is how start ends |
| LifecycleProperties.CoreSetupReRaises | aries_cloudagent/conductor.py:65-79 | the core part of setup swallows no error |
| LifecycleProperties.AdminSetupReRaises | aries_cloudagent/conductor.py:82-100 | the admin block swallows no error: it re-raises, and a webhook list that cannot be iterated raises a type error |
| LifecycleProperties.CollectorSetupReRaises | aries_cloudagent/conductor.py:102-123 | the collector block swallows no error |
| LifecycleProperties.SetupReRaisesEveryError | aries_cloudagent/conductor.py:62-125 | a setup that returns made only calls that returned; a failed one ends with the call that raised its error (or the type error of a non-iterable webhook list) |
| LifecycleProperties.WebhookTargetsOfCalls | aries_cloudagent/conductor.py:95-96 | the registrations made for a list of urls register exactly those urls, in order |
| LifecycleProperties.AdminSetupEvents | aries_cloudagent/conductor.py:82-97 | an admin block that returns made: the admin server, each webhook, the `BaseAdminServer` binding |
| LifecycleProperties.AdminSetupWebhooks | aries_cloudagent/conductor.py:93-96 | an admin block that returns registered the configured urls, in order |
| LifecycleProperties.SetupRegistersWebhooksInOrder | aries_cloudagent/conductor.py:82-100 | a setup that returns registered each configured webhook url once, in list order, and none when the admin server is disabled |
| LifecycleProperties.SetupWrapsWhenCollector | aries_cloudagent/conductor.py:102-123 | a setup that returns ends by fetching the collector, followed by the three wraps exactly when one is available |
| LifecycleProperties.CollectorSetupEvents | aries_cloudagent/conductor.py:102-123 | a collector block that returns fetched the collector, then wrapped the conductor's router, the dispatcher's handler and the connection manager class exactly when there is one |
| LifecycleProperties.CollectorSetupEnds | aries_cloudagent/conductor.py:102-123 | a collector block that returns ends with the three wraps when there is a collector, and with the fetch of the collector otherwise |
| LifecycleProperties.SetupReturnsWithAdminServer | aries_cloudagent/conductor.py:82-100 | with the admin server enabled, a setup returns only if the core calls and the admin server's constructor returned |
| LifecycleProperties.SetupKeepsCoreComponents | aries_cloudagent/conductor.py:62-125 | whatever fails later in setup, the dispatcher and both managers are set exactly when their constructors and every call before them returned, and are otherwise left as they were |
| LifecycleProperties.SetupMakesCoreCallsFirst | aries_cloudagent/conductor.py:65-79 | when every core call returns, setup opens with exactly those six calls, in order, and goes on after them |
| LifecycleProperties.SetupAssignsAdminServer | aries_cloudagent/conductor.py:82-100 | setup sets the admin server exactly when the core returned, the admin server is enabled and its constructor returned, and then to one on the configured host and port ("0.0.0.0" and "80" by default); an error of that constructor is what setup raises |
| LifecycleProperties.StopAfterSetup | aries_cloudagent/conductor.py:209-218 | after a setup of a fresh conductor, returned or failed part-way, stop stops the admin server, then the inbound, then the outbound transports, each exactly when its constructor ran and returned |
| LifecycleProperties.AdminDisabledRun | aries_cloudagent/conductor.py:82-100 | with `admin.enabled` unset a fresh conductor never has an admin server: start does not start or bind one and stop does not stop one |
| LifecycleProperties.AdminEnabledRun | aries_cloudagent/conductor.py:82-100 | with `admin.enabled` set a setup that returns leaves the admin server on the configured host and port, and stop stops it first |
| Agent.Conductor.constructor | aries_cloudagent/conductor.py:45-60 | every component unset, the context builder kept |
| Agent.Conductor.AddWebhookTargets | aries_cloudagent/conductor.py:95-96 | the loop's calls and outcome are exactly the fatal steps of the registrations of the urls, in order: up to and including the first that raises, ending with its error |
| Agent.Conductor.SetupCore | aries_cloudagent/conductor.py:65-79 | the fields and calls of the core part are exactly `CoreSetup`'s |
| Agent.Conductor.CreateDispatcher | aries_cloudagent/conductor.py:65-67 | the field, calls and outcome are exactly `DispatcherSetup`'s |
| Agent.Conductor.CreateInboundTransports | aries_cloudagent/conductor.py:69-73 | the field, calls and outcome are exactly `InboundSetup`'s |
| Agent.Conductor.CreateOutboundTransports | aries_cloudagent/conductor.py:75-79 | the field, calls and outcome are exactly `OutboundSetup`'s |
| Agent.Conductor.BindAdminServer | aries_cloudagent/conductor.py:97 | the binding of the admin server as `BaseAdminServer` is one fatal step |
| Agent.Conductor.SetupAdminServer | aries_cloudagent/conductor.py:82-100 | the fields, calls and outcome of the admin block are exactly `AdminSetup`'s |
| Agent.Conductor.RegisterWebhooks | aries_cloudagent/conductor.py:93-96 | the calls and outcome of the webhook block are exactly `WebhookSetup`'s |
| Agent.Conductor.SetupCollector | aries_cloudagent/conductor.py:102-123 | the calls and outcome of the collector block are exactly `CollectorSetup`'s |
| Agent.Conductor.WrapInstrumented | aries_cloudagent/conductor.py:104-123 | the three wraps are exactly fatal steps of `WrapCalls`, in order |
| Agent.Conductor.Setup | aries_cloudagent/conductor.py:62-125 | the fields, calls and outcome of setup are exactly `SetupRun`'s |
| Agent.Conductor.StartCore | aries_cloudagent/conductor.py:133-148 | the opening calls of start, up to the first that raises |
| Agent.Conductor.StartAdmin | aries_cloudagent/conductor.py:153-161 | the calls and outcome of the admin block of start are exactly `AdminStart`'s |
| Agent.Conductor.CreateTestSuiteConnection | aries_cloudagent/conductor.py:176-190 | the calls and outcome of the test-suite block are exactly `TestSuiteStart`'s |
| Agent.Conductor.PrintInvitation | aries_cloudagent/conductor.py:193-207 | the calls of the invitation block are exactly `InvitationStart`'s |
| Agent.Conductor.Start | aries_cloudagent/conductor.py:127-207 | the calls and outcome of start are exactly `StartRun`'s |
| Agent.Conductor.Stop | aries_cloudagent/conductor.py:209-218 | the stops scheduled are exactly `StopCalls` of the current fields |
| Agent.Conductor.InboundMessageRouter | aries_cloudagent/conductor.py:220-248 | the calls and outcome are exactly `InboundRoute`'s |
| Agent.Conductor.OutboundMessageRouter | aries_cloudagent/conductor.py:270-308 | the message afterwards, the calls and the outcome are exactly `RouteOutbound`'s; only `target_list` of the message is written |

## Left out

- Asynchrony: `await`, task scheduling, the `TaskQueue` of `stop` and its timeout deadline. Stop is modelled by which stops it schedules, in order; an error while stopping is not modelled.
- `log_status`: it is never started (its only call is commented out) and reads attributes the class does not define.
- Logging, `print` and the banner of `start`: cosmetic output. The direct-response warning is kept as a call in the trace because the routing rule is stated by when it fires.
- The collaborators' internals (dispatcher, transport managers, connection manager, admin server, wallet and ledger configuration, invitation url building): each call is an event, and whether it raises is a fixed function of the call and its arguments, so the same call with the same arguments always ends the same way.
- The context builder's `build()`: its result is not supplied by the world but taken to be a context carrying the builder's own settings (`Context(builder.settings)`), so every setting setup and start read (`admin.*`, `debug.*`) is the builder's. A builder that alters or adds settings while building is not modelled; only whether `build()` raises is.
- The `ConnectionManager(...)` constructions in start and in the outbound router (aries_cloudagent/conductor.py lines 177, 195 and 291) are not events: the model takes them never to raise, so an error from one of them (which would propagate at 177 and 291, and be logged at 195) is not modelled. Only the calls made on the manager are.
- SHA-256: the two seeds are the symbolic values `Sha256("aries-protocol-test-subject")` and `Sha256("aries-protocol-test-suite")`.
- The stats collector's `wrap`: only the three wrap calls are recorded, not the method patching. A second `setup` on the same conductor wraps the connection manager class again; the model follows the code, which has no guard against that.
- Exceptions are collapsed into four kinds: `ConnectionManagerError`, `OutboundDeliveryError`, `TypeError` (iterating a webhook setting that is not a list or a string) and any other exception.
- Setting values are limited to null, booleans, integers, strings and lists; a dictionary as `admin.webhook_urls` is not modelled.
- `InboundSession.REPLY_MODE_NONE` is taken to be the string "none"; aries_cloudagent/transport/inbound/session.py is not part of this model.
- Agent.Conductor.Start: requires a completed setup (context, dispatcher and both managers set). Called earlier, the source fails on a missing attribute; that error path is not modelled.
- Agent.Conductor.InboundMessageRouter: requires the dispatcher to be set, and Agent.Conductor.OutboundMessageRouter the outbound transport manager; setup hands out both routers only after creating these.
- The direct-response warning (Routing.InboundRoute) fires whenever a mode other than "none" is requested; whether the transport could serve a direct response is never checked, because the code makes no such check (it only names the transport in the warning).
- The `inbound` argument of the outbound router is accepted and unused, as in the source.
- The completion callback and the queued task are not run: the callback is the value `DispatchComplete(message)`, whose `Call` builds the `dispatch_complete` event.
