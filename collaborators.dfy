/**
 * The conductor's collaborators, seen from the conductor: the values it builds and hands
 * around, the calls it makes on them (the events of its trace), and the world that decides
 * how each call ends. The collaborators' own code is not part of this model.
 */
module Collaborators {
  import opened Wrappers
  import opened Config

  /**
   * The exceptions that matter to the conductor. The outbound router catches the first two,
   * each around one call only; setup and start catch every exception where they catch at all.
   * `TypeError` is what iterating a non-iterable setting raises.
   */
  datatype Exc = ConnectionManagerError | OutboundDeliveryError | TypeError | OtherException

  /** The injection context; the conductor reads only its settings. */
  datatype Context = Context(settings: Settings)

  /** The context builder handed to the conductor; `build()` yields a context over these settings. */
  datatype ContextBuilder = ContextBuilder(settings: Settings)

  /** Bound methods the conductor passes to its collaborators as callbacks. */
  datatype Callback =
    | InboundRouter                           // self.inbound_message_router
    | OutboundRouter                          // self.outbound_message_router
    | DispatcherRunTask(dispatcher: Dispatcher)  // self.dispatcher.run_task
    | DispatcherPutTask(dispatcher: Dispatcher)  // self.dispatcher.put_task

  datatype Dispatcher = Dispatcher(context: Context)
  datatype InboundTransportManager = InboundTransportManager(context: Context, receiver: Callback)
  datatype OutboundTransportManager = OutboundTransportManager(context: Context, taskRunner: Callback)
  datatype AdminServer = AdminServer(host: Value, port: Value, context: Context, router: Callback, taskQueue: Callback)

  /** A resolved delivery destination. */
  datatype ConnectionTarget = ConnectionTarget(endpoint: string, recipientKeys: seq<string>, routingKeys: seq<string>)

  /** The fields of an outbound message that routing reads or writes (`None` is Python's `None`). */
  datatype OutboundFields = OutboundFields(
    payload: string,
    connectionId: Option<string>,
    target: Option<ConnectionTarget>,
    targetList: Option<seq<ConnectionTarget>>)

  /** How a message arrived; `directResponseMode` is the requested reply mode, if any. */
  datatype MessageReceipt = MessageReceipt(directResponseMode: Option<string>)

  datatype InboundMessage = InboundMessage(payload: string, receipt: MessageReceipt, transportType: string)

  /** What the dispatcher passes to a completion callback. */
  datatype Task = Task(id: nat)
  datatype ExcInfo = NoException | Raised(exc: Exc)

  /**
   * The completion callback queued with an inbound message:
   * `lambda task, exc_info: self.inbound_transport_manager.dispatch_complete(message, task, exc_info)`.
   */
  datatype Completion = DispatchComplete(message: InboundMessage)
  {
    /** The call the callback makes when the dispatcher reports `task` finished. */
    function Call(task: Task, info: ExcInfo): Event
    {
      DispatchCompleted(message, task, info)
    }
  }

  /** A SHA-256 digest, kept symbolic: the digest of the given ASCII byte string. */
  datatype Digest = Sha256(input: string)

  /** Capabilities under which instances are bound in the context's injector. */
  datatype Capability = BaseAdminServer | BaseResponder
  datatype Instance = AdminServerInstance(server: AdminServer) | AdminResponder(server: AdminServer)

  /** What the stats collector wraps. */
  datatype WrapTarget = ConductorMethods | DispatcherMethods(dispatcher: Dispatcher) | ConnectionManagerClass

  /** One entry of the conductor's trace: a call into a collaborator, or the one warning it logs. */
  datatype Event =
    // setup
    | BuildContext
    | NewDispatcher(context: Context)
    | NewInboundTransportManager(context: Context)
    | SetupInboundTransports
    | NewOutboundTransportManager(context: Context)
    | SetupOutboundTransports
    | NewAdminServer(host: Value, port: Value)
    | AddWebhookTarget(url: Value)
    | BindInstance(capability: Capability, instance: Instance)
    | InjectCollector
    | Wrap(target: WrapTarget, methods: seq<string>)
    // start
    | WalletConfig
    | LedgerConfig(publicDid: Value)
    | StartInboundTransports
    | StartOutboundTransports
    | StartAdminServer
    | CreateStaticConnection(mySeed: Digest, theirSeed: Digest, theirEndpoint: Value, theirRole: string, alias: string)
    | CreateInvitation(inviteRole: Value, inviteLabel: Value, multiUse: Value, public: Value)
    | InvitationUrl(baseUrl: Value)
    // stop
    | StopAdminServer
    | StopInboundTransports
    | StopOutboundTransports
    // routing
    | WarnDirectResponse(transportType: string)
    | QueueMessage(inbound: InboundMessage, responder: Callback, completion: Completion)
    | DispatchCompleted(message: InboundMessage, task: Task, info: ExcInfo)
    | GetConnectionTargets(requestContext: Context, connectionId: string)
    | Deliver(deliveryContext: Context, outbound: OutboundFields)

  /**
   * The world outside the conductor: whether each call raises (and what), and the values the
   * calls that return something return.
   */
  datatype World = World(
    raises: Event -> Option<Exc>,
    publicDid: Value,                                     // returned by wallet_config
    collector: bool,                                      // whether a stats collector is bound
    targets: (Context, string) -> seq<ConnectionTarget>)  // returned by get_connection_targets

  predicate Fails(w: World, e: Event)
  {
    w.raises(e).Some?
  }
}
