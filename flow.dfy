/**
 * Flow: what one AxiCrud operation does once its request has settled. Every operation is the
 * chain `.then(success).catch(errorHandle).then(finally)`; here that chain is a function from
 * the request's outcome and the configs to the sequence of callback events it produces.
 */
module Flow {
  import opened Wrappers
  import opened Paths
  import opened Hooks

  /** What can reject the chain: the HTTP request itself, a success callback that throws, or a
      TypeError from reading a property of `undefined`. */
  datatype Error = RequestFailed(reason: string) | Raised(reason: string) | UndefinedRead(property: string)

  /** An AxiosResponse carrying `data` of type B. */
  datatype Response<B> = Response(status: int, data: B)

  /** How the HTTP client's promise settled. */
  datatype Outcome<R> = Ok(response: R) | Err(error: Error)

  /** A success callback supplied by the caller; `raises` is what it throws when invoked, if anything. */
  datatype Callback = Callback(name: string, raises: Option<Error>)

  /** IModelConfig: the IRequestConfig hooks plus the optional `cbWithModel` flag. */
  datatype ModelConfig = ModelConfig(hooks: RequestConfig, cbWithModel: Option<bool>)

  datatype Verb = GET | POST | PUT | DELETE

  /** A request handed to the HTTP client: verb, path and, for POST and PUT, the model sent. */
  datatype Request<T> = Request(verb: Verb, path: string, body: Option<T>)

  /** What a success callback receives. */
  datatype Payload<T> =
    | ListResponse(list: Response<seq<T>>)
    | ItemResponse(item: Response<T>)
    | SubmittedModel(model: T)

  /** One observable step of an operation, in the order it happens. */
  datatype Event<T> =
    | Sent(request: Request<T>)
    | CallbackRan(cb: Callback, arg: Payload<T>)
    | FailRan(handler: Handler, error: Error)
    | FinallyRan(handler: Handler)

  /** The events of the first `.then`, and the error it rejects with, if any. */
  datatype Step<T> = Step(events: seq<Event<T>>, thrown: Option<Error>)

  /** The error/finally hooks of a create or update config: the same object, read as IRequestConfig. */
  function HooksOf(config: Option<ModelConfig>): Option<RequestConfig> {
    if config.Some? then Some(config.value.hooks) else None
  }

  /** `errorHandle(error, config)`: at most the one selected onFail handler, given the error as it is. */
  function FailEvents<T>(e: Error, call: Option<RequestConfig>, inst: Option<RequestConfig>): seq<Event<T>> {
    match Select(FailHook, call, inst)
    case Some(h) => [FailRan(h, e)]
    case None => []
  }

  /** `finally(config)`: at most the one selected finally handler. */
  function FinallyEvents<T>(call: Option<RequestConfig>, inst: Option<RequestConfig>): seq<Event<T>> {
    match Select(FinallyHook, call, inst)
    case Some(h) => [FinallyRan(h)]
    case None => []
  }

  /** Invoking a success callback: one event, then whatever the callback throws. */
  function Invoked<T>(cb: Callback, arg: Payload<T>): Step<T> {
    Step([CallbackRan(cb, arg)], cb.raises)
  }

  /** A request that failed: the success step is skipped and the chain rejects with its error. */
  function Rejected<T>(e: Error): Step<T> {
    Step([], Some(e))
  }

  /** `.catch(errorHandle).then(finally)` after the first step: a rejection goes to errorHandle
      and is swallowed there, and finally runs in either case. */
  function Settle<T>(first: Step<T>, call: Option<RequestConfig>, inst: Option<RequestConfig>): seq<Event<T>> {
    first.events
    + (if first.thrown.Some? then FailEvents(first.thrown.value, call, inst) else [])
    + FinallyEvents(call, inst)
  }

  /** `withList`: `.then((res) => cb(res))` on the GET of the base url. */
  function ListTrace<T>(outcome: Outcome<Response<seq<T>>>, cb: Callback, call: Option<RequestConfig>,
                        inst: Option<RequestConfig>): seq<Event<T>>
  {
    Settle(if outcome.Ok? then Invoked(cb, ListResponse(outcome.response)) else Rejected(outcome.error), call, inst)
  }

  /** `withItem` and `delete`: `.then((res) => cb(res))` on the request for one item. */
  function ItemTrace<T>(outcome: Outcome<Response<T>>, cb: Callback, call: Option<RequestConfig>,
                        inst: Option<RequestConfig>): seq<Event<T>>
  {
    Settle(if outcome.Ok? then Invoked(cb, ItemResponse(outcome.response)) else Rejected(outcome.error), call, inst)
  }

  /** The success step of `create` (once `cb` is known to be present) and of `update`: read
      `config.cbWithModel`, which throws a TypeError when no config object was passed; when it
      is true the callback gets the submitted model, otherwise the response. */
  function ModelSuccess<T>(res: Response<T>, model: T, cb: Callback, config: Option<ModelConfig>): Step<T> {
    match config
    case None => Step([], Some(UndefinedRead("cbWithModel")))
    case Some(c) =>
      if c.cbWithModel == Some(true) then Invoked(cb, SubmittedModel(model)) else Invoked(cb, ItemResponse(res))
  }

  /** `create`: POST of the model; the success callback is optional, and without one the
      success step does nothing at all (`config` is not read). */
  function CreateTrace<T>(outcome: Outcome<Response<T>>, model: T, cb: Option<Callback>,
                          config: Option<ModelConfig>, inst: Option<RequestConfig>): seq<Event<T>>
  {
    var first :=
      match outcome
      case Err(e) => Rejected(e)
      case Ok(res) => if cb.Some? then ModelSuccess(res, model, cb.value, config) else Step([], None);
    Settle(first, HooksOf(config), inst)
  }

  /** `update`: PUT of the model; the success callback is required. */
  function UpdateTrace<T>(outcome: Outcome<Response<T>>, model: T, cb: Callback,
                          config: Option<ModelConfig>, inst: Option<RequestConfig>): seq<Event<T>>
  {
    var first :=
      match outcome
      case Err(e) => Rejected(e)
      case Ok(res) => ModelSuccess(res, model, cb, config);
    Settle(first, HooksOf(config), inst)
  }

  /** The requests the five operations hand to the HTTP client. */
  function ListRequest<T>(url: string): Request<T> { Request(GET, url, None) }
  function ItemRequest<T>(url: string, id: Id): Request<T> { Request(GET, ItemPath(url, id), None) }
  function CreateRequest<T>(url: string, model: T): Request<T> { Request(POST, url, Some(model)) }
  function UpdateRequest<T>(url: string, id: Id, model: T): Request<T> { Request(PUT, UpdatePath(url, id), Some(model)) }
  function DeleteRequest<T>(url: string, id: Id): Request<T> { Request(DELETE, ItemPath(url, id), None) }

  // ---------------------------------------------------------------------------------------------
  // Properties of the traces

  /** The position of each kind of event in a chain: request, success callback, onFail, finally. */
  function Rank<T>(ev: Event<T>): nat {
    match ev
    case Sent(_) => 0
    case CallbackRan(_, _) => 1
    case FailRan(_, _) => 2
    case FinallyRan(_) => 3
  }

  /** Events strictly in chain order: so each kind occurs at most once, and in that order. */
  ghost predicate Ordered<T>(t: seq<Event<T>>) {
    forall i, j :: 0 <= i < j < |t| ==> Rank(t[i]) < Rank(t[j])
  }

  /** No success callback ran. */
  ghost predicate NoCallback<T>(t: seq<Event<T>>) {
    forall i :: 0 <= i < |t| ==> !t[i].CallbackRan?
  }

  /** Finally closes the chain: when a finally handler is selected it is the last event, and
      otherwise no finally event occurs at all. */
  ghost predicate FinallyCloses<T>(t: seq<Event<T>>, call: Option<RequestConfig>, inst: Option<RequestConfig>) {
    match Select(FinallyHook, call, inst)
    case Some(h) => |t| > 0 && t[|t| - 1] == FinallyRan(h)
    case None => forall i :: 0 <= i < |t| ==> !t[i].FinallyRan?
  }

  /** Whatever the first step did (at most one callback), the request followed by the settled
      chain is in order: the request, at most one success callback, at most one onFail, and at
      most one finally, which is last and is there exactly when a finally handler is selected. */
  lemma SettleOrdered<T>(r: Request<T>, first: Step<T>, call: Option<RequestConfig>, inst: Option<RequestConfig>)
    requires |first.events| <= 1
    requires forall i :: 0 <= i < |first.events| ==> first.events[i].CallbackRan?
    ensures Ordered([Sent(r)] + Settle(first, call, inst))
    ensures FinallyCloses(Settle(first, call, inst), call, inst)
  {
    var f := if first.thrown.Some? then FailEvents(first.thrown.value, call, inst) else [];
    var z := FinallyEvents(call, inst);
    var u := [Sent(r)] + Settle(first, call, inst);
    assert u == [Sent(r)] + first.events + f + z;
    var n := |first.events|;
    assert forall i :: 0 <= i < |u| ==>
      (i == 0 ==> Rank(u[i]) == 0) &&
      (1 <= i < 1 + n ==> Rank(u[i]) == 1) &&
      (1 + n <= i < 1 + n + |f| ==> Rank(u[i]) == 2) &&
      (1 + n + |f| <= i ==> Rank(u[i]) == 3);
  }

  /** `withList`: the GET followed by its chain is in order, and finally, when selected, runs
      exactly once and last. */
  lemma ListTraceOrdered<T>(url: string, outcome: Outcome<Response<seq<T>>>, cb: Callback,
                            call: Option<RequestConfig>, inst: Option<RequestConfig>)
    ensures Ordered([Sent(ListRequest(url))] + ListTrace(outcome, cb, call, inst))
    ensures FinallyCloses(ListTrace(outcome, cb, call, inst), call, inst)
  {
    SettleOrdered(ListRequest(url),
                  if outcome.Ok? then Invoked(cb, ListResponse(outcome.response)) else Rejected(outcome.error),
                  call, inst);
  }

  /** `withItem` and `delete`: the request for the item followed by its chain is in order, and
      finally, when selected, runs exactly once and last. */
  lemma ItemTraceOrdered<T>(r: Request<T>, outcome: Outcome<Response<T>>, cb: Callback,
                            call: Option<RequestConfig>, inst: Option<RequestConfig>)
    ensures Ordered([Sent(r)] + ItemTrace(outcome, cb, call, inst))
    ensures FinallyCloses(ItemTrace(outcome, cb, call, inst), call, inst)
  {
    SettleOrdered(r, if outcome.Ok? then Invoked(cb, ItemResponse(outcome.response)) else Rejected(outcome.error),
                  call, inst);
  }

  /** `create`: the POST followed by its chain is in order, and finally, when selected by the
      config's hooks or the instance's, runs exactly once and last. */
  lemma CreateTraceOrdered<T>(url: string, outcome: Outcome<Response<T>>, model: T, cb: Option<Callback>,
                              config: Option<ModelConfig>, inst: Option<RequestConfig>)
    ensures Ordered([Sent(CreateRequest(url, model))] + CreateTrace(outcome, model, cb, config, inst))
    ensures FinallyCloses(CreateTrace(outcome, model, cb, config, inst), HooksOf(config), inst)
  {
    var first :=
      match outcome
      case Err(e) => Rejected(e)
      case Ok(res) => if cb.Some? then ModelSuccess(res, model, cb.value, config) else Step([], None);
    SettleOrdered(CreateRequest(url, model), first, HooksOf(config), inst);
  }

  /** `update`: the PUT followed by its chain is in order, and finally, when selected, runs
      exactly once and last. */
  lemma UpdateTraceOrdered<T>(url: string, id: Id, outcome: Outcome<Response<T>>, model: T, cb: Callback,
                              config: Option<ModelConfig>, inst: Option<RequestConfig>)
    ensures Ordered([Sent(UpdateRequest(url, id, model))] + UpdateTrace(outcome, model, cb, config, inst))
    ensures FinallyCloses(UpdateTrace(outcome, model, cb, config, inst), HooksOf(config), inst)
  {
    var first :=
      match outcome
      case Err(e) => Rejected(e)
      case Ok(res) => ModelSuccess(res, model, cb, config);
    SettleOrdered(UpdateRequest(url, id, model), first, HooksOf(config), inst);
  }

  /** A failed request never reaches the success callback (nor, in create and update, the read of
      `cbWithModel`): the error goes unchanged to the selected onFail handler, then finally runs. */
  lemma FailedRequest<T>(e: Error, model: T, cb: Callback, ocb: Option<Callback>,
                         call: Option<RequestConfig>, mcall: Option<ModelConfig>, inst: Option<RequestConfig>)
    ensures ListTrace<T>(Err(e), cb, call, inst) == FailEvents(e, call, inst) + FinallyEvents(call, inst)
    ensures ItemTrace<T>(Err(e), cb, call, inst) == FailEvents(e, call, inst) + FinallyEvents(call, inst)
    ensures CreateTrace(Err(e), model, ocb, mcall, inst)
            == FailEvents(e, HooksOf(mcall), inst) + FinallyEvents(HooksOf(mcall), inst)
    ensures UpdateTrace(Err(e), model, cb, mcall, inst)
            == FailEvents(e, HooksOf(mcall), inst) + FinallyEvents(HooksOf(mcall), inst)
    ensures NoCallback(ListTrace<T>(Err(e), cb, call, inst))
  {
  }

  /** A successful request invokes the callback exactly once, first, with the response; with a
      callback that does not throw no onFail runs, and with one that throws, its error is routed
      through errorHandle before finally. */
  lemma SucceededRequest<T>(lres: Response<seq<T>>, res: Response<T>, cb: Callback,
                            call: Option<RequestConfig>, inst: Option<RequestConfig>)
    ensures ListTrace(Ok(lres), cb, call, inst)
            == [CallbackRan(cb, ListResponse(lres))]
               + (if cb.raises.Some? then FailEvents(cb.raises.value, call, inst) else [])
               + FinallyEvents(call, inst)
    ensures ItemTrace(Ok(res), cb, call, inst)
            == [CallbackRan(cb, ItemResponse(res))]
               + (if cb.raises.Some? then FailEvents(cb.raises.value, call, inst) else [])
               + FinallyEvents(call, inst)
  {
  }

  /** `create` and `update` on success with a config object: the callback runs exactly once,
      first, with the submitted model when `cbWithModel` is true and with the response otherwise;
      no onFail runs unless the callback throws, in which case its error goes through errorHandle
      with the call's config; finally follows. `create` with no callback fires only finally. */
  lemma ModelCallbacks<T>(res: Response<T>, model: T, cb: Callback, c: ModelConfig, inst: Option<RequestConfig>)
    ensures var arg := if c.cbWithModel == Some(true) then SubmittedModel(model) else ItemResponse(res);
            UpdateTrace(Ok(res), model, cb, Some(c), inst)
            == CreateTrace(Ok(res), model, Some(cb), Some(c), inst)
            == [CallbackRan(cb, arg)]
               + (if cb.raises.Some? then FailEvents(cb.raises.value, Some(c.hooks), inst) else [])
               + FinallyEvents(Some(c.hooks), inst)
    ensures CreateTrace(Ok(res), model, None, Some(c), inst) == FinallyEvents(Some(c.hooks), inst)
  {
  }

  /** `create` and `update` on success with no config object at all: the read of `cbWithModel`
      throws, the callback is not called, and the TypeError goes to the instance-level onFail
      before the instance-level finally. In `create` this happens only when a callback was given;
      without one, only finally runs. */
  lemma MissingModelConfig<T>(res: Response<T>, model: T, cb: Callback, inst: Option<RequestConfig>)
    ensures CreateTrace(Ok(res), model, None, None, inst) == FinallyEvents(None, inst)
    ensures CreateTrace(Ok(res), model, Some(cb), None, inst)
            == UpdateTrace(Ok(res), model, cb, None, inst)
            == (match Offered(inst, FailHook)
                case Some(h) => [FailRan(h, UndefinedRead("cbWithModel"))]
                case None => [])
               + FinallyEvents(None, inst)
    ensures NoCallback(UpdateTrace(Ok(res), model, cb, None, inst))
  {
  }

  /** With the empty instance config the constructor installs and no call-level handlers, a
      failure runs no handler at all, and nothing is re-raised: the chain ends there. This holds
      for all five operations. */
  lemma SilentByDefault<T>(e: Error, model: T, cb: Callback, ocb: Option<Callback>,
                           call: Option<RequestConfig>, mcall: Option<ModelConfig>)
    requires Offered(call, FailHook).None? && Offered(call, FinallyHook).None?
    requires Offered(HooksOf(mcall), FailHook).None? && Offered(HooksOf(mcall), FinallyHook).None?
    ensures ListTrace<T>(Err(e), cb, call, Some(DefaultConfig())) == []
    ensures ItemTrace<T>(Err(e), cb, call, Some(DefaultConfig())) == []
    ensures CreateTrace(Err(e), model, ocb, mcall, Some(DefaultConfig())) == []
    ensures UpdateTrace(Err(e), model, cb, mcall, Some(DefaultConfig())) == []
  {
  }
}
