/**
 * Crud: the AxiCrud<T> object. It holds the base url and the publicly assignable instance
 * config; each operation hands one request to the HTTP client and then runs the callbacks of
 * its chain one after another. What the callbacks do is recorded, in order, in `trace`.
 */
module Crud {
  import opened Wrappers
  import opened Paths
  import opened Hooks
  import opened Flow

  class AxiCrud<T> {
    /** The base url of the resource; set once by the constructor. */
    const url: string
    /** The instance-level config; a public field that callers may reassign. */
    var config: Option<RequestConfig>
    /** Requests sent and callbacks run, one block per operation, each block in chain order. */
    var trace: seq<Event<T>>

    /** A missing instance config is replaced by the empty one. */
    constructor (url: string, config: Option<RequestConfig>)
      ensures this.url == url
      ensures this.config == if config.Some? then config else Some(DefaultConfig())
      ensures trace == []
    {
      this.url := url;
      this.config := if config.Some? then config else Some(DefaultConfig());
      trace := [];
    }

    /** `errorHandle(error, config)`: runs the call-level onFail if there is one, else the
        instance-level one if there is one, else nothing. */
    method ErrorHandle(error: Error, call: Option<RequestConfig>)
      modifies this`trace
      ensures trace == old(trace) + FailEvents(error, call, config)
    {
      if call.Some? && call.value.onFail.Some? {
        trace := trace + [FailRan(call.value.onFail.value, error)];
      } else {
        if config.Some? && config.value.onFail.Some? {
          trace := trace + [FailRan(config.value.onFail.value, error)];
        }
      }
    }

    /** `finally(config)`: the same rule for the finally handler. */
    method Finally(call: Option<RequestConfig>)
      modifies this`trace
      ensures trace == old(trace) + FinallyEvents(call, config)
    {
      if call.Some? && call.value.onFinally.Some? {
        trace := trace + [FinallyRan(call.value.onFinally.value)];
      } else {
        if config.Some? && config.value.onFinally.Some? {
          trace := trace + [FinallyRan(config.value.onFinally.value)];
        }
      }
    }

    /** Hands a request to the HTTP client. */
    method Send(request: Request<T>)
      modifies this`trace
      ensures trace == old(trace) + [Sent(request)]
    {
      trace := trace + [Sent(request)];
    }

    /** Invokes a success callback; returns what it throws, if anything. */
    method RunCallback(cb: Callback, arg: Payload<T>) returns (thrown: Option<Error>)
      modifies this`trace
      ensures trace == old(trace) + Invoked(cb, arg).events
      ensures thrown == Invoked(cb, arg).thrown
    {
      trace := trace + [CallbackRan(cb, arg)];
      thrown := cb.raises;
    }

    /** The success step of `create` and `update`: reads `config.cbWithModel`, which throws when
        no config object was passed. */
    method RespondWithModel(res: Response<T>, model: T, cb: Callback, call: Option<ModelConfig>)
      returns (thrown: Option<Error>)
      modifies this`trace
      ensures trace == old(trace) + ModelSuccess(res, model, cb, call).events
      ensures thrown == ModelSuccess(res, model, cb, call).thrown
    {
      if call.None? {
        thrown := Some(UndefinedRead("cbWithModel"));
      } else if call.value.cbWithModel == Some(true) {
        thrown := RunCallback(cb, SubmittedModel(model));
      } else {
        thrown := RunCallback(cb, ItemResponse(res));
      }
    }

    /** `withList(cb, config)`: GET of the base url, then the chain. */
    method WithList(cb: Callback, call: Option<RequestConfig>, outcome: Outcome<Response<seq<T>>>)
      modifies this`trace
      ensures trace == old(trace) + [Sent(ListRequest(url))] + ListTrace(outcome, cb, call, config)
    {
      Send(ListRequest(url));
      var failure: Option<Error>;
      match outcome {
        case Ok(res) => failure := RunCallback(cb, ListResponse(res));
        case Err(e) => failure := Some(e);
      }
      if failure.Some? {
        ErrorHandle(failure.value, call);
      }
      Finally(call);
    }

    /** `withItem(id, cb, config)`: GET of the item path, then the chain. */
    method WithItem(id: Id, cb: Callback, call: Option<RequestConfig>, outcome: Outcome<Response<T>>)
      modifies this`trace
      ensures trace == old(trace) + [Sent(ItemRequest(url, id))] + ItemTrace(outcome, cb, call, config)
    {
      Send(ItemRequest(url, id));
      var failure: Option<Error>;
      match outcome {
        case Ok(res) => failure := RunCallback(cb, ItemResponse(res));
        case Err(e) => failure := Some(e);
      }
      if failure.Some? {
        ErrorHandle(failure.value, call);
      }
      Finally(call);
    }

    /** `create(model, cb, config)`: POST of the model to the base url, then the chain; with no
        callback the success step does nothing. */
    method Create(model: T, cb: Option<Callback>, call: Option<ModelConfig>, outcome: Outcome<Response<T>>)
      modifies this`trace
      ensures trace == old(trace) + [Sent(CreateRequest(url, model))] + CreateTrace(outcome, model, cb, call, config)
    {
      Send(CreateRequest(url, model));
      var failure: Option<Error> := None;
      match outcome {
        case Ok(res) =>
          if cb.Some? {
            failure := RespondWithModel(res, model, cb.value, call);
          }
        case Err(e) => failure := Some(e);
      }
      if failure.Some? {
        ErrorHandle(failure.value, HooksOf(call));
      }
      Finally(HooksOf(call));
    }

    /** `update(model, id, cb, config)`: PUT of the model to `itemPath(id) + "/"`, then the chain. */
    method Update(model: T, id: Id, cb: Callback, call: Option<ModelConfig>, outcome: Outcome<Response<T>>)
      modifies this`trace
      ensures trace == old(trace) + [Sent(UpdateRequest(url, id, model))] + UpdateTrace(outcome, model, cb, call, config)
    {
      Send(UpdateRequest(url, id, model));
      var failure: Option<Error>;
      match outcome {
        case Ok(res) => failure := RespondWithModel(res, model, cb, call);
        case Err(e) => failure := Some(e);
      }
      if failure.Some? {
        ErrorHandle(failure.value, HooksOf(call));
      }
      Finally(HooksOf(call));
    }

    /** `delete(id, cb, config)`: DELETE of the item path, then the chain. */
    method Delete(id: Id, cb: Callback, call: Option<RequestConfig>, outcome: Outcome<Response<T>>)
      modifies this`trace
      ensures trace == old(trace) + [Sent(DeleteRequest(url, id))] + ItemTrace(outcome, cb, call, config)
    {
      Send(DeleteRequest(url, id));
      var failure: Option<Error>;
      match outcome {
        case Ok(res) => failure := RunCallback(cb, ItemResponse(res));
        case Err(e) => failure := Some(e);
      }
      if failure.Some? {
        ErrorHandle(failure.value, call);
      }
      Finally(call);
    }
  }
}
