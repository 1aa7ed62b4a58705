/**
 * Hooks: the optional onFail / finally handlers of a call and of the AxiCrud instance, and the
 * rule by which `errorHandle` and `finally` choose the one handler to run.
 */
module Hooks {
  import opened Wrappers

  /** A caller-supplied handler, known by its name. */
  datatype Handler = Handler(name: string)

  /** The shape shared by IRequestConfig (per call) and IAxiCrudConfig (per instance):
      an optional `onFail` and an optional `finally` handler. */
  datatype RequestConfig = RequestConfig(onFail: Option<Handler>, onFinally: Option<Handler>)

  /** `AxiCrud.defaultConfig()`: the empty object, with neither handler. */
  function DefaultConfig(): RequestConfig {
    RequestConfig(None, None)
  }

  /** Which of the two hooks is being dispatched: `errorHandle` or `finally`. */
  datatype Hook = FailHook | FinallyHook

  function HookOf(c: RequestConfig, k: Hook): Option<Handler> {
    match k
    case FailHook => c.onFail
    case FinallyHook => c.onFinally
  }

  /** The handler for hook `k` that a config offers; an absent config offers none. */
  function Offered(c: Option<RequestConfig>, k: Hook): Option<Handler> {
    if c.Some? then HookOf(c.value, k) else None
  }

  /** `errorHandle` / `finally`: the call-level handler if the call's config has one, otherwise
      the instance-level one if the instance config has one, otherwise none. The two configs are
      never merged: whatever is chosen comes whole from one of them. */
  function Select(k: Hook, call: Option<RequestConfig>, inst: Option<RequestConfig>): (h: Option<Handler>)
    ensures Offered(call, k).Some? ==> h == Offered(call, k)
    ensures Offered(call, k).None? ==> h == Offered(inst, k)
    ensures h.None? <==> Offered(call, k).None? && Offered(inst, k).None?
  {
    if call.Some? && HookOf(call.value, k).Some? then
      HookOf(call.value, k)
    else if inst.Some? && HookOf(inst.value, k).Some? then
      HookOf(inst.value, k)
    else
      None
  }

  /** Reference definition: the first present entry of a precedence list. */
  function FirstPresent(candidates: seq<Option<Handler>>): Option<Handler> {
    if |candidates| == 0 then None
    else if candidates[0].Some? then candidates[0]
    else FirstPresent(candidates[1..])
  }

  /** The selection rule is "first present of [call-level, instance-level]". */
  lemma SelectIsFirstPresent(k: Hook, call: Option<RequestConfig>, inst: Option<RequestConfig>)
    ensures Select(k, call, inst) == FirstPresent([Offered(call, k), Offered(inst, k)])
  {
    var candidates := [Offered(call, k), Offered(inst, k)];
    assert candidates[1..] == [Offered(inst, k)];
    assert FirstPresent([Offered(inst, k)]) == Offered(inst, k) by {
      assert [Offered(inst, k)][1..] == [];
    }
  }

  /** A call-level handler makes the instance config irrelevant, whatever it holds. */
  lemma CallLevelOverrides(k: Hook, c: RequestConfig, inst1: Option<RequestConfig>, inst2: Option<RequestConfig>)
    requires HookOf(c, k).Some?
    ensures Select(k, Some(c), inst1) == Select(k, Some(c), inst2) == HookOf(c, k)
  {
  }

  /** With the empty instance config the constructor installs and no call-level handler,
      neither hook selects anything. */
  lemma DefaultConfigSelectsNothing(k: Hook, call: Option<RequestConfig>)
    requires Offered(call, k).None?
    ensures Select(k, call, Some(DefaultConfig())).None?
  {
  }
}
