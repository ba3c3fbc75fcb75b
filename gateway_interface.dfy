/**
 * The external interface of an opened gateway, `src/network/gateway_interface.ts`:
 * a broadcaster whose four commands are emissions of internal signals, which
 * the running gateway generation listens to.
 */
module GatewayInterface {
  import opened Values
  import opened Signals

  /** The control signals, one per command. */
  const UpdateStatusSignal: string := "__gateway_updateStatus"
  const UpdateVoiceStateSignal: string := "__gateway_updateVoiceState"
  const RequestGuildMembersSignal: string := "__gateway_requestGuildMembers"
  const CloseSignal: string := "__gateway_close"

  /** The control signals are internal, so they never reach `any` handlers. */
  lemma ControlSignalsInternal()
    ensures Internal(UpdateStatusSignal) && Internal(UpdateVoiceStateSignal)
    ensures Internal(RequestGuildMembersSignal) && Internal(CloseSignal)
  {
  }

  /** `updateStatus(status)`: the handlers of the status signal, each called with `status`, all awaited. */
  function UpdateStatus<H>(d: Signaler<H>, status: Json): (r: Emission<H>)
    reads d
    ensures r.invoked == CallAll(d.Handlers(UpdateStatusSignal), [status])
    ensures r.awaited == r.invoked
  {
    ControlSignalsInternal();
    InternalSkipsAny(d, UpdateStatusSignal, [status]);
    d.Emit(UpdateStatusSignal, [status])
  }

  /** `updateVoiceState(state)`: the handlers of the voice-state signal, each called with `state`. */
  function UpdateVoiceState<H>(d: Signaler<H>, state: Json): (r: Emission<H>)
    reads d
    ensures r.invoked == CallAll(d.Handlers(UpdateVoiceStateSignal), [state])
    ensures r.awaited == r.invoked
  {
    ControlSignalsInternal();
    InternalSkipsAny(d, UpdateVoiceStateSignal, [state]);
    d.Emit(UpdateVoiceStateSignal, [state])
  }

  /** `requestGuildMembers(request)`: the handlers of the member-request signal, each called with `request`. */
  function RequestGuildMembers<H>(d: Signaler<H>, request: Json): (r: Emission<H>)
    reads d
    ensures r.invoked == CallAll(d.Handlers(RequestGuildMembersSignal), [request])
    ensures r.awaited == r.invoked
  {
    ControlSignalsInternal();
    InternalSkipsAny(d, RequestGuildMembersSignal, [request]);
    d.Emit(RequestGuildMembersSignal, [request])
  }

  /** `close()`: the handlers of the close signal, called with no arguments. */
  function Close<H>(d: Signaler<H>): (r: Emission<H>)
    reads d
    ensures r.invoked == CallAll(d.Handlers(CloseSignal), [])
    ensures r.awaited == r.invoked
  {
    ControlSignalsInternal();
    InternalSkipsAny(d, CloseSignal, []);
    d.Emit(CloseSignal, [])
  }

  /** `connect(name, handler)`: the inherited `connect`, for every name including the control signals. */
  method Connect<H>(d: Signaler<H>, name: string, handler: H)
    modifies d
    ensures d.listeners == old(d.listeners)[name := old(d.Handlers(name)) + [handler]]
  {
    d.Connect(name, handler);
  }
}
