/** The Modbus/TCP exchange as the hubs see it: the request they issue and
    the response they get back. The socket itself is not modelled. */
module Modbus {
  import opened Registers

  datatype Option<T> = None | Some(value: T)

  /** A read-holding-registers request. `unit` is None when the request goes
      out without a unit keyword, so that the client's default applies. */
  datatype ReadRequest = ReadRequest(unit: Option<int>, address: int, count: int)

  /** The client's answer: an error response, or the registers read. */
  datatype ReadResponse = ErrorResponse | RegisterBlock(registers: seq<Word>)

  /** The request the hubs' read_holding_registers helper sends: a unit id of
      0 is falsy in the source, so it sends no unit keyword at all. */
  function ReadHoldingRegisters(unit: int, address: int, count: int): (r: ReadRequest)
    ensures r.unit.Some? <==> unit != 0
    ensures r.unit.Some? ==> r.unit.value == unit
    ensures r.address == address && r.count == count
  {
    ReadRequest(if unit != 0 then Some(unit) else None, address, count)
  }

  /** A call of that helper. Its parameters unit, address and count have no
      defaults, so a call that leaves out `unit` raises TypeError before the
      helper's body runs: no request is sent (None). */
  function CallReadHoldingRegisters(unit: Option<int>, address: int, count: int): (r: Option<ReadRequest>)
    ensures r.None? <==> unit.None?
    ensures r.Some? ==> r.value == ReadHoldingRegisters(unit.value, address, count)
  {
    match unit
    case None => None
    case Some(u) => Some(ReadHoldingRegisters(u, address, count))
  }
}
