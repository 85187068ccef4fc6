/** The SolarEdge copy of the hub: the same subscription lifecycle, and a
    decoder for a 38-register block starting at holding register 72 that
    decodes many fields but stores only three. */
module SolarEdgeModbus {
  import opened Registers
  import opened Scaling
  import opened Modbus
  import opened Subscriptions

  /** The keys the decoder writes, each standing for the string key Name()
      gives. */
  datatype Key = AcEnergy | Status | StatusVendor
  {
    function Name(): string
    {
      match this
      case AcEnergy => "acenergy"
      case Status => "status"
      case StatusVendor => "statusvendor"
    }
  }

  /** The block is read 38 registers at a time, and the layout consumes all of
      them: registers 72 up to and including 109. */
  const InverterCount := 38
  const InverterSpan := 38

  /** The read request as intended, addressed to the hub's configured unit:
      from register 72, exactly the registers the layout consumes. */
  function InverterRequest(unitId: int): (r: ReadRequest)
    ensures r.address == InverterBase == 72 && r.count == InverterSpan == 38
    ensures r.unit == if unitId != 0 then Some(unitId) else None
  {
    ReadHoldingRegisters(unitId, InverterBase, InverterCount)
  }

  /** The call at line 207 as written: address and count, but no `unit`. */
  function InverterRequestAsWritten(): Option<ReadRequest>
  {
    CallReadHoldingRegisters(None, InverterBase, InverterCount)
  }

  /** As written, the call raises TypeError and no request is ever sent. */
  lemma AsWrittenCallRaises()
    ensures InverterRequestAsWritten() == None
  {
  }

  /** What a successful decode stores, by register address: the 32-bit energy
      counter at 94 and 95 in kilowatt-hours (no scale-factor register is
      applied), and the raw signed status pair at 108 and 109. */
  function InverterSnapshot(regs: seq<Word>): (r: map<Key, Value>)
    requires |regs| >= InverterSpan
    ensures r.Keys == {AcEnergy, Status, StatusVendor}
  {
    map[
      AcEnergy := Scaled(U32(At(regs, 94), At(regs, 95)), -3),
      Status := Code(S16(At(regs, 108))),
      StatusVendor := Code(S16(At(regs, 109)))
    ]
  }

  /** The energy counter is stored as the source computes it,
      round(e * 0.001, 3) for the counter e. */
  lemma {:induction false} EnergyValue(regs: seq<Word>)
    requires |regs| >= InverterSpan
    ensures InverterSnapshot(regs)[AcEnergy].Real() == RoundedKilo(U32(At(regs, 94), At(regs, 95)) as real)
  {
    var e := U32(At(regs, 94), At(regs, 95));
    StoredKilo(e, 0);
    assert CalculateValue(e, 0) == e as real by {
      assert IntPow10(0) == 1;
    }
  }

  /** A counter of 123456 Wh is stored as 123.456 kWh. */
  lemma EnergyExample()
    ensures var regs := seq(InverterSpan, i => if i == 22 then 1 else if i == 23 then 57920 else 0);
      InverterSnapshot(regs)[AcEnergy].Real() == 123.456
  {
    var regs: seq<Word> := seq(InverterSpan, i => if i == 22 then 1 else if i == 23 then 57920 else 0);
    assert U32(At(regs, 94), At(regs, 95)) == 123456;
    assert Pow10(-3) == 1.0 / 1000.0 by {
      assert IntPow10(3) == 1000;
    }
  }

  /** Decoding the same block twice leaves `data` as decoding it once. This
      holds whatever `data` held before, because a successful decode only
      overwrites its own keys with values that depend on the block alone. */
  lemma DecodeIdempotent(m: map<Key, Value>, regs: seq<Word>)
    requires |regs| >= InverterSpan
    ensures m + InverterSnapshot(regs) + InverterSnapshot(regs) == m + InverterSnapshot(regs)
  {
  }

  /** A successful decode writes exactly the three keys. */
  lemma SnapshotKeySet(regs: seq<Word>)
    requires |regs| >= InverterSpan
    ensures InverterSnapshot(regs).Keys == {AcEnergy, Status, StatusVendor}
    ensures forall k: Key :: k in InverterSnapshot(regs)
  {
    forall k: Key
      ensures k in InverterSnapshot(regs)
    {
      assert k.AcEnergy? || k.Status? || k.StatusVendor?;
    }
  }

  /** The decoder's three writes, in its order, merge the snapshot into the
      old map. */
  lemma WritesMakeSnapshot(m: map<Key, Value>, regs: seq<Word>)
    requires |regs| >= InverterSpan
    ensures m[AcEnergy := Scaled(U32(regs[22], regs[23]), -3)]
             [Status := Code(S16(regs[36]))][StatusVendor := Code(S16(regs[37]))]
         == m + InverterSnapshot(regs)
  {
  }

  /** Registers 72 to 93: the AC currents, voltages, power, frequency,
      apparent and reactive power and power factor. The source decodes them
      and then drops them; only the cursor moves on. */
  method DecodeAcMeasurements(regs: seq<Word>) returns (next: nat)
    requires |regs| >= InverterSpan
    ensures next == 22
  {
    next := 0;
    // registers 72 to 75, then the current scale factor at 76 is skipped
    var accurrent, accurrenta, accurrentb, accurrentc;
    accurrent, next := DecodeU16(regs, next);
    accurrenta, next := DecodeU16(regs, next);
    accurrentb, next := DecodeU16(regs, next);
    accurrentc, next := DecodeU16(regs, next);
    next := SkipBytes(next, 2);

    // registers 77 to 82, then 83 is skipped
    var acvoltageab, acvoltagebc, acvoltageca, acvoltagean, acvoltagebn, acvoltagecn;
    acvoltageab, next := DecodeU16(regs, next);
    acvoltagebc, next := DecodeU16(regs, next);
    acvoltageca, next := DecodeU16(regs, next);
    acvoltagean, next := DecodeU16(regs, next);
    acvoltagebn, next := DecodeU16(regs, next);
    acvoltagecn, next := DecodeU16(regs, next);
    next := SkipBytes(next, 2);

    // registers 84, 86, 88, 90 and 92, each followed by a skipped register
    var acpower, acfreq, acva, acvar, acpf;
    acpower, next := DecodeS16(regs, next);
    next := SkipBytes(next, 2);
    acfreq, next := DecodeU16(regs, next);
    next := SkipBytes(next, 2);
    acva, next := DecodeS16(regs, next);
    next := SkipBytes(next, 2);
    acvar, next := DecodeS16(regs, next);
    next := SkipBytes(next, 2);
    acpf, next := DecodeS16(regs, next);
    next := SkipBytes(next, 2);
  }

  /** Registers 97 to 107: DC current, voltage and power and the heat-sink
      temperature, decoded and dropped like the AC measurements. */
  method DecodeDcMeasurements(regs: seq<Word>, pos: nat) returns (next: nat)
    requires pos + 11 <= |regs|
    ensures next == pos + 11
  {
    next := pos;
    // registers 97, 99 and 101, with 98, 100, 102 and 103 skipped
    var dccurrent, dcvoltage, dcpower;
    dccurrent, next := DecodeU16(regs, next);
    next := SkipBytes(next, 2);
    dcvoltage, next := DecodeU16(regs, next);
    next := SkipBytes(next, 2);
    dcpower, next := DecodeS16(regs, next);
    next := SkipBytes(next, 4);

    // register 104, then 105 to 107 are skipped
    var tempsink;
    tempsink, next := DecodeS16(regs, next);
    next := SkipBytes(next, 6);
  }

  class ABBSunSpecModbusHub {
    const name: string
    const host: string
    const port: int
    /** The Modbus unit the client is created for. */
    const unitId: int
    const scanInterval: nat

    /** The registered update callbacks, in the order they were added. */
    var sensors: seq<CallbackId>
    /** Whether the poll timer is running (the unsubscribe handle is set). */
    var timerActive: bool
    var connectCalls: nat
    var closeCalls: nat
    /** Every read request sent to the client, oldest first. */
    var requests: seq<ReadRequest>
    /** The latest decoded values, by key. */
    var data: map<Key, Value>

    /** The timer runs exactly while someone is subscribed, and the client
        has been connected once more than it has been closed exactly then. */
    ghost predicate Valid()
      reads this
    {
      && (timerActive <==> sensors != [])
      && connectCalls == closeCalls + (if timerActive then 1 else 0)
    }

    constructor (name: string, host: string, port: int, unitId: int, scanInterval: nat)
      ensures Valid()
      ensures this.name == name && this.host == host && this.port == port
      ensures this.unitId == unitId && this.scanInterval == scanInterval
      ensures sensors == [] && !timerActive && connectCalls == 0 && closeCalls == 0
      ensures requests == [] && data == map[]
    {
      this.name, this.host, this.port, this.unitId, this.scanInterval := name, host, port, unitId, scanInterval;
      sensors, timerActive := [], false;
      connectCalls, closeCalls := 0, 0;
      requests, data := [], map[];
    }

    method Connect()
      modifies this`connectCalls
      ensures connectCalls == old(connectCalls) + 1
    {
      connectCalls := connectCalls + 1;
    }

    method Close()
      modifies this`closeCalls
      ensures closeCalls == old(closeCalls) + 1
    {
      closeCalls := closeCalls + 1;
    }

    /** Subscribes a callback: the first one connects and starts the timer. */
    method AsyncAddAbbSunspecSensor(updateCallback: CallbackId)
      requires Valid()
      modifies this`sensors, this`timerActive, this`connectCalls
      ensures Valid()
      ensures sensors == old(sensors) + [updateCallback]
      ensures timerActive
      ensures connectCalls == old(connectCalls) + (if old(sensors) == [] then 1 else 0)
    {
      if sensors == [] {
        Connect();
        timerActive := true;
      }
      sensors := sensors + [updateCallback];
    }

    /** Unsubscribes one occurrence of a callback; removing the last one stops
        the timer and closes the client. An absent callback makes list.remove
        raise, and then `ok` is false and nothing changes. */
    method AsyncRemoveAbbSunspecSensor(updateCallback: CallbackId) returns (ok: bool)
      requires Valid()
      modifies this`sensors, this`timerActive, this`closeCalls
      ensures Valid()
      ensures ok == (updateCallback in old(sensors))
      ensures ok ==> sensors == RemoveFirst(old(sensors), updateCallback)
      ensures !ok ==> sensors == old(sensors) && timerActive == old(timerActive)
      ensures closeCalls == old(closeCalls) + (if ok && sensors == [] then 1 else 0)
    {
      if updateCallback !in sensors {
        return false;
      }
      sensors := RemoveFirst(sensors, updateCallback);
      if sensors == [] {
        timerActive := false;
        Close();
      }
      ok := true;
    }

    /** One poll: with nobody subscribed nothing is read; otherwise the block
        is read and decoded, and only when that succeeded is every callback
        invoked once, in subscription order. */
    method AsyncRefreshModbusData(response: ReadResponse) returns (notified: seq<CallbackId>)
      requires Valid()
      requires response.RegisterBlock? ==> |response.registers| >= InverterSpan
      modifies this`data, this`requests
      ensures Valid()
      ensures sensors == [] ==> requests == old(requests) && data == old(data)
      ensures sensors != [] ==> requests == old(requests) + [InverterRequest(unitId)]
      ensures data == if sensors != [] && response.RegisterBlock?
                      then old(data) + InverterSnapshot(response.registers)
                      else old(data)
      ensures notified == if sensors != [] && response.RegisterBlock? then sensors else []
    {
      notified := [];
      if sensors == [] {
        return;
      }
      var updateResult := ReadModbusData(response);
      if updateResult {
        for i := 0 to |sensors|
          invariant notified == sensors[..i]
        {
          notified := notified + [sensors[i]];
        }
      }
    }

    /** The read step of a poll: only the inverter block is read. */
    method ReadModbusData(response: ReadResponse) returns (ok: bool)
      requires response.RegisterBlock? ==> |response.registers| >= InverterSpan
      modifies this`data, this`requests
      ensures requests == old(requests) + [InverterRequest(unitId)]
      ensures ok == response.RegisterBlock?
      ensures data == if ok then old(data) + InverterSnapshot(response.registers) else old(data)
    {
      ghost var cursor;
      ok, cursor := ReadModbusDataInverter(response);
    }

    /** Sends the read request for the block and, unless the response is an
        error, decodes it into `data`; an error leaves `data` as it was. The
        walk ends exactly at the end of the requested block. */
    method ReadModbusDataInverter(response: ReadResponse) returns (ok: bool, ghost cursor: nat)
      requires response.RegisterBlock? ==> |response.registers| >= InverterSpan
      modifies this`data, this`requests
      ensures requests == old(requests) + [InverterRequest(unitId)]
      ensures ok == response.RegisterBlock?
      ensures ok ==> cursor == InverterCount
      ensures data == if ok then old(data) + InverterSnapshot(response.registers) else old(data)
    {
      requests := requests + [InverterRequest(unitId)];
      if response.ErrorResponse? {
        return false, 0;
      }
      cursor := DecodeInverterRegisters(response.registers);
      ok := true;
    }

    /** One poll as written: with nobody subscribed nothing happens; otherwise
        the read raises TypeError (`raised`) before any request goes out, so
        `data` and `requests` never change (the method modifies nothing) and
        no callback is ever invoked. */
    method AsyncRefreshModbusDataAsWritten(response: ReadResponse) returns (notified: seq<CallbackId>, raised: bool)
      requires Valid()
      ensures raised <==> sensors != []
      ensures notified == []
    {
      notified, raised := [], false;
      if sensors == [] {
        return;
      }
      raised := ReadModbusDataAsWritten(response);
      if !raised {
        notified := sensors;
      }
    }

    /** The read step as written: it raises, whatever the client would have
        answered. */
    method ReadModbusDataAsWritten(response: ReadResponse) returns (raised: bool)
      ensures raised
    {
      raised := ReadModbusDataInverterAsWritten(response);
    }

    /** read_modbus_data_inverter as written: the helper call without `unit`
        raises before the request is sent and before the response could be
        decoded. */
    method ReadModbusDataInverterAsWritten(response: ReadResponse) returns (raised: bool)
      ensures raised
    {
      var request := InverterRequestAsWritten();
      raised := request.None?;
    }

    /** Walks a register block with a cursor from register 72. Every field is
        decoded, but only the energy counter and the status pair are written
        into `data`; other keys keep their old values. */
    method DecodeInverterRegisters(regs: seq<Word>) returns (ghost cursor: nat)
      requires |regs| >= InverterSpan
      modifies this`data
      ensures cursor == InverterSpan
      ensures data == old(data) + InverterSnapshot(regs)
    {
      var pos := DecodeAcMeasurements(regs);  // registers 72 to 93

      // registers 94 and 95: the energy counter, stored in kilowatt-hours
      var acenergy;
      acenergy, pos := DecodeU32(regs, pos);
      data := data[AcEnergy := Scaled(acenergy, -3)];
      pos := SkipBytes(pos, 2);

      pos := DecodeDcMeasurements(regs, pos);  // registers 97 to 107

      // registers 108 and 109, stored raw
      var status, statusvendor;
      status, pos := DecodeS16(regs, pos);
      data := data[Status := Code(status)];
      statusvendor, pos := DecodeS16(regs, pos);
      data := data[StatusVendor := Code(statusvendor)];

      WritesMakeSnapshot(old(data), regs);
      cursor := pos;
    }
  }
}
