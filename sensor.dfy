/** The command layer of the XY-MD01 temperature/humidity sensor: one session
    with one slave device, the five register commands, and the requests each
    command puts on the bus. The transport's answer to a request is a
    parameter of the command; it is consulted only when the command issues
    the request. */
module Sensor {
  import opened Wrappers
  import opened RegisterMap
  import opened Modbus
  import opened Scaling

  /** One successful reading, in degrees Celsius and percent. */
  datatype Measurement = Measurement(temperature: real, humidity: real)

  class XYMD01Sensor {
    /** The serial port name, fixed at construction. */
    const port: string
    /** The unit id every request is addressed to. */
    var slaveId: int
    /** Every request issued so far, oldest first. */
    ghost var requests: seq<Request>

    /** The session's slave id and every unit id it has addressed are legal
        slave addresses. */
    ghost predicate Addressable()
      reads this
    {
      && IsSlaveAddress(slaveId)
      && forall i :: 0 <= i < |requests| ==> IsSlaveAddress(requests[i].unit)
    }

    constructor (port: string := "COM3", slaveId: int := 1)
      ensures this.port == port && this.slaveId == slaveId
      ensures requests == []
      ensures IsSlaveAddress(slaveId) ==> Addressable()
    {
      this.port := port;
      this.slaveId := slaveId;
      requests := [];
    }

    /** Reads temperature and humidity with one read of two input registers
        from 0x0001. A reply with fewer than two registers fails on indexing,
        which the command treats like any other failure. */
    method ReadMeasurements(reply: ReadOutcome) returns (m: Option<Measurement>)
      modifies this`requests
      ensures requests == old(requests) + [ReadInputRegisters(slaveId, 0x0001, 2)]
      ensures FunctionCode(requests[|requests| - 1]) == ReadInputRegistersCode
      // the two registers read are the temperature and the humidity registers
      ensures requests[|requests| - 1].address == Address(Temperature)
      ensures requests[|requests| - 1].address + 1 == Address(Humidity)
      ensures m.Some? <==> reply.Ok? && |reply.payload| >= 2
      ensures m.Some? ==> m.value.temperature * 10.0 == reply.payload[0] as real
      ensures m.Some? ==> m.value.humidity * 10.0 == reply.payload[1] as real
      ensures old(Addressable()) ==> Addressable()
    {
      requests := requests + [ReadInputRegisters(slaveId, Address(Temperature), 2)];
      match reply
      case Ok(registers) =>
        if |registers| < 2 {
          m := None;
        } else {
          m := Some(Measurement(DecodeMeasurement(registers[0]), DecodeMeasurement(registers[1])));
        }
      case ErrorResponse =>
        m := None;
      case Raised =>
        m := None;
    }

    /** Writes a new slave address to register 0x0101 of the device at the
        current slave id and, if the device accepts it, adopts it as the
        session's slave id. An address outside 1..247 is refused before
        anything is sent. */
    method ChangeModbusAddress(newAddress: int, reply: WriteOutcome) returns (ok: bool)
      modifies this`slaveId, this`requests
      ensures !IsSlaveAddress(newAddress) ==> requests == old(requests)
      ensures IsSlaveAddress(newAddress) ==>
                requests == old(requests) + [WriteSingleRegister(old(slaveId), 0x0101, newAddress)]
      ensures IsSlaveAddress(newAddress) ==>
                FunctionCode(requests[|requests| - 1]) == WriteSingleRegisterCode
      ensures ok <==> IsSlaveAddress(newAddress) && reply.Ok?
      ensures slaveId == if ok then newAddress else old(slaveId)
      ensures old(Addressable()) ==> Addressable()
    {
      if IsSlaveAddress(newAddress) {
        requests := requests + [WriteSingleRegister(slaveId, 0x0101, newAddress)];
        match reply
        case Ok(_) =>
          slaveId := newAddress;
          ok := true;
        case ErrorResponse =>
          ok := false;
        case Raised =>
          ok := false;
      } else {
        ok := false;
      }
    }

    /** Writes a baud index (not the baud rate itself) to register 0x0102.
        An index that is not a key of the baud table is refused before
        anything is sent. The session's own line settings do not change. */
    method ChangeBaudRate(baudIndex: int, reply: WriteOutcome) returns (ok: bool)
      modifies this`requests
      ensures !IsBaudIndex(baudIndex) ==> requests == old(requests)
      ensures IsBaudIndex(baudIndex) ==>
                requests == old(requests) + [WriteSingleRegister(slaveId, 0x0102, baudIndex)]
      ensures IsBaudIndex(baudIndex) ==>
                FunctionCode(requests[|requests| - 1]) == WriteSingleRegisterCode
      ensures ok <==> IsBaudIndex(baudIndex) && reply.Ok?
      ensures old(Addressable()) ==> Addressable()
    {
      if IsBaudIndex(baudIndex) {
        requests := requests + [WriteSingleRegister(slaveId, Address(BaudRate), baudIndex)];
        ok := reply.Ok?;
      } else {
        ok := false;
      }
    }

    /** Writes `int(correction * 10)` to register 0x0103. A correction
        outside -100..100 is refused before anything is sent. */
    method SetTemperatureCorrection(correction: real, reply: WriteOutcome) returns (ok: bool)
      modifies this`requests
      ensures !InCorrectionRange(correction) ==> requests == old(requests)
      ensures InCorrectionRange(correction) ==>
                requests == old(requests) + [WriteSingleRegister(slaveId, 0x0103, EncodeCorrection(correction))]
      ensures InCorrectionRange(correction) ==>
                FunctionCode(requests[|requests| - 1]) == WriteSingleRegisterCode
      ensures ok <==> InCorrectionRange(correction) && reply.Ok?
      ensures old(Addressable()) ==> Addressable()
    {
      if InCorrectionRange(correction) {
        var raw := EncodeCorrection(correction);
        requests := requests + [WriteSingleRegister(slaveId, Address(TempCorrection), raw)];
        ok := reply.Ok?;
      } else {
        ok := false;
      }
    }

    /** Writes `int(correction * 10)` to register 0x0104. A correction
        outside -100..100 is refused before anything is sent. */
    method SetHumidityCorrection(correction: real, reply: WriteOutcome) returns (ok: bool)
      modifies this`requests
      ensures !InCorrectionRange(correction) ==> requests == old(requests)
      ensures InCorrectionRange(correction) ==>
                requests == old(requests) + [WriteSingleRegister(slaveId, 0x0104, EncodeCorrection(correction))]
      ensures InCorrectionRange(correction) ==>
                FunctionCode(requests[|requests| - 1]) == WriteSingleRegisterCode
      ensures ok <==> InCorrectionRange(correction) && reply.Ok?
      ensures old(Addressable()) ==> Addressable()
    {
      if InCorrectionRange(correction) {
        var raw := EncodeCorrection(correction);
        requests := requests + [WriteSingleRegister(slaveId, Address(HumCorrection), raw)];
        ok := reply.Ok?;
      } else {
        ok := false;
      }
    }
  }

  /** A session on slave 1 moves to address 5; the next read goes to unit 5
      and decodes 237 and 455 as 23.7 and 45.5; an address of 300 is then
      refused without a request. */
  method AddressChangeScenario()
  {
    var s := new XYMD01Sensor();
    assert s.port == "COM3" && s.slaveId == 1;
    var changed := s.ChangeModbusAddress(5, Ok(()));
    assert changed && s.slaveId == 5;
    var m := s.ReadMeasurements(Ok([237, 455]));
    assert s.requests == [WriteSingleRegister(1, 0x0101, 5), ReadInputRegisters(5, 0x0001, 2)];
    assert m == Some(Measurement(23.7, 45.5));
    var refused := s.ChangeModbusAddress(300, Ok(()));
    assert !refused && s.slaveId == 5 && |s.requests| == 2;
  }

  /** A read that times out yields no reading; a humidity correction of -5.0
      is written as -50 to register 0x0104; a rejected address change keeps
      the old slave id. */
  method FailureScenario()
  {
    var s := new XYMD01Sensor("COM3", 7);
    var m := s.ReadMeasurements(Raised);
    assert m == None;
    var ok := s.SetHumidityCorrection(-5.0, Ok(()));
    EncodeCorrectionExamples();
    assert ok && s.requests[1] == WriteSingleRegister(7, 0x0104, -50);
    var changed := s.ChangeModbusAddress(9, ErrorResponse);
    assert !changed && s.slaveId == 7 && |s.requests| == 3;
    var baud := s.ChangeBaudRate(3, Ok(()));
    assert !baud && |s.requests| == 3;
  }
}
