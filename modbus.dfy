/** The requests the sensor sends and what can come back, seen from above the
    Modbus client library: framing, CRC and the serial line are not modelled. */
module Modbus {

  /** A register value as a response carries it: 16 bits, no sign. */
  type Register = x: int | 0 <= x < 0x1_0000

  /** Function codes, section 6.4 and 6.6 of the Modbus Application Protocol
      Specification V1.1b3. */
  const ReadInputRegistersCode: int := 0x04
  const WriteSingleRegisterCode: int := 0x06

  /** One request issued to the bus, addressed to a unit (slave) id. */
  datatype Request =
    | ReadInputRegisters(unit: int, address: int, count: nat)
    | WriteSingleRegister(unit: int, address: int, value: int)

  function FunctionCode(r: Request): int
  {
    match r
    case ReadInputRegisters(_, _, _) => ReadInputRegistersCode
    case WriteSingleRegister(_, _, _) => WriteSingleRegisterCode
  }

  /** What one request came to: a normal response with its payload, a Modbus
      exception response (the library's `isError()`), or an exception raised
      by the library (timeout, no port, malformed frame). */
  datatype Outcome<+T> = Ok(payload: T) | ErrorResponse | Raised

  /** A write's normal response carries nothing the sensor looks at. */
  type WriteOutcome = Outcome<()>

  /** A read's normal response carries the registers read. */
  type ReadOutcome = Outcome<seq<Register>>
}
