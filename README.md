# XY-MD01 sensor command layer in Dafny

This project models the command layer of the XY-MD01 temperature/humidity
sensor client (`XYMD01Sensor` in `modbus-sensor.py`). The client talks to one
Modbus RTU slave over a serial line. It reads the two measurement input
registers and writes four configuration holding registers: device address,
baud index, temperature correction and humidity correction.

The model has five modules:

- `RegisterMap` (`register_map.dfy`): the register map, the baud table, and
  the argument ranges. The slave address range 1..247 is the one given in
  section 2.2 of the Modbus over Serial Line Specification V1.02.
- `Modbus` (`modbus.dfy`): the requests on the bus and the three outcomes a
  request can have. A request is Read Input Registers (function code 0x04,
  section 6.4 of the Modbus Application Protocol Specification V1.1b3) or
  Write Single Register (0x06, section 6.6). The outcome is a normal
  response, a Modbus exception response, or a raised exception.
- `Scaling` (`scaling.dfy`): the ×10 / ÷10 conversion. Readings are divided
  by ten. Corrections are multiplied by ten and truncated toward zero, as
  Python's `int()` does. Truncation is defined by counting up to the whole
  part, not with `Floor` and not by rounding.
- `Sensor` (`sensor.dfy`): the class `XYMD01Sensor`. Its mutable field is
  `slaveId`. Its ghost field `requests` logs every request handed to the
  client library. That includes a request the library then fails with an
  exception, which may never have reached the wire. Each command takes the
  transport's reply as a parameter and looks at it only when it actually
  sends a request. Two client methods walk through
  scenarios: an address change followed by a read, and the failure paths.
- `Wrappers` (`wrappers.dfy`): `Option`, which stands in for Python's `None`.

Three behaviours of the code are worth stating plainly, because the model keeps them:

- Corrections are converted with `int(correction * 10)`, which truncates toward zero. It does not round.
- Read registers are divided by ten as unsigned values. The code applies no sign conversion.
- Corrections are accepted in -100..100, while the operator prompt (modbus-sensor.py:137, 161, 242, 249) says -10.0..10.0.

## Model

| member | source | states |
|---|---|---|
| RegisterMap.AddressInjective | modbus-sensor.py:20-27 | each field of the register map has its own register address |
| RegisterMap.MeasurementsAdjacent | modbus-sensor.py:21-22 | humidity's register directly follows temperature's, so one read of two registers from 0x0001 covers both |
| RegisterMap.BaudIndices | modbus-sensor.py:30-34 | the keys of the baud table are exactly 0, 1 and 2, mapped to 9600, 14400 and 19200 |
| Scaling.DecodeMeasurement | modbus-sensor.py:55-56 | a reading is the raw unsigned register over ten: ten times it gives back the raw value, and it lies in [0, 6553.6) |
| Scaling.DecodeMeasurementExamples | modbus-sensor.py:55-56 | raw registers 237 and 455 read as 23.7 and 45.5 |
| Scaling.TruncateMagnitude | modbus-sensor.py:124 | the whole part of a non-negative number: the largest natural no greater than it |
| Scaling.TruncateTowardZero | modbus-sensor.py:124 | `int()`: the result has the sign of the input, is no farther from zero, and is within one of it |
| Scaling.TruncateTowardZeroUnique | modbus-sensor.py:124 | exactly one integer satisfies the truncation characterisation |
| Scaling.EncodeCorrection | modbus-sensor.py:124 | `int(c*10)` for c in -100..100 lies in -1000..1000; read back in tenths it is within 0.1 of c and never farther from zero than c |
| Scaling.EncodeDecodeCorrection | modbus-sensor.py:148 | every raw correction in -1000..1000 is a legal correction in tenths, and encoding it again gives the same raw value |
| Scaling.EncodeCorrectionOdd | modbus-sensor.py:148 | negating a correction negates its raw value, which truncation does and flooring does not |
| Scaling.EncodeCorrectionMonotonic | modbus-sensor.py:124 | a larger correction never gets a smaller raw value |
| Scaling.EncodeCorrectionExamples | modbus-sensor.py:148 | 0.19 encodes as 1 (not rounded to 2), -0.19 as -1 (not floored to -2), and -5.0 as -50 |
| Sensor.XYMD01Sensor.constructor | modbus-sensor.py:6-8 | the session keeps the given port and slave id (defaults "COM3" and 1) and starts with no requests; a legal slave id makes the address invariant hold |
| Sensor.XYMD01Sensor.ReadMeasurements | modbus-sensor.py:44-64 | issues exactly one read (function code 0x04) of 2 input registers from 0x0001 at the current slave id, covering the temperature register and the humidity register that follows it; returns a reading iff the reply is normal and holds at least two registers, each value being its register over ten; changes no slave id and issues no write |
| Sensor.XYMD01Sensor.ChangeModbusAddress | modbus-sensor.py:68-94 | an address outside 1..247 sends nothing and returns false; otherwise exactly one write (function code 0x06) of the address to 0x0101 at the old slave id; returns true iff the address is legal and the reply is normal, and only then the slave id becomes the new address |
| Sensor.XYMD01Sensor.ChangeBaudRate | modbus-sensor.py:97-117 | sends nothing unless the index is a key of the baud table; otherwise writes (function code 0x06) the index itself to 0x0102 at the current slave id; returns true iff the index is valid and the reply is normal; the slave id is unchanged |
| Sensor.XYMD01Sensor.SetTemperatureCorrection | modbus-sensor.py:119-141 | sends nothing for a correction outside -100..100; otherwise writes (function code 0x06) `int(c*10)` to 0x0103 at the current slave id; returns true iff the correction is in range and the reply is normal |
| Sensor.XYMD01Sensor.SetHumidityCorrection | modbus-sensor.py:143-165 | sends nothing for a correction outside -100..100; otherwise writes (function code 0x06) `int(c*10)` to 0x0104 at the current slave id; returns true iff the correction is in range and the reply is normal |

## Left out

- The Modbus client library: RTU framing, CRC, the serial transport, timeouts and the line settings given to it at construction (9600 baud, 8-N-1, one second). These are not visible here. A reply is modelled only as one of three abstract outcomes.
- How the library puts a negative or oversized value (a negative correction) into a 16-bit register. The log records the integer handed to the library.
- `connect` and `disconnect`: they only pass through to the library.
- All `print` diagnostics, including the power-cycle warning after an address change.
- `clear_screen`, `get_valid_input`, `main_menu` and the top-level exception handler: console I/O, the `input()` loop and menu dispatch.
- `simple-Read.py`: a straight-line script of library calls and prints.
- IEEE floating point: `/ 10.0` and `correction * 10` are exact `real` arithmetic, and NaN and infinities are not modelled.
- Arguments of the wrong Python type. These are rejected or raise inside `try`. A string address raises on comparison, which is caught and returns False. A string baud index is simply not a key of the baud table, so it returns False without raising. A float equal to a key, such as `1.0`, passes the baud-index test and is handed to the library. The model types addresses and indices as `int` and corrections as `real`.
- Scaling.TruncateTowardZero: defined only on -1000..1000, the range of `correction * 10` that the setters' range check lets through. Python's `int()` is total.
- The register map and baud table are per-instance attributes in the source. They are constant, so the model makes them module constants.
