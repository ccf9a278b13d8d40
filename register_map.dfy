/** The XY-MD01 register map, its baud-rate table and the argument ranges the
    sensor's commands accept before anything is sent. */
module RegisterMap {

  /** The named fields of the sensor's register map. Temperature and Humidity
      are input registers (read-only); the others are holding registers. */
  datatype Field = Temperature | Humidity | DeviceAddress | BaudRate | TempCorrection | HumCorrection

  /** The register address of each field. */
  function Address(f: Field): int
  {
    match f
    case Temperature => 0x0001
    case Humidity => 0x0002
    case DeviceAddress => 0x0101
    case BaudRate => 0x0102
    case TempCorrection => 0x0103
    case HumCorrection => 0x0104
  }

  /** No two fields share a register. */
  lemma AddressInjective(f: Field, g: Field)
    ensures Address(f) == Address(g) ==> f == g
  {
  }

  /** Humidity directly follows temperature, so one read of two registers
      starting at the temperature register yields both readings. */
  lemma MeasurementsAdjacent()
    ensures Address(Humidity) == Address(Temperature) + 1
  {
  }

  /** The baud rates the sensor can be switched to, keyed by the index that is
      written to the baud-rate register. */
  const BaudRates: map<int, nat> := map[0 := 9600, 1 := 14400, 2 := 19200]

  predicate IsBaudIndex(b: int)
  {
    b in BaudRates
  }

  /** The accepted baud indices are exactly 0, 1 and 2. */
  lemma BaudIndices(b: int)
    ensures IsBaudIndex(b) <==> 0 <= b <= 2
    ensures IsBaudIndex(b) ==> BaudRates[b] == [9600, 14400, 19200][b]
  {
  }

  /** Slave addresses a Modbus serial-line device may take (section 2.2 of the
      Modbus over Serial Line Specification V1.02): 0 is broadcast and
      248..255 are reserved. */
  const MinSlaveAddress: int := 1
  const MaxSlaveAddress: int := 247

  predicate IsSlaveAddress(a: int)
  {
    MinSlaveAddress <= a <= MaxSlaveAddress
  }

  /** Both correction setters accept a correction between -100 and 100
      inclusive, although the operator is told -10.0..10.0. */
  const MaxCorrection: real := 100.0

  predicate InCorrectionRange(c: real)
  {
    -MaxCorrection <= c <= MaxCorrection
  }
}
