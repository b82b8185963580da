/** The typed vocabulary of the bridge's public C interface: machine models,
    the active-low joystick direction encoding, the disk-drive slot range and
    the disk-activity LED status ranges. */
module CoreApi {
  import opened Common

  // ---------------------------------------------------------------------
  // Machine models
  // ---------------------------------------------------------------------

  /** `Atari800Core_MachineModel`. */
  datatype MachineModel = Model800 | ModelXLXE | Model5200 {

    /** The enumerator's integer value. */
    function Value(): (v: int)
      ensures 0 <= v <= 2
      ensures v == 0 <==> this == Model800
      ensures v == 1 <==> this == ModelXLXE
    {
      match this
      case Model800 => 0
      case ModelXLXE => 1
      case Model5200 => 2
    }
  }

  /** The model an integer names, if any: exactly 0, 1 and 2 name a model. */
  function MachineModelOf(v: int): (m: Option<MachineModel>)
    ensures m.Some? <==> 0 <= v <= 2
    ensures m.Some? ==> m.value.Value() == v
  {
    if v == 0 then Some(Model800)
    else if v == 1 then Some(ModelXLXE)
    else if v == 2 then Some(Model5200)
    else None
  }

  /** Every model survives the trip through its integer value, so the three
      enumerators are pairwise distinct. */
  lemma MachineModelRoundTrip(m: MachineModel)
    ensures MachineModelOf(m.Value()) == Some(m)
  {
  }

  // ---------------------------------------------------------------------
  // Joystick directions (active low: a closed switch clears its bit)
  // ---------------------------------------------------------------------

  /** The four direction switches of a joystick. */
  datatype Switch = SwitchUp | SwitchDown | SwitchLeft | SwitchRight {

    /** The single bit of the direction nibble this switch pulls low. */
    function Mask(): (b: bv8)
      ensures b != 0 && b <= 0x0F
      ensures b & (b - 1) == 0
    {
      match this
      case SwitchUp => 0x01
      case SwitchDown => 0x02
      case SwitchLeft => 0x04
      case SwitchRight => 0x08
    }
  }

  /** `Atari800Core_JoyDirection`: centre, four cardinals, four diagonals. */
  datatype JoyDirection =
    | JoyCenter | JoyUp | JoyDown | JoyLeft | JoyRight
    | JoyUpLeft | JoyUpRight | JoyDownLeft | JoyDownRight
  {
    /** The switches this position closes. */
    function Switches(): set<Switch> {
      match this
      case JoyCenter => {}
      case JoyUp => {SwitchUp}
      case JoyDown => {SwitchDown}
      case JoyLeft => {SwitchLeft}
      case JoyRight => {SwitchRight}
      case JoyUpLeft => {SwitchUp, SwitchLeft}
      case JoyUpRight => {SwitchUp, SwitchRight}
      case JoyDownLeft => {SwitchDown, SwitchLeft}
      case JoyDownRight => {SwitchDown, SwitchRight}
    }

    /** The enumerator's value: a nibble whose bit for a switch is clear
        exactly when that switch is closed. */
    function Code(): (c: bv8)
      ensures c <= 0x0F
      ensures forall s: Switch :: (c & s.Mask() == 0) <==> s in Switches()
    {
      match this
      case JoyCenter => 0x0F
      case JoyUp => 0x0E
      case JoyDown => 0x0D
      case JoyLeft => 0x0B
      case JoyRight => 0x07
      case JoyUpLeft => 0x0A
      case JoyUpRight => 0x06
      case JoyDownLeft => 0x09
      case JoyDownRight => 0x05
    }
  }

  /** The direction a nibble encodes, if it is one of the nine enumerators. */
  function JoyDirectionOf(c: bv8): (d: Option<JoyDirection>)
    ensures d.Some? ==> d.value.Code() == c
  {
    match c
    case 0x0F => Some(JoyCenter)
    case 0x0E => Some(JoyUp)
    case 0x0D => Some(JoyDown)
    case 0x0B => Some(JoyLeft)
    case 0x07 => Some(JoyRight)
    case 0x0A => Some(JoyUpLeft)
    case 0x06 => Some(JoyUpRight)
    case 0x09 => Some(JoyDownLeft)
    case 0x05 => Some(JoyDownRight)
    case _ => None
  }

  /** Decoding inverts encoding, so the nine codes are pairwise distinct. */
  lemma JoyDirectionRoundTrip(d: JoyDirection)
    ensures JoyDirectionOf(d.Code()) == Some(d)
  {
  }

  /** Distinct directions have distinct codes. */
  lemma JoyCodesDistinct(d: JoyDirection, e: JoyDirection)
    ensures d.Code() == e.Code() ==> d == e
  {
    JoyDirectionRoundTrip(d);
    JoyDirectionRoundTrip(e);
  }

  /** Centre is the all-released nibble, and each cardinal clears exactly the
      one bit of its own switch. */
  lemma CardinalsClearOneBit()
    ensures JoyCenter.Code() == 0x0F
    ensures JoyUp.Code() == 0x0F & !SwitchUp.Mask()
    ensures JoyDown.Code() == 0x0F & !SwitchDown.Mask()
    ensures JoyLeft.Code() == 0x0F & !SwitchLeft.Mask()
    ensures JoyRight.Code() == 0x0F & !SwitchRight.Mask()
  {
  }

  /** Each diagonal is the bitwise AND of its two cardinals. */
  lemma DiagonalsAreAndOfCardinals()
    ensures JoyUpLeft.Code() == JoyUp.Code() & JoyLeft.Code()
    ensures JoyUpRight.Code() == JoyUp.Code() & JoyRight.Code()
    ensures JoyDownLeft.Code() == JoyDown.Code() & JoyLeft.Code()
    ensures JoyDownRight.Code() == JoyDown.Code() & JoyRight.Code()
  {
  }

  /** The bridge's `& 0x0F` mask leaves every direction code as it is. */
  lemma NibbleMaskKeepsCodes(d: JoyDirection)
    ensures d.Code() & 0x0F == d.Code()
  {
  }

  // ---------------------------------------------------------------------
  // Joystick ports and fire
  // ---------------------------------------------------------------------

  /** Number of joystick ports: valid port numbers are 0..3. */
  const JoyPorts: int := 4

  predicate IsJoyPort(port: int) {
    0 <= port < JoyPorts
  }

  /** The interface's `fire` argument: 1 means pressed, 0 means released. */
  predicate FirePressed(fire: int) {
    fire != 0
  }

  // ---------------------------------------------------------------------
  // Disk drives
  // ---------------------------------------------------------------------

  /** `SIO_MAX_DRIVES`: drive slots are numbered 1..8. */
  const MaxDrives: int := 8

  predicate IsDriveSlot(drive: int) {
    1 <= drive <= MaxDrives
  }

  // ---------------------------------------------------------------------
  // Disk-activity LED
  // ---------------------------------------------------------------------

  /** What an LED status value reports. `unit` is 1..9 for reads and writes. */
  datatype LedActivity = LedOff | LedRead(unit: int) | LedWrite(unit: int)

  /** The reading of an LED status value: 0 is off, 1..9 a read, 10..18 a
      write; any other value reports nothing. */
  function LedActivityOf(status: int): (a: Option<LedActivity>)
    ensures a == Some(LedOff) <==> status == 0
    ensures (a.Some? && a.value.LedRead?) <==> 1 <= status <= 9
    ensures (a.Some? && a.value.LedWrite?) <==> 10 <= status <= 18
    ensures a.Some? && !a.value.LedOff? ==> 1 <= a.value.unit <= 9
  {
    if status == 0 then Some(LedOff)
    else if 1 <= status <= 9 then Some(LedRead(status))
    else if 10 <= status <= 18 then Some(LedWrite(status - 9))
    else None
  }

  /** The status value that reports an activity. */
  function LedStatusOf(a: LedActivity): int
    requires !a.LedOff? ==> 1 <= a.unit <= 9
  {
    match a
    case LedOff => 0
    case LedRead(u) => u
    case LedWrite(u) => u + 9
  }

  /** Status values and activities are in one-to-one correspondence. */
  lemma LedRoundTrip(a: LedActivity, status: int)
    requires !a.LedOff? ==> 1 <= a.unit <= 9
    ensures LedActivityOf(LedStatusOf(a)) == Some(a)
    ensures LedActivityOf(status).Some? ==> LedStatusOf(LedActivityOf(status).value) == status
  {
  }
}
