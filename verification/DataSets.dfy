/** The data sets of a PTP instance and the fields of its messages. */
module DataSets {
  import opened Prelude

  /** Eight bytes, read as a big-endian number: byte order and numeric order agree. */
  type ClockIdentity = u64

  datatype PortIdentity = PortIdentity(clock: ClockIdentity, port: u16)

  /** `accuracy` is the number the accuracy enumeration stands for, the only thing ever compared. */
  datatype ClockQuality = ClockQuality(clockClass: u8, accuracy: u8, variance: u16)

  datatype WireTimestamp = WireTimestamp(seconds: u48, nanos: u32)

  datatype Header = Header(
    sdoId: u12, major: u4, minor: u4, domain: u8,
    alternateMaster: bool, twoStep: bool, unicast: bool, profile1: bool, profile2: bool,
    leap61: bool, leap59: bool, utcOffsetValid: bool, ptpTimescale: bool,
    timeTraceable: bool, frequencyTraceable: bool, synchronizationUncertain: bool,
    correction: i64, source: PortIdentity, sequenceId: u16, logInterval: i8)

  datatype TimeSource =
    | AtomicClock | Gnss | TerrestrialRadio | SerialTimeCode | Ptp | Ntp | HandSet | Other
    | InternalOscillator | ProfileSpecific(profile: u8) | ReservedSource | UnknownSource(code: u8)

  datatype Announce = Announce(
    header: Header, origin: WireTimestamp, utcOffset: i16,
    gmPriority1: u8, gmQuality: ClockQuality, gmPriority2: u8, gmIdentity: ClockIdentity,
    stepsRemoved: u16, timeSource: TimeSource)

  datatype LeapIndicator = NoLeap | Leap59 | Leap61

  datatype TimeProperties = TimeProperties(
    utcOffset: Option<i16>, leap: LeapIndicator, timeTraceable: bool, frequencyTraceable: bool,
    ptpTimescale: bool, timeSource: TimeSource)

  datatype DefaultDS = DefaultDS(
    clockIdentity: ClockIdentity, numberPorts: u16, quality: ClockQuality,
    priority1: u8, priority2: u8, slaveOnly: bool)

  datatype ParentDS = ParentDS(
    parent: PortIdentity, gmIdentity: ClockIdentity, gmQuality: ClockQuality, gmPriority1: u8, gmPriority2: u8)

  /** Everything the ports of an instance share. */
  datatype Shared = Shared(default: DefaultDS, stepsRemoved: u16, parent: ParentDS, time: TimeProperties)

  function AnnouncedTime(a: Announce): TimeProperties {
    TimeProperties(
      if a.header.utcOffsetValid then Some(a.utcOffset) else None,
      if a.header.leap59 then Leap59 else if a.header.leap61 then Leap61 else NoLeap,
      a.header.timeTraceable, a.header.frequencyTraceable, a.header.ptpTimescale, a.timeSource)
  }

  const OWN_TIME := TimeProperties(None, NoLeap, false, false, true, InternalOscillator)

  function OwnParent(d: DefaultDS): ParentDS {
    ParentDS(PortIdentity(d.clockIdentity, 0), d.clockIdentity, d.quality, d.priority1, d.priority2)
  }

  function AnnouncedParent(a: Announce): ParentDS {
    ParentDS(a.header.source, a.gmIdentity, a.gmQuality, a.gmPriority1, a.gmPriority2)
  }
}
