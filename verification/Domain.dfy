// Values shared by every component of the tuner reservation manager.
module Domain {

  type Token = string
  type TunerId = string
  type Locator = string
  type Device = string
  type Uuid = string
  type ClientId = nat

  datatype Option<+T> = None | Some(value: T)

  datatype Activity = NoActivity | Live | Record | EAS

  // The runtime life cycle of a granted reservation.
  datatype Phase = IDLE | ACTIVE | EXPIRED

  datatype TunerState = FreeState | LiveState | RecordState | HybridState | EASState

  // Times are milliseconds since the epoch. Every sum the source forms is exact as long as
  // the end of a window fits a signed 64-bit integer; module Times treats the bounded case.
  datatype Reservation = Reservation(
    token: Token,
    device: Device,
    locator: Locator,
    start: nat,
    duration: nat,
    activity: Activity,
    details: map<string, string>,
    phase: Phase)
  {
    function End(): nat { start + duration }

    function Detail(key: string): string {
      if key in details then details[key] else ""
    }
  }

  // The reservation map of one tuner.
  type Holdings = map<Token, Reservation>

  // A reserveTuner message; an empty token in the reservation means "none asked for".
  datatype ReserveTuner = ReserveTuner(
    uuid: Uuid,
    device: Device,
    reservation: Reservation,
    resurrect: bool)

  const RECORDER_CLIENT: ClientId := 0xFFFF_FF00
  const TUNER_AGENT: ClientId := 0xFFFF_FF02
  const TRM_CLIENT: ClientId := 0
}
