/** The request alphabet of the ring protection state machine, its priorities
    (Table 10-1 of ITU-T G.8032) and the local commands a management caller can post. */
module Requests {

  datatype Option<+T> = None | Some(value: T)

  datatype Request =
    | Clear
    | Fs
    | RapsFs
    | Sf
    | ClearSf
    | RapsSf
    | RapsMs
    | Ms
    | WtrExpires
    | WtrRunning
    | WtbExpires
    | WtbRunning
    | RapsNrRb
    | RapsNr
    | Invalid
  {
    /** The enum value: the lower it is, the higher the priority. */
    function Rank(): nat {
      match this
      case Clear => 0
      case Fs => 1
      case RapsFs => 2
      case Sf => 3
      case ClearSf => 4
      case RapsSf => 5
      case RapsMs => 6
      case Ms => 7
      case WtrExpires => 8
      case WtrRunning => 9
      case WtbExpires => 10
      case WtbRunning => 11
      case RapsNrRb => 12
      case RapsNr => 13
      case Invalid => 14
    }

    /** The requests that the timer-start code posts from inside the state machine. */
    predicate IsRunning() {
      WtrRunning? || WtbRunning?
    }

    /** The requests that are latched as the node's own top priority request. */
    predicate IsLatched() {
      Sf? || Fs? || Ms? || IsRunning()
    }
  }

  /** The events accepted by the management entry point. */
  datatype Command =
    | SignalFail
    | ClearSignalFail
    | AdmClear
    | AdmForcedSwitch
    | AdmManualSwitch
  {
    function Request(): Request {
      match this
      case SignalFail => Sf
      case ClearSignalFail => ClearSf
      case AdmClear => Clear
      case AdmForcedSwitch => Fs
      case AdmManualSwitch => Ms
    }
  }
}
