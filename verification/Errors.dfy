/** Machine integers and the error values that the modelled operations return.
    Message texts carried by some errors are not modelled. */
module Errors {

  type u8 = x: nat | x < 0x100
  type u16 = x: nat | x < 0x1_0000
  type u32 = x: nat | x < 0x1_0000_0000
  type i32 = x: int | -0x8000_0000 <= x < 0x8000_0000
  type u64 = x: nat | x < 0x1_0000_0000_0000_0000

  /** Why a wait reports that NetworkManager is stuck. */
  datatype StuckWhy = SignalStreamEnded | InState(state: u32)

  datatype ConnectionError =
    | Dbus
    | NotFound
    | AuthFailed
    | SupplicantConfigFailed
    | SupplicantTimeout
    | DhcpFailed
    | Timeout
    | Stuck(why: StuckWhy)
    | NoWifiDevice
    | WifiNotReady
    | MissingPassword
    | DeviceFailed(deviceReason: u32)
    | ActivationFailed(reason: u32)
    | InvalidAddress
    | InvalidBssid
    | ApBssidNotFound
    | NotAWifiDevice
    | WifiInterfaceNotFound
    | ConnectionInProgress
    | AgentNotRegistered
    | SavedConnectionNotFound
    | MalformedSavedConnection(missing: string)
}
