/** The records the controller's JSON responses decode into. Every one is an
    immutable snapshot of a single response. */
module Models {
  import opened Wrappers

  /** An RFC 3339 timestamp as the controller writes it. */
  type Timestamp = string

  /** A textual IPv4 or IPv6 address. */
  type IpAddress = string

  /** An untyped JSON value kept as its raw text. */
  type RawJson = string

  datatype Info = Info(applicationVersion: string)

  /** The envelope every list endpoint returns: one page of `data` out of
      `totalCount` items in all. The paginator reads only `totalCount` and `data`. */
  datatype Envelope<T> = Envelope(offset: int, limit: int, count: int, totalCount: int, data: seq<T>)

  datatype Site = Site(id: string, name: string)

  datatype Client = Client(id: string, name: string, connectedAt: Timestamp, ipAddress: IpAddress)

  datatype Device = Device(
    id: string,
    name: string,
    model: string,
    macAddress: string,
    ipAddress: IpAddress,
    state: string,
    features: seq<string>,
    interfaces: seq<string>)

  /** A back-reference to the device this one uplinks to, by identifier only. */
  datatype DeviceUplink = DeviceUplink(deviceId: string)

  /** Per-class capability blocks; their shape differs between switches and
      access points, so they stay untyped. */
  datatype DeviceFeatures = DeviceFeatures(switching: Option<RawJson>, accessPoint: Option<RawJson>)

  datatype DevicePort = DevicePort(index: int, state: string, connector: string, maxSpeedMbps: int, speedMbps: int)

  /** A radio; its frequency (a float32 in GHz) is not part of this model. */
  datatype DeviceRadio = DeviceRadio(wlanStandard: string, channelWidthMhz: int, channel: int)

  datatype DeviceInterfaces = DeviceInterfaces(ports: seq<DevicePort>, radios: seq<DeviceRadio>)

  datatype FullDevice = FullDevice(
    id: string,
    name: string,
    model: string,
    supported: bool,
    macAddress: string,
    ipAddress: IpAddress,
    state: string,
    firmwareVersion: string,
    firmwareUpdatable: bool,
    adoptedAt: Timestamp,
    provisionedAt: Timestamp,
    configurationId: string,
    uplink: Option<DeviceUplink>,
    features: Option<DeviceFeatures>,
    interfaces: Option<DeviceInterfaces>)
}
