/**
 * The records exchanged between the controller, the dashboard and its
 * history log (types.ts). Temperatures and humidities are exact reals.
 */
module Types {

  datatype Option<+T> = None | Some(value: T)

  /** One polling snapshot of the appliance (types.ts:1-12). */
  datatype SystemStatus = SystemStatus(
    temperature: real,
    humidity: real,
    relayState: bool,    // true = compressor on
    powerStatus: bool,   // true = power OK
    door1Status: bool,   // true = closed
    door2Status: bool,   // true = closed
    minTemp: real,
    maxTemp: real,
    alertActive: bool,
    timeOutOfRange: int  // seconds
  )

  /** The controller's raw JSON reply, with pin levels as strings (types.ts:40-51). */
  datatype ApiResponse = ApiResponse(
    temperature: real,
    humidity: real,
    relayState: string,
    powerStatus: string,
    door1Status: string,
    door2Status: string,
    minTemp: real,
    maxTemp: real,
    alertActive: bool,
    timeOutOfRange: int
  )

  datatype EventType = AlertType | DoorType | PowerType | SystemType

  /** The three levels shared by log events and on-screen notifications. */
  datatype Severity = Info | Warning | Critical

  /** One entry of the event log (types.ts:14-20). */
  datatype SystemEvent = SystemEvent(
    id: string,
    eventType: EventType,
    message: string,
    timestamp: string,
    severity: Severity
  )

  /** One sample of the temperature/humidity history (types.ts:22-26). */
  datatype HistoricalDataPoint = HistoricalDataPoint(time: string, temperature: real, humidity: real)

  /** The text the source uses for each event type and severity. */
  function EventTypeName(t: EventType): string
  {
    match t
    case AlertType => "ALERT"
    case DoorType => "DOOR"
    case PowerType => "POWER"
    case SystemType => "SYSTEM"
  }

  function SeverityName(s: Severity): string
  {
    match s
    case Info => "info"
    case Warning => "warning"
    case Critical => "critical"
  }
}
