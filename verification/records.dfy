/**
 * A real-time media flow as the flows_monitor endpoint returns it, and the
 * 18-column CSV row the report writes for it (cgnx-rtm-health-report.py,
 * header on line 229, row written by `flowhanlder` on lines 183-222).
 * The textual rendering of each cell (JSON dumping, local-time formatting,
 * milliseconds to seconds) is not modelled: a row is a sequence of typed cells.
 */
module Records {
  import opened Wrappers

  /** One flow item. Loss and MOS values may be JSON null. */
  datatype Flow = Flow(
    sourceIp: string,
    sourcePort: int,
    destinationIp: string,
    destinationPort: int,
    avgLossS2C: Option<real>,
    avgLossC2S: Option<real>,
    maxLossS2C: Option<real>,
    maxLossC2S: Option<real>,
    avgMosC2S: Option<real>,
    avgMosS2C: Option<real>,
    pathId: string,
    mediaType: string,
    startMs: int,
    endMs: int,
    lanDscpLanToWan: string,
    lanDscpWanToLan: string,
    lanToWan: bool)
  {
    /** Call duration in milliseconds (line 267). */
    function DurationMs(): int
    {
      endMs - startMs
    }
  }

  /** One cell of a detail row, before rendering. */
  datatype Cell =
    | Text(text: string)
    | Port(port: int)
    | Measure(measure: Option<real>)
    | Flag(flag: bool)
    | LocalTime(epochMs: int)
    | Seconds(durationMs: int)

  /** The report's columns. */
  datatype Column =
    | SrcIp | SrcPort | DstIp | DstPort | StartTime | EndTime | CallDurationSecs
    | MediaType | LanToWan | AvgLossSvrToClient | AvgLossClientToSvr
    | MaxLossSvrToClient | MaxLossClientToSvr | AvgMosC2S | AvgMosS2C | PathId
    | LanDscpLanToWan | LanDscpWanToLan

  /** The name each column carries in the header line. */
  function ColumnName(c: Column): string
  {
    match c
    case SrcIp => "src_ip"
    case SrcPort => "src_port"
    case DstIp => "dst_ip"
    case DstPort => "dst_port"
    case StartTime => "start_time"
    case EndTime => "end_time"
    case CallDurationSecs => "call_duration_secs"
    case MediaType => "media_type"
    case LanToWan => "lan_to_wan"
    case AvgLossSvrToClient => "avg_loss_svr_to_client"
    case AvgLossClientToSvr => "avg_loss_client_to_svr"
    case MaxLossSvrToClient => "max_loss_svr_to_client"
    case MaxLossClientToSvr => "max_loss_client_to_svr"
    case AvgMosC2S => "avg_mos_c2s"
    case AvgMosS2C => "avg_mos_s2c"
    case PathId => "path_id"
    case LanDscpLanToWan => "lan_dscp_lan_to_wan"
    case LanDscpWanToLan => "lan_dscp_wan_to_lan"
  }

  /** What a column holds for a given flow ("svr_to_client" is s2c). */
  function CellAt(f: Flow, c: Column): Cell
  {
    match c
    case SrcIp => Text(f.sourceIp)
    case SrcPort => Port(f.sourcePort)
    case DstIp => Text(f.destinationIp)
    case DstPort => Port(f.destinationPort)
    case StartTime => LocalTime(f.startMs)
    case EndTime => LocalTime(f.endMs)
    case CallDurationSecs => Seconds(f.DurationMs())
    case MediaType => Text(f.mediaType)
    case LanToWan => Flag(f.lanToWan)
    case AvgLossSvrToClient => Measure(f.avgLossS2C)
    case AvgLossClientToSvr => Measure(f.avgLossC2S)
    case MaxLossSvrToClient => Measure(f.maxLossS2C)
    case MaxLossClientToSvr => Measure(f.maxLossC2S)
    case AvgMosC2S => Measure(f.avgMosC2S)
    case AvgMosS2C => Measure(f.avgMosS2C)
    case PathId => Text(f.pathId)
    case LanDscpLanToWan => Text(f.lanDscpLanToWan)
    case LanDscpWanToLan => Text(f.lanDscpWanToLan)
  }

  /** The column order of the report. */
  const Columns: seq<Column> := [
    SrcIp, SrcPort, DstIp, DstPort, StartTime, EndTime, CallDurationSecs,
    MediaType, LanToWan, AvgLossSvrToClient, AvgLossClientToSvr,
    MaxLossSvrToClient, MaxLossClientToSvr, AvgMosC2S, AvgMosS2C, PathId,
    LanDscpLanToWan, LanDscpWanToLan]

  /** The header line as written on line 229. */
  const Header: seq<string> := [
    "src_ip", "src_port", "dst_ip", "dst_port", "start_time", "end_time",
    "call_duration_secs", "media_type", "lan_to_wan", "avg_loss_svr_to_client",
    "avg_loss_client_to_svr", "max_loss_svr_to_client", "max_loss_client_to_svr",
    "avg_mos_c2s", "avg_mos_s2c", "path_id", "lan_dscp_lan_to_wan",
    "lan_dscp_wan_to_lan"]

  /** Position of a column in the report, counted from 0. */
  function ColumnIndex(c: Column): nat
  {
    match c
    case SrcIp => 0
    case SrcPort => 1
    case DstIp => 2
    case DstPort => 3
    case StartTime => 4
    case EndTime => 5
    case CallDurationSecs => 6
    case MediaType => 7
    case LanToWan => 8
    case AvgLossSvrToClient => 9
    case AvgLossClientToSvr => 10
    case MaxLossSvrToClient => 11
    case MaxLossClientToSvr => 12
    case AvgMosC2S => 13
    case AvgMosS2C => 14
    case PathId => 15
    case LanDscpLanToWan => 16
    case LanDscpWanToLan => 17
  }

  /** The header names the 18 columns in the report's column order, each column once. */
  lemma HeaderNamesColumns()
    ensures |Header| == |Columns| == 18
    ensures forall i :: 0 <= i < |Header| ==> Header[i] == ColumnName(Columns[i])
    ensures forall i :: 0 <= i < |Columns| ==> ColumnIndex(Columns[i]) == i
  {
  }

  /**
   * The detail row, cell by cell in the order `flowhanlder` writes them.
   * Its i-th cell is what the i-th header column names.
   */
  function FlowRow(f: Flow): (r: seq<Cell>)
    ensures |r| == |Columns| == |Header|
    ensures forall i :: 0 <= i < |r| ==> r[i] == CellAt(f, Columns[i])
  {
    [Text(f.sourceIp), Port(f.sourcePort),
     Text(f.destinationIp), Port(f.destinationPort),
     LocalTime(f.startMs), LocalTime(f.endMs),
     Seconds(f.endMs - f.startMs),
     Text(f.mediaType), Flag(f.lanToWan),
     Measure(f.avgLossS2C), Measure(f.avgLossC2S), Measure(f.maxLossS2C), Measure(f.maxLossC2S),
     Measure(f.avgMosC2S), Measure(f.avgMosS2C), Text(f.pathId),
     Text(f.lanDscpLanToWan), Text(f.lanDscpWanToLan)]
  }
}
