/** The constant tables of fancyprint/misc.py: message types, their labels, marker glyphs
    and terminal colours. */
module Misc {
  import opened Wrappers

  datatype MessageType = Info | Ok | Error | Debug | Warning | Void

  /** The string value of each `MessageType` attribute. */
  function Label(t: MessageType): (r: string)
    ensures |r| <= 5
    ensures r == "" <==> t == Void
  {
    match t
    case Info => "INFO"
    case Ok => "OKAY"
    case Error => "ERROR"
    case Debug => "DEBUG"
    case Warning => "WARN"
    case Void => ""
  }

  // Marker glyphs (class Symbols)
  const ChunkStart: string := "\U{23A1}"
  const ChunkContinued: string := "\U{23A2}"
  const ChunkEnd: string := "\U{23A3}"
  const SingleLineChunk: string := "["
  const Enumeration: string := "\U{2022}"

  // ANSI colour sequences (class TerminalColors)
  const Escape: char := '\U{1B}'
  const OkBlue: string := "\U{1B}[94m"
  const OkCyan: string := "\U{1B}[96m"
  const OkGreen: string := "\U{1B}[92m"
  const WarningColor: string := "\U{1B}[93m"
  const Fail: string := "\U{1B}[91m"
  const EndColor: string := "\U{1B}[0m"

  /** `msgtype_to_terminal_color`: every type but VOID has a colour; looking VOID up
      raises KeyError. */
  function ColorOf(t: MessageType): (r: Option<string>)
    ensures r.None? <==> t == Void
    ensures r.Some? ==> |r.value| > 0 && r.value[0] == Escape
  {
    match t
    case Info => Some(OkBlue)
    case Ok => Some(OkGreen)
    case Error => Some(Fail)
    case Debug => Some(OkCyan)
    case Warning => Some(WarningColor)
    case Void => None
  }

  predicate HasColor(t: MessageType) {
    ColorOf(t).Some?
  }
}
