/** The wire envelope of engine/message.go and the command tags of
    engine/process.go. JSON itself is not modelled: a decoder is any function
    from bytes to an optional `Message`. */
module Message {
  import opened Wrappers

  /** Command tags carried in `Message.cmd`. */
  const CmdReg: string := "[REG]"
  const CmdInfo: string := "[INF]"
  const CmdRetry: string := "[RET]"
  const CmdEvent: string := "[EVT]"

  /** The acknowledgement text the broker sends after a registration. */
  const RegistrationSuccess: string := "client registration success"

  /** A byte of a datagram. */
  newtype byte = x: int | 0 <= x < 256

  /** The `data` field after the first decoding phase, classified by the
      shape the second phase can read from it:
      a registration object, an event object, JSON null (the field is absent),
      or any value that is not an object (the second phase fails on it). */
  datatype Data =
    | Register(topic: string)
    | Event(event: string, uuid: string)
    | NoData
    | Other

  /** The envelope: command tag, free-text note, payload. */
  datatype Message = Message(cmd: string, msg: string, data: Data)

  /** A JSON decoder, abstracted: `None` is a decoding error. */
  type Decoder = seq<byte> -> Option<Message>
}
