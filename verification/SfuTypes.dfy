/** Names shared by the parts of the call client. */
module SfuTypes {
  datatype Source = Mic | Camera | Screen | ScreenAudio | OtherSource(name: string)

  /** One participant's source, the client's "user:source" string. */
  datatype Key = Key(user: int, source: Source)

  /** A session id; 0 stands for the empty string of a client without a session. */
  type SessionId = nat
}
