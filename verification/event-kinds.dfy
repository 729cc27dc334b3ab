/** Event types, as far as the pusher tells them apart. */
module EventKinds {
  datatype Kind =
    | TurnStarted | TurnCompleted | FilesChanged | TodoUpdated
    | SessionEnded | SessionError
    | Sdk(name: string)    // "sdk." and a name
    | Other(name: string)  // any other type
  {
    predicate IsTerminal() { SessionEnded? || SessionError? }
  }
}
