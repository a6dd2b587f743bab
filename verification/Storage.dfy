/** The outcome of replacing a durable snapshot, seen from the component that asked for it. */
module Storage {
  /** Saved: the new snapshot is durable. Refused: an error came back and the old one stands.
      Crashed: the process died during the write, before or after the new snapshot took effect. */
  datatype Outcome = Saved | Refused | Crashed(wrote: bool)
}
