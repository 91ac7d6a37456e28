/** Shared vocabulary of the notifier model: instants, date rendering and error results. */
module Common {

  /** A `DateTime<Local>` reduced to the instant it denotes; chrono compares these instants. */
  type Instant = int

  /** How chrono's `Display` renders an instant; the model leaves it uninterpreted. */
  type DateFormat = Instant -> string

  datatype Option<T> = None | Some(value: T)

  /** `anyhow::Result`: a value or an error carrying its message. */
  datatype Result<T> = Ok(value: T) | Err(message: string)
}
