/**
 The chat messages the analyzer reads. Only the three things the analyzer looks at are kept:
 the body text, the creation instant (used as the pagination cursor) and the calendar day of
 that instant (used as the tally key). How the day is computed from the instant, including
 time zones, is not modelled: the day is carried by the message as an opaque value.
 */
module Messages {

  /** A creation instant, as a count of ticks since some fixed epoch. */
  type Timestamp = nat

  /** A calendar day; the model only ever compares days for equality. */
  datatype Date = Date(year: int, month: int, day: int)

  datatype Message = Message(content: string, createdAt: Timestamp, day: Date)
}
