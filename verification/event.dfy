/** Events and the test for an event that was never filled in. */
module Events {
  import opened JsonValues

  datatype Event = Event(
    id: string,
    name: string,
    payload: map<string, Json>,
    createdAt: Time,
    updatedAt: Time)
  {
    /** `IsZero`: neither an identifier nor a name; that is, the zero event
        up to its payload and timestamps. */
    function IsZero(): (zero: bool)
      ensures zero <==> this == ZeroEvent.(payload := payload, createdAt := createdAt, updatedAt := updatedAt)
    {
      id == "" && name == ""
    }
  }

  datatype EventList = EventList(resultsLength: int, results: seq<Event>)

  /** Go's zero `Event`. */
  const ZeroEvent := Event("", "", map[], ZeroTime, ZeroTime)

  /** Having an identifier or a name is exactly what makes an event non-zero. */
  lemma NonZeroWhenIdentified(e: Event)
    ensures e.id != "" ==> !e.IsZero()
    ensures e.name != "" ==> !e.IsZero()
    ensures ZeroEvent.IsZero()
  {
  }

  /** The payload and the timestamps play no part: an event with a payload
      and timestamps but no identifier or name still counts as zero. */
  lemma IsZeroIgnoresPayloadAndTimes(e: Event, payload: map<string, Json>, createdAt: Time, updatedAt: Time)
    ensures e.(payload := payload, createdAt := createdAt, updatedAt := updatedAt).IsZero() == e.IsZero()
  {
  }
}
