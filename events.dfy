/** One decoded JSON-LD event record, reduced to the shapes that steer
    `get_match_data` (scraper.py): which keys are present and, where it
    matters, what kind of JSON value a key holds. */
module Events {
  import opened Calendar

  datatype Option<T> = None | Some(value: T)

  /** An Istanbul wall-clock instant: the start time after `astimezone`. */
  datatype LocalTime = LocalTime(date: Date, hour: int, minute: int)

  predicate ValidLocalTime(t: LocalTime) {
    Valid(t.date) && 0 <= t.hour < 24 && 0 <= t.minute < 60
  }

  /** The `startDate` key of the match details. */
  datatype StartDate =
    | StartAbsent                  // no `startDate` key
    | StartFalsy                   // null, "", 0, false, [] or {}
    | StartNonString               // a truthy value that is not a string
    | StartMalformed               // a non-empty string `fromisoformat` rejects
    | StartAt(local: LocalTime)    // an ISO-8601 timestamp, already in Istanbul time

  /** The `broadcastOfEvent` key of an event. */
  datatype Details =
    | DetailsAbsent                                          // no `broadcastOfEvent` key
    | DetailsNotObject                                       // null, a list, a string, a number...
    | DetailsObject(name: Option<string>, startDate: StartDate)

  /** An element of the `broadcastChannel` list. */
  datatype Channel =
    | ChannelObject(name: Option<string>)
    | ChannelNotObject

  /** The `broadcastChannel` key of an event. */
  datatype Channels =
    | ChannelsAbsent                    // no `broadcastChannel` key
    | ChannelList(items: seq<Channel>)  // a JSON array
    | ChannelsText(text: string)        // a JSON string
    | ChannelsObject                    // a JSON object (its keys are strings, never 0)
    | ChannelsScalar                    // null, a number or a boolean

  datatype Event =
    | EventObject(details: Details, channels: Channels)
    | EventNotObject

  /** The start time of an event record, where it has one, is a real instant. */
  predicate WellFormed(e: Event) {
    e.EventObject? && e.details.DetailsObject? && e.details.startDate.StartAt?
    ==> ValidLocalTime(e.details.startDate.local)
  }
}
