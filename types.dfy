/** The decoded records of the sports API and the report row (types.go). */
module Types {

  /** A competition tag; the program only ever uses "nfl" and "cfb". */
  type EventType = string

  const NFL: EventType := "nfl"
  const CFB: EventType := "cfb"

  /** One report row. */
  datatype Output = Output(date: string, shortname: string, spread: string, name: string)

  /** One entry of an odds resource; only `details` is ever read. */
  datatype StatItem = StatItem(ref: string, details: string)

  /** An odds resource: zero or more entries (zero means "odds not yet posted"). */
  datatype Stats = Stats(items: seq<StatItem>)

  /** A game record as decoded, plus the odds link the program derives for it. */
  datatype GameInfo = GameInfo(ref: string, id: string, date: string, name: string,
                               shortName: string, statLink: string)

  datatype Parameters = Parameters(week: seq<string>, season: seq<string>, seasontypes: seq<string>)

  datatype Meta = Meta(parameters: Parameters)

  /** A reference to one game of an event listing. */
  datatype EventItem = EventItem(ref: string)

  /** An event listing of one competition and week. */
  datatype Event = Event(meta: Meta, items: seq<EventItem>, eventType: EventType)
}
