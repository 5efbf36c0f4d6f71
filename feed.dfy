/**
 * The Odds API payloads as the collectors read them. A string field that the
 * code reads with `.get(key, '')` is a plain `string` whose absent value is "";
 * fields whose presence matters are `Option`s.
 */
module Feed {
  import opened Wrappers

  /** A JSON scalar: a string, a number, or null. */
  datatype Cell = Text(s: string) | Num(x: real) | Null
  {
    /** Python truthiness of the value. */
    predicate Truthy()
    {
      match this
      case Text(s) => s != ""
      case Num(x) => x != 0.0
      case Null => false
    }

    /** Python's `value or fallback`. */
    function Or(fallback: Cell): (r: Cell)
      ensures Truthy() ==> r == this
      ensures !Truthy() ==> r == fallback
    {
      if Truthy() then this else fallback
    }
  }

  /** The empty string cell the shapers use for missing values. */
  const Blank: Cell := Text("")

  /** One outcome of a market: a team, "Over"/"Under" or a player line. */
  datatype Outcome = Outcome(
    name: Option<string>,
    description: Option<string>,
    point: Option<Cell>,
    price: Option<Cell>)

  datatype Market = Market(key: Option<string>, outcomes: seq<Outcome>)

  datatype Bookmaker = Bookmaker(title: string, markets: seq<Market>)

  /** One game of the odds feed. */
  datatype Event = Event(
    id: string,
    commenceTime: string,
    homeTeam: string,
    awayTeam: string,
    sportTitle: string,
    bookmakers: seq<Bookmaker>)

  /** Over/Under classification of a prop outcome. */
  datatype LineType = Over | Under | Unknown

  /** A player-prop record as the odds client emits it, one per outcome. */
  datatype PropRecord = PropRecord(
    gameId: string,
    commenceTime: string,
    homeTeam: string,
    awayTeam: string,
    bookmaker: string,
    marketType: string,
    playerName: string,
    lineType: LineType,
    lineValue: Cell,
    odds: Cell,
    collectedAt: string)
}
