/** The request and response records of the HTTP layer, each with the field constraints and
    defaults its pydantic model declares (server/schemas.py). A `Parse…` function is the
    validation pydantic performs on a JSON object; it fails exactly where pydantic would reject
    the input. */
module Schemas {
  import opened Options

  /** Remaining time of each side and the increment, in milliseconds. */
  datatype Clock = Clock(whiteMs: int, blackMs: int, incMs: int)

  const DefaultIncMs: int := 0

  predicate ValidClock(c: Clock) {
    c.whiteMs >= 0 && c.blackMs >= 0 && c.incMs >= 0
  }

  /** Validates a JSON object as a clock: `whiteMs` and `blackMs` are required, `incMs`
      defaults to 0, and every field present must be non-negative. Other keys are ignored. */
  function ParseClock(fields: map<string, int>): (r: Result<Clock, string>)
    ensures r.Ok? <==>
      && "whiteMs" in fields && fields["whiteMs"] >= 0
      && "blackMs" in fields && fields["blackMs"] >= 0
      && ("incMs" in fields ==> fields["incMs"] >= 0)
    ensures r.Ok? ==> ValidClock(r.value)
    ensures r.Ok? ==>
      && r.value.whiteMs == fields["whiteMs"]
      && r.value.blackMs == fields["blackMs"]
      && r.value.incMs == (if "incMs" in fields then fields["incMs"] else DefaultIncMs)
  {
    if "whiteMs" !in fields || "blackMs" !in fields then Err("field required")
    else
      var inc := if "incMs" in fields then fields["incMs"] else DefaultIncMs;
      var c := Clock(fields["whiteMs"], fields["blackMs"], inc);
      if ValidClock(c) then Ok(c) else Err("ensure this value is greater than or equal to 0")
  }

  /** `clock.dict()`: the JSON object of a clock. */
  function ClockDict(c: Clock): (m: map<string, int>)
    ensures m.Keys == {"whiteMs", "blackMs", "incMs"}
  {
    map["whiteMs" := c.whiteMs, "blackMs" := c.blackMs, "incMs" := c.incMs]
  }

  /** A valid clock survives being stored as its JSON object and read back, and that object is
      never empty (so `clocks or None` keeps it). */
  lemma ClockRoundTrip(c: Clock)
    ensures ValidClock(c) ==> ParseClock(ClockDict(c)) == Ok(c)
    ensures ClockDict(c) != map[]
  {
    assert "whiteMs" in ClockDict(c);
  }

  /** The status object of a session. */
  datatype Status = Status(inCheck: bool, gameOver: bool, winner: Option<string>, reason: Option<string>)

  const Winners: set<string> := {"white", "black", "draw"}
  const Reasons: set<string> := {"checkmate", "stalemate", "resign", "timeout", "threefold", "50move"}

  /** The literal types of `winner` and `reason`; pydantic checks nothing else (in particular
      not that `gameOver` agrees with `winner`). */
  predicate ValidStatus(s: Status) {
    (s.winner.Some? ==> s.winner.value in Winners) && (s.reason.Some? ==> s.reason.value in Reasons)
  }

  /** Builds the `Status` model from a status dictionary. */
  function CheckStatus(s: Status): (r: Result<Status, string>)
    ensures r.Ok? <==> ValidStatus(s)
    ensures r.Ok? ==> r.value == s
  {
    if ValidStatus(s) then Ok(s) else Err("unexpected value; permitted literals only")
  }

  /** The body of `POST /session`. */
  datatype NewSessionIn = NewSessionIn(botId: string, color: string, initialFen: Option<string>, clocks: Option<Clock>)

  const Colors: set<string> := {"white", "black", "auto"}
  const DefaultColor: string := "white"

  predicate ValidNewSessionIn(p: NewSessionIn) {
    p.color in Colors && (p.clocks.Some? ==> ValidClock(p.clocks.value))
  }

  /** Validates the body of `POST /session`, each argument being a field of the JSON object
      (`None` when absent): `botId` is required, `color` defaults to "white" and must be one of
      the three literals, `initialFEN` and `clocks` default to `None`. */
  function ParseNewSessionIn(botId: Option<string>, color: Option<string>, initialFen: Option<string>,
                             clocks: Option<map<string, int>>): (r: Result<NewSessionIn, string>)
    ensures r.Ok? <==>
      && botId.Some?
      && (color.Some? ==> color.value in Colors)
      && (clocks.Some? ==> ParseClock(clocks.value).Ok?)
    ensures r.Ok? ==> ValidNewSessionIn(r.value)
    ensures r.Ok? ==>
      && r.value.botId == botId.value
      && r.value.color == (if color.Some? then color.value else DefaultColor)
      && r.value.initialFen == initialFen
      && (clocks.None? <==> r.value.clocks.None?)
      && (clocks.Some? ==> r.value.clocks == Some(ParseClock(clocks.value).value))
  {
    if botId.None? then Err("field required")
    else if color.Some? && color.value !in Colors then Err("unexpected value; permitted: 'white', 'black', 'auto'")
    else
      var c := if color.Some? then color.value else DefaultColor;
      match clocks
      case None => Ok(NewSessionIn(botId.value, c, initialFen, None))
      case Some(fields) =>
        match ParseClock(fields)
        case Err(e) => Err(e)
        case Ok(clock) => Ok(NewSessionIn(botId.value, c, initialFen, Some(clock)))
  }

  /** The body of `POST /move`. */
  datatype MoveIn = MoveIn(sessionId: string, uci: string)

  const MinUciLength: nat := 4

  predicate ValidMoveIn(p: MoveIn) {
    |p.uci| >= MinUciLength
  }

  /** Validates the body of `POST /move`: both fields are required and `uci` must have at least
      four characters; nothing about the token's shape is checked beyond its length. */
  function ParseMoveIn(sessionId: Option<string>, uci: Option<string>): (r: Result<MoveIn, string>)
    ensures r.Ok? <==> sessionId.Some? && uci.Some? && |uci.value| >= MinUciLength
    ensures r.Ok? ==> ValidMoveIn(r.value) && r.value == MoveIn(sessionId.value, uci.value)
  {
    if sessionId.None? || uci.None? then Err("field required")
    else if |uci.value| < MinUciLength then Err("ensure this value has at least 4 characters")
    else Ok(MoveIn(sessionId.value, uci.value))
  }
}
