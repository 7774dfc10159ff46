# Chess-against-a-bot server: session documents and turn protocol

A Dafny model of the server that lets a human play chess against a configurable engine
opponent. The model covers the game-session document and its store (`server/sessions.py`), the
request handlers that drive a game turn by turn (`server/main.py`), the validated request and
response records (`server/schemas.py`) and the table of opponent profiles (`server/bots.py`).

Chess is left to the python-chess library, and the model does not reimplement it.
`Chess.Board` is an opaque type. Every library call the server makes is a field of
`Chess.Rules`: start board, FEN parsing, legality of a UCI token, push, side to move,
check/checkmate/stalemate/fifty-move/threefold tests, SAN, FEN and PGN text. Every handler that
reads a board takes a `Rules` value, so each property proved below holds for any rules engine. The move-selection
engine is an `Oracle` parameter. Given a board and a profile, it returns the UCI token of its
move, or `None` when it returns no move. Its move is not assumed legal.

Modules, one per source file plus two support modules:

- `Options`: `Option` and `Result`.
- `Chess`: the library interface described above.
- `Schemas`: `clock`, `Status`, `newSessionIn` and `moveIn`, with the checks and defaults
  pydantic applies to each.
- `Bots`: `botConfig` with its defaults, the six built-in profiles (`BotList`) and the
  `BOTS_ID` lookup map (`BotsId`), built as the dict comprehension does.
- `Sessions`: the document (`Doc`) and the replay of its move list into a board (`Replay`, and
  the loop `BuildBoard` proved equal to it). It also holds the status verdict (`StatusOf`), the
  session object (`GameSession`, a class whose `doc` field is updated in place) and the store
  (`SessionStore`, a class whose `data` field maps `"sess:" + id` to a document).
- `Server`: the handlers `create_session`, `get_session`, `make_move`, `undo`, `resign` and
  `export_pgn`, plus the response builders `_session_out` and `_status_obj`.

An exception that a handler does not catch is modelled as `ServerError` naming the Python
exception class.

The code behaves as follows where one might expect otherwise, and the model follows the code:

- No operation rejects a move because the game is over. After a fifty-move or threefold verdict,
  `make_move` still appends legal moves.
- Resigning stores nothing and overrides nothing. `SessionStore.Resign` is only a `Get`. The
  `/resign` handler always answers winner "black", reason "resign", whatever side the human plays.
- `undo_fullmove` checks that a move is left before each of its two pops. An empty or one-move
  history is therefore cleared without error.
- A FEN given at creation is stored without checking it. A session with an unparsable FEN is
  stored, and every later read of its board fails.
- Inside `make_move`, any failure of `push_move`'s replay is reported as "IllegalMove". That
  covers a corrupt stored move and a bad FEN, not only an illegal user token.

## Model

| member | source | states |
|---|---|---|
| `Schemas.ParseClock` | server/schemas.py:4-7 | a clock object is accepted iff `whiteMs` and `blackMs` are present and every field present is non-negative; `incMs` defaults to 0; the result is a valid clock carrying the given values |
| `Schemas.ClockDict` | server/main.py:67 | a clock stored as its JSON object has exactly the keys `whiteMs`, `blackMs` and `incMs` |
| `Schemas.ClockRoundTrip` | server/main.py:67 | a valid clock stored as its JSON object parses back to the same clock, and that object is never empty |
| `Schemas.CheckStatus` | server/schemas.py:9-15 | a status passes validation iff its winner is absent or one of white/black/draw and its reason is absent or one of the six literals; validation keeps it unchanged |
| `Schemas.ParseNewSessionIn` | server/schemas.py:23-29 | the new-session body is accepted iff `botId` is present, `color` is absent or one of white/black/auto, and the clocks parse; color defaults to "white", FEN and clocks to none |
| `Schemas.ParseMoveIn` | server/schemas.py:41-43 | the move body is accepted iff both fields are present and `uci` has at least 4 characters |
| `Bots.NewBotDefaults` | server/bots.py:3-11 | a profile given only id, name and elo has no depth or node limit, 250 ms per move and one principal variation |
| `Bots.IndexById` | server/bots.py:23 | the id map's keys are exactly the ids in the list, and every entry is a profile with its own key as id |
| `Bots.IndexByIdLastWins` | server/bots.py:23 | the entry under an id is the last profile in the list with that id, as with dict-comprehension overwriting |
| `Bots.IndexByIdDistinct` | server/bots.py:23 | with pairwise distinct ids every profile is found under its id and the map has as many keys as the list has profiles |
| `Bots.BotListIds` | server/bots.py:14-21 | the built-in list holds exactly the six ids penny, nelson, sophia, dmitri, houyifan and magnus, in that order |
| `Bots.BotIdsDistinct` | server/bots.py:14-21 | the six built-in ids are pairwise distinct |
| `Bots.BotsIdComplete` | server/bots.py:14-23 | every built-in profile is found under its own id in `BOTS_ID`, which has exactly six keys, the six ids |
| `Bots.BotListOrdered` | server/bots.py:15-20 | ratings strictly increase along the list and every profile sets a positive move time |
| `Sessions.Key` | server/sessions.py:117-123 | a store key is the "sess:" prefix followed by the session id, from which the id can be recovered |
| `Sessions.KeyInjective` | server/sessions.py:122-123 | two distinct session ids never share a store key |
| `Sessions.Initial` | server/sessions.py:17 | an absent, empty or "startpos" FEN starts from the standard board; any other FEN starts from the position the library parses, and fails with InvalidFen exactly when the library rejects it |
| `Sessions.Replay` | server/sessions.py:16-23 | replay fails only with an invalid FEN or with the index of a stored move, which lies within the list |
| `Sessions.ReplayEmpty` | server/sessions.py:16-17 | an empty move list replays to the standard start when the FEN is absent, empty or "startpos", and otherwise to the parsed FEN, or fails with InvalidFen |
| `Sessions.ReplaySnoc` | server/sessions.py:18-22 | replaying `ms + [m]` pushes `m` onto the replay of `ms` when it is legal there, fails at index `|ms|` when it is not, and keeps an earlier failure |
| `Sessions.ReplayOkIff` | server/sessions.py:18-23 | a replay succeeds iff the starting board is accepted and each stored move is legal in the position reached by the moves before it |
| `Sessions.ReplayStopsAtFailure` | server/sessions.py:18-21 | once a prefix fails to replay, the whole list fails with the same error |
| `Sessions.ReplayPrefixOk` | server/sessions.py:18-23 | every prefix of a replayable list is replayable |
| `Sessions.ReplayFirstIllegal` | server/sessions.py:18-21 | the reported index is that of the first illegal move: the moves before it are all legal and it is not |
| `Sessions.FirstIllegalAt` | server/sessions.py:18-21 | a replay that fails at a stored-move index fails at that move: the moves before it replay and the move is not legal on the board they reach (the proof behind `ReplayFirstIllegal`) |
| `Sessions.BuildBoard` | server/sessions.py:16-23 | the loop that pushes the stored moves returns exactly the replay's result, board or first error |
| `Sessions.StatusOf` | server/sessions.py:91-110 | verdict priority checkmate, stalemate, fifty moves, threefold; on checkmate the side not to move wins, otherwise a verdict is a draw; gameOver iff a winner is set; reason absent iff winner absent; inCheck read independently; never "resign" or "timeout"; always a valid Status |
| `Sessions.NewDoc` | server/sessions.py:125-133 | a new document has no moves, FEN "startpos" when none is given and the given FEN otherwise, and clocks only when non-empty ones are given |
| `Sessions.NewDocStartsAsRequested` | server/sessions.py:130 | defaulting the FEN to "startpos" does not change the board a new game starts from |
| `Sessions.FullmoveUndone` | server/sessions.py:149-152 | the undone list is the prefix of length max(0, n-2) |
| `Sessions.FullmoveUndoneInverse` | server/sessions.py:147-154 | undo on an empty history stays empty when repeated, and undo after a user ply and a bot ply restores the earlier list |
| `Sessions.UndoKeepsReplayable` | server/sessions.py:147-154 | undoing never turns a replayable history into a failing one |
| `Sessions.GameSession.constructor` | server/sessions.py:40-43 | a session object holds its store, key and document |
| `Sessions.GameSession.Persist` | server/sessions.py:112-113 | the whole document is written under the session's key and no other key changes |
| `Sessions.GameSession.PushMove` | server/sessions.py:81-89 | a legal token is appended at the end, earlier entries unchanged, the store equals the new document, and the SAN is taken on the board before the move; otherwise "IllegalMove" (or the replay's own error) and neither document nor store changes |
| `Sessions.SessionStore.constructor` | server/sessions.py:119-120 | a new store is empty |
| `Sessions.SessionStore.Create` | server/sessions.py:125-135 | the new document is stored under "sess:" + id, the only key written, and the returned session holds the same document |
| `Sessions.SessionStore.Get` | server/sessions.py:137-142 | succeeds iff the key is stored, returning that document; otherwise "SessionNotFound"; the store is not modified |
| `Sessions.SessionStore.Resign` | server/sessions.py:144-145 | behaves exactly as `Get`; the winner is ignored and nothing is written |
| `Sessions.SessionStore.UndoFullmove` | server/sessions.py:147-154 | an absent key gives "SessionNotFound" with the store unchanged; otherwise the stored moves become the undone prefix and the rest of the document and store are unchanged |
| `Server.TurnOf` | server/main.py:33 | the reported turn is "w" or "b", and "w" iff White is to move |
| `Server.StatusObj` | server/main.py:39-47 | building the Status model from `status()` never fails and changes nothing |
| `Server.ClocksOut` | server/main.py:36 | stored clocks are read back as a valid clock, or the response fails when they do not parse |
| `Server.ClockField` | server/main.py:67 | clocks are stored iff they are given, as an object with the three clock keys; a valid clock parses back to itself |
| `Server.ClocksEcho` | server/main.py:64-68 | clocks given at creation are echoed back unchanged |
| `Server.SessionOutOf` | server/main.py:28-37 | the session response exists iff the board replays and the clocks parse; it carries the id, profile, FEN and turn of the replayed board, the PGN and the derived status |
| `Server.MoveOutOf` | server/main.py:115-122 | the move response exists iff the board replays and the clocks parse; it carries both move sides as given and the FEN and status of the replayed board |
| `Server.CreateSession` | server/main.py:57-75 | an unknown profile gives "BotNotFound" with nothing stored; otherwise one new document is stored, with the oracle's move as its only move when the human plays black and no moves otherwise; a replayable store stays replayable when the FEN is accepted |
| `Server.GetSession` | server/main.py:77-83 | an unknown session is "SessionNotFound"; otherwise the response for the stored document |
| `Server.MoveOutcome` | server/main.py:85-122 | `POST /move` changes at most the named session's document, and in it only the move list; every other key keeps its document |
| `Server.EngineReply` | server/main.py:110-122 | the engine's half leaves the document alone or appends exactly the oracle's move, only when that move is legal; a reported engine move is that move with its SAN on the board before it; no move is a RuntimeError with nothing changed |
| `Server.MoveRejectedStoresNothing` | server/main.py:85-98 | a request answered 400 or 404 (unknown session, illegal token) leaves the store as it was |
| `Server.MoveOutcomeReported` | server/main.py:100-122 | a successful answer reports the user's token, stored after the earlier moves; the engine's move follows it iff one is reported, and an answer without one reports a finished game |
| `Server.MoveRejections` | server/main.py:85-98 | an unknown session is 404 "SessionNotFound", a document with an unknown profile a KeyError, and a token not legal on the stored board (or a board that does not replay) 400 "IllegalMove", each with the store unchanged |
| `Server.EngineRepliesUnlessGameOver` | server/main.py:99-122 | after a legal user ply that ends the game, exactly that ply is stored and no engine move is reported; otherwise a legal oracle move is stored after it and reported with its SAN on the board before it; the answer fails only when the stored clocks do not parse |
| `Server.MoveOutcomeGrows` | server/main.py:85-122 | the session's move list only grows, and by at most two plies |
| `Server.MoveOutcomeKeepsReplayable` | server/main.py:85-122 | a store whose every session replays still does after `POST /move`, whatever the oracle answers |
| `Server.BotReply` | server/main.py:110-122 | the engine's half, run on the session object, has the outcome `EngineReply` describes and writes the store only when the document changes |
| `Server.MakeMove` | server/main.py:85-122 | the handler leaves the store and answers exactly as `MoveOutcome` describes, and a replayable store stays replayable |
| `Server.Undo` | server/main.py:124-135 | a missing or empty id gives 400 and an unknown one 404, both with the store unchanged; otherwise only that session's moves are truncated, and the response is for the new document |
| `Server.ResignStatusNotDerived` | server/main.py:149-157 | the resignation status is a valid Status that no position's `status()` produces |
| `Server.Resign` | server/main.py:137-157 | a missing id gives 400 and an unknown one 404; otherwise the fixed status {inCheck false, gameOver true, winner black, reason resign}; the store is never written |
| `Server.ExportPgn` | server/main.py:159-165 | an unknown session is SessionNotFound; a stored FEN the library rejects is a ValueError (server/sessions.py:28); otherwise the PGN of the stored FEN and moves |

## Left out

- Chess rules: legal-move generation, check, mate, stalemate, repetition and fifty-move
  detection, SAN, FEN and PGN text (including `_build_pgn`, server/sessions.py:26-36) belong to
  python-chess. They are the abstract fields of `Chess.Rules`, and no law relating them is assumed.
- The engine process (server/engine.py): starting Stockfish, the retry after the engine
  terminates, the configuration and the time limit in seconds. The engine is the `Oracle`
  parameter, and `None` stands for its "no move" error. A second failure after the retry escapes
  as the engine's own exception, also a 500; the model reports it as the same `None`, that is as
  a RuntimeError.
- Redis and JSON: the store is an in-memory map and the JSON round trip is the identity.
  `uuid4` is replaced by the `sid` argument of `Create`. Its freshness is not required, because
  the code does not check it either: a clash overwrites, as `set` would.
- FastAPI: routing, CORS, `/health`, `/bots`, and validating a body before a handler runs
  (handlers take already validated records; the `Schemas.Parse…` functions are that
  validation). HTTP status codes are kept only as the error kind.
- `Server.ClocksOut`, `Server.SessionOutOf`, `Server.MoveOutOf`: pydantic's coercion of
  non-integer JSON values (strings, floats, booleans) is not modelled. A clock object is a map
  from field name to integer.
- `Server.ExportPgn`: a stored token that `Move.from_uci` cannot parse makes `_build_pgn` raise
  (server/sessions.py:33). The model's `pgn` field is total, so this failure is not represented.
- `Server.EngineReply`: the SAN of the oracle's move is taken before the move is pushed
  (server/main.py:112). python-chess raises an AssertionError there when that move starts from
  an empty square. `Rules.san` is total, so the model reports every illegal oracle move as the
  ValueError of the push.
- `Server.Undo`, `Server.Resign`: the untyped body's `sessionId` is modelled as an optional
  string. A falsy non-string value (0, false, an empty list) is also answered 400, and a truthy
  non-string such as 123 would be looked up as a key built from it; neither is represented.
- Concurrency: the read-modify-write race between two requests on one session is outside this
  sequential model.
- Clock arithmetic: the code has none. Clocks are only stored and echoed back.
