/** The request handlers of the HTTP server (server/main.py) over one session store. Each
    handler receives an already validated body, the chess rules and the move-selection engine;
    an exception the handler does not catch becomes `ServerError` naming its Python class. */
module Server {
  import opened Options
  import opened Chess
  import opened Schemas
  import opened Bots
  import opened Sessions

  /** The engine: the move it plays for a board and a profile, or `None` when it returns no
      move. Its move is not assumed legal. */
  type Oracle = (Board, BotConfig) -> Option<string>

  datatype ApiError =
    | BadRequest(detail: string)   // HTTP 400
    | NotFound(detail: string)     // HTTP 404
    | ServerError(exception: string)

  datatype SessionOut = SessionOut(
    sessionId: string, botId: string, fen: string, turn: string, pgn: string,
    status: Status, clocks: Option<Clock>)

  datatype MoveSide = MoveSide(uci: string, san: string)

  datatype MoveOut = MoveOut(
    user: Option<MoveSide>, bot: Option<MoveSide>, fen: string, pgn: string,
    status: Status, clocks: Option<Clock>)

  datatype ResignOut = ResignOut(sessionId: string, status: Status)

  /** The side to move as reported: "w" or "b". */
  function TurnOf(rules: Rules, b: Board): (t: string)
    ensures t == "w" || t == "b"
    ensures t == "w" <==> rules.whiteToMove(b)
  {
    if rules.whiteToMove(b) then "w" else "b"
  }

  /** `_status_obj`: the `Status` model built from `status()`; its validation always passes
      and keeps the dictionary as it is. */
  function StatusObj(rules: Rules, b: Board): (s: Status)
    ensures s == StatusOf(rules, b) && ValidStatus(s)
  {
    var checked := CheckStatus(StatusOf(rules, b));
    checked.value
  }

  /** The stored clock object coerced back into a `clock`. */
  function ClocksOut(clocks: Option<map<string, int>>): (r: Result<Option<Clock>, ApiError>)
    ensures clocks.None? ==> r == Ok(None)
    ensures clocks.Some? ==> (r.Ok? <==> ParseClock(clocks.value).Ok?)
    ensures clocks.Some? && r.Ok? ==> r.value == Some(ParseClock(clocks.value).value) && ValidClock(r.value.value)
  {
    match clocks
    case None => Ok(None)
    case Some(fields) =>
      match ParseClock(fields)
      case Ok(c) => Ok(Some(c))
      case Err(_) => Err(ServerError("ValidationError"))
  }

  /** A clock given at creation echoes back unchanged. */
  lemma ClocksEcho(sid: string, botId: string, initialFen: Option<string>, c: Option<Clock>)
    requires c.Some? ==> ValidClock(c.value)
    ensures ClocksOut(NewDoc(sid, botId, initialFen, ClockField(c)).clocks) == Ok(c)
  {
    if c.Some? {
      ClockRoundTrip(c.value);
    }
  }

  /** `payload.clocks.dict() if payload.clocks else None`. */
  function ClockField(c: Option<Clock>): (r: Option<map<string, int>>)
    ensures r.None? <==> c.None?
    ensures r.Some? ==> r.value.Keys == {"whiteMs", "blackMs", "incMs"}
    ensures r.Some? && ValidClock(c.value) ==> ParseClock(r.value) == Ok(c.value)
  {
    match c
    case None => None
    case Some(v) => ClockRoundTrip(v); Some(ClockDict(v))
  }

  /** `_session_out`: fails where rebuilding the board or reading the clocks fails. */
  function SessionOutOf(rules: Rules, d: Doc): (r: Result<SessionOut, ApiError>)
    ensures r.Ok? <==> Replay(rules, d.initialFen, d.moves).Ok? && ClocksOut(d.clocks).Ok?
    ensures r.Err? ==> r.error.ServerError?
    ensures r.Ok? ==>
      var b := Replay(rules, d.initialFen, d.moves).value;
      && r.value.sessionId == d.id && r.value.botId == d.botId
      && r.value.fen == rules.fen(b)
      && (r.value.turn == "w" <==> rules.whiteToMove(b)) && (r.value.turn == "w" || r.value.turn == "b")
      && r.value.pgn == rules.pgn(d.initialFen, d.moves)
      && r.value.status == StatusOf(rules, b)
      && r.value.clocks == ClocksOut(d.clocks).value
  {
    match Replay(rules, d.initialFen, d.moves)
    case Err(_) => Err(ServerError("ValueError"))
    case Ok(b) =>
      match ClocksOut(d.clocks)
      case Err(e) => Err(e)
      case Ok(c) => Ok(SessionOut(d.id, d.botId, rules.fen(b), TurnOf(rules, b), rules.pgn(d.initialFen, d.moves),
                                  StatusObj(rules, b), c))
  }

  /** The `moveOut` response built after the moves are stored. */
  function MoveOutOf(rules: Rules, d: Doc, user: MoveSide, bot: Option<MoveSide>): (r: Result<MoveOut, ApiError>)
    ensures r.Ok? <==> Replay(rules, d.initialFen, d.moves).Ok? && ClocksOut(d.clocks).Ok?
    ensures r.Err? ==> r.error.ServerError?
    ensures r.Ok? ==>
      var b := Replay(rules, d.initialFen, d.moves).value;
      && r.value.user == Some(user) && r.value.bot == bot
      && r.value.fen == rules.fen(b)
      && r.value.pgn == rules.pgn(d.initialFen, d.moves)
      && r.value.status == StatusOf(rules, b)
      && r.value.clocks == ClocksOut(d.clocks).value
  {
    match Replay(rules, d.initialFen, d.moves)
    case Err(_) => Err(ServerError("ValueError"))
    case Ok(b) =>
      match ClocksOut(d.clocks)
      case Err(e) => Err(e)
      case Ok(c) => Ok(MoveOut(Some(user), bot, rules.fen(b), rules.pgn(d.initialFen, d.moves), StatusObj(rules, b), c))
  }

  /** `POST /session`: rejects an unknown profile before storing anything; otherwise stores a
      new session and, when the human plays black, the engine's first move. */
  method CreateSession(store: SessionStore, rules: Rules, engine: Oracle, payload: NewSessionIn, sid: string)
    returns (r: Result<SessionOut, ApiError>)
    modifies store
    ensures payload.botId !in BotsId ==> r == Err(BadRequest("BotNotFound")) && store.data == old(store.data)
    ensures payload.botId in BotsId ==>
      var bot := BotsId[payload.botId];
      var d := NewDoc(sid, payload.botId, payload.initialFen, ClockField(payload.clocks));
      var start := Replay(rules, d.initialFen, []);
      if payload.color != "black" then
        store.data == old(store.data)[Key(sid) := d] && r == SessionOutOf(rules, d)
      else if start.Err? then
        store.data == old(store.data)[Key(sid) := d] && r == Err(ServerError("ValueError"))
      else match engine(start.value, bot)
        case None =>
          store.data == old(store.data)[Key(sid) := d] && r == Err(ServerError("RuntimeError"))
        case Some(m) =>
          if rules.legal(start.value, m) then
            store.data == old(store.data)[Key(sid) := d.(moves := [m])] && r == SessionOutOf(rules, d.(moves := [m]))
          else
            store.data == old(store.data)[Key(sid) := d] && r == Err(ServerError("ValueError"))
    ensures StoreReplayable(rules, old(store.data)) && Initial(rules, payload.initialFen).Ok? ==>
      StoreReplayable(rules, store.data)
  {
    if payload.botId !in BotsId {
      return Err(BadRequest("BotNotFound"));
    }
    ghost var data := store.data;
    var bot := BotsId[payload.botId];
    ghost var d := NewDoc(sid, payload.botId, payload.initialFen, ClockField(payload.clocks));
    var s := store.Create(bot.id, payload.initialFen, ClockField(payload.clocks), sid);
    NewDocStartsAsRequested(rules, sid, bot.id, payload.initialFen, ClockField(payload.clocks));
    assert s.doc == d && store.data == data[Key(sid) := d];
    if payload.color == "black" {
      var board := BuildBoard(rules, s.doc.initialFen, s.doc.moves);
      if board.Err? {
        return Err(ServerError("ValueError"));
      }
      var best := engine(board.value, bot);
      if best.None? {
        return Err(ServerError("RuntimeError"));
      }
      var pushed := s.PushMove(rules, best.value);
      if pushed.Err? {
        return Err(ServerError("ValueError"));
      }
      assert s.doc == d.(moves := [best.value]) && store.data == data[Key(sid) := d.(moves := [best.value])];
    }
    r := SessionOutOf(rules, s.doc);
  }

  /** `GET /session/{id}`. */
  method GetSession(store: SessionStore, rules: Rules, sessionId: string) returns (r: Result<SessionOut, ApiError>)
    ensures Key(sessionId) !in store.data ==> r == Err(NotFound("SessionNotFound"))
    ensures Key(sessionId) in store.data ==> r == SessionOutOf(rules, store.data[Key(sessionId)])
  {
    var got := store.Get(sessionId);
    if got.Err? {
      return Err(NotFound("SessionNotFound"));
    }
    r := SessionOutOf(rules, got.value.doc);
  }

  /** What `POST /move` leaves in the store and answers, given the store before it: the user's
      move is stored first, and the engine answers only while the game is not over. Nothing
      checks that the game was over before the user's move. Only the moves of the named
      session change. */
  function MoveOutcome(rules: Rules, engine: Oracle, data: map<string, Doc>, payload: MoveIn)
    : (o: (map<string, Doc>, Result<MoveOut, ApiError>))
    ensures o.0.Keys == data.Keys
    ensures forall k :: k in data && k != Key(payload.sessionId) ==> o.0[k] == data[k]
    ensures Key(payload.sessionId) in data ==>
      o.0[Key(payload.sessionId)] == data[Key(payload.sessionId)].(moves := o.0[Key(payload.sessionId)].moves)
  {
    var k := Key(payload.sessionId);
    if k !in data then (data, Err(NotFound("SessionNotFound")))
    else
      var d := data[k];
      var before := Replay(rules, d.initialFen, d.moves);
      if d.botId !in BotsId then (data, Err(ServerError("KeyError")))
      else if before.Err? || !rules.legal(before.value, payload.uci) then (data, Err(BadRequest("IllegalMove")))
      else
        var user := MoveSide(payload.uci, rules.san(before.value, payload.uci));
        var d1 := d.(moves := d.moves + [payload.uci]);
        var b1 := rules.push(before.value, payload.uci);
        if StatusOf(rules, b1).gameOver then (data[k := d1], MoveOutOf(rules, d1, user, None))
        else
          var e := EngineReply(rules, d1, b1, engine(b1, BotsId[d.botId]), user);
          (data[k := e.0], e.1)
  }

  /** The engine's half of `POST /move` on the document `d` whose board is `b`: no move is a
      RuntimeError, an illegal one a ValueError, both leaving the document as it is; a legal
      one is appended and reported with its SAN on `b`. */
  function EngineReply(rules: Rules, d: Doc, b: Board, best: Option<string>, user: MoveSide)
    : (o: (Doc, Result<MoveOut, ApiError>))
    ensures o.0 == d.(moves := o.0.moves)
    ensures o.0.moves == d.moves || (best.Some? && rules.legal(b, best.value) && o.0.moves == d.moves + [best.value])
    ensures best.None? ==> o == (d, Err(ServerError("RuntimeError")))
    ensures o.1.Ok? ==>
      && best.Some? && rules.legal(b, best.value) && o.0.moves == d.moves + [best.value]
      && o.1.value.bot == Some(MoveSide(best.value, rules.san(b, best.value)))
  {
    match best
    case None => (d, Err(ServerError("RuntimeError")))
    case Some(m) =>
      if rules.legal(b, m) then
        var d2 := d.(moves := d.moves + [m]);
        (d2, MoveOutOf(rules, d2, user, Some(MoveSide(m, rules.san(b, m)))))
      else (d, Err(ServerError("ValueError")))
  }

  /** A request rejected with 400 or 404 stores nothing. */
  lemma {:induction false} MoveRejectedStoresNothing(rules: Rules, engine: Oracle, data: map<string, Doc>, payload: MoveIn)
    ensures var o := MoveOutcome(rules, engine, data, payload);
      o.1.Err? && !o.1.error.ServerError? ==> o.0 == data
  {
    var k := Key(payload.sessionId);
    if k in data && data[k].botId in BotsId {
      var d := data[k];
      var before := Replay(rules, d.initialFen, d.moves);
      if before.Ok? && rules.legal(before.value, payload.uci) {
        ReplaySnoc(rules, d.initialFen, d.moves, payload.uci);
      }
    }
  }

  /** A successful answer reports the user's token, which is stored after the earlier moves;
      the engine's move follows it exactly when the answer reports one, and an answer without
      an engine move reports a finished game. */
  lemma {:induction false} MoveOutcomeReported(rules: Rules, engine: Oracle, data: map<string, Doc>, payload: MoveIn)
    ensures var o := MoveOutcome(rules, engine, data, payload);
      var k := Key(payload.sessionId);
      o.1.Ok? ==>
        && k in data
        && o.1.value.user.Some? && o.1.value.user.value.uci == payload.uci
        && (o.1.value.bot.None? ==> o.0[k].moves == data[k].moves + [payload.uci] && o.1.value.status.gameOver)
        && (o.1.value.bot.Some? ==> o.0[k].moves == data[k].moves + [payload.uci, o.1.value.bot.value.uci])
  {
    var k := Key(payload.sessionId);
    if k in data && data[k].botId in BotsId {
      var d := data[k];
      var before := Replay(rules, d.initialFen, d.moves);
      if before.Ok? && rules.legal(before.value, payload.uci) {
        ReplaySnoc(rules, d.initialFen, d.moves, payload.uci);
        var m := engine(rules.push(before.value, payload.uci), BotsId[d.botId]);
        if m.Some? {
          assert d.moves + [payload.uci] + [m.value] == d.moves + [payload.uci, m.value];
        }
      }
    }
  }

  /** The session's stored list only grows, by at most the two plies of one request. */
  lemma {:induction false} MoveOutcomeGrows(rules: Rules, engine: Oracle, data: map<string, Doc>, payload: MoveIn)
    ensures var o := MoveOutcome(rules, engine, data, payload);
      var k := Key(payload.sessionId);
      k in data ==> data[k].moves <= o.0[k].moves && |o.0[k].moves| <= |data[k].moves| + 2
  {
    var k := Key(payload.sessionId);
    if k in data && data[k].botId in BotsId {
      var d := data[k];
      var before := Replay(rules, d.initialFen, d.moves);
      if before.Ok? && rules.legal(before.value, payload.uci) {
        var m := engine(rules.push(before.value, payload.uci), BotsId[d.botId]);
        if m.Some? {
          assert d.moves <= d.moves + [payload.uci] + [m.value];
        }
      }
    }
  }

  /** The error answers of `POST /move`, each leaving the store as it was: an unknown session is
      404, a document naming an unknown profile a KeyError, and a token that is not legal on
      the stored board (or a stored board that does not replay) 400 "IllegalMove". */
  lemma MoveRejections(rules: Rules, engine: Oracle, data: map<string, Doc>, payload: MoveIn)
    ensures Key(payload.sessionId) !in data ==>
      MoveOutcome(rules, engine, data, payload) == (data, Err(NotFound("SessionNotFound")))
    ensures Key(payload.sessionId) in data && data[Key(payload.sessionId)].botId !in BotsId ==>
      MoveOutcome(rules, engine, data, payload) == (data, Err(ServerError("KeyError")))
    ensures var k := Key(payload.sessionId);
      k in data && data[k].botId in BotsId && (var before := Replay(rules, data[k].initialFen, data[k].moves);
        before.Err? || !rules.legal(before.value, payload.uci)) ==>
      MoveOutcome(rules, engine, data, payload) == (data, Err(BadRequest("IllegalMove")))
  {
  }

  /** After a legal user ply that ends the game, exactly that ply is stored and the answer
      reports no engine move. Otherwise the oracle's move, when legal, is stored after it and
      reported with its SAN on the board before it. In both cases the answer fails only where
      the stored clocks do not parse. */
  lemma {:induction false} EngineRepliesUnlessGameOver(rules: Rules, engine: Oracle, data: map<string, Doc>,
                                                      payload: MoveIn)
    requires Key(payload.sessionId) in data && data[Key(payload.sessionId)].botId in BotsId
    requires var d := data[Key(payload.sessionId)]; var before := Replay(rules, d.initialFen, d.moves);
      before.Ok? && rules.legal(before.value, payload.uci)
    ensures var k := Key(payload.sessionId); var d := data[k];
      var b := Replay(rules, d.initialFen, d.moves).value; var b1 := rules.push(b, payload.uci);
      var o := MoveOutcome(rules, engine, data, payload);
      StatusOf(rules, b1).gameOver ==>
        && o.0 == data[k := d.(moves := d.moves + [payload.uci])]
        && (o.1.Ok? <==> ClocksOut(d.clocks).Ok?)
        && (o.1.Ok? ==> o.1.value.user == Some(MoveSide(payload.uci, rules.san(b, payload.uci))) && o.1.value.bot.None?)
    ensures var k := Key(payload.sessionId); var d := data[k];
      var b := Replay(rules, d.initialFen, d.moves).value; var b1 := rules.push(b, payload.uci);
      var best := engine(b1, BotsId[d.botId]);
      var o := MoveOutcome(rules, engine, data, payload);
      !StatusOf(rules, b1).gameOver && best.Some? && rules.legal(b1, best.value) ==>
        && o.0 == data[k := d.(moves := d.moves + [payload.uci, best.value])]
        && (o.1.Ok? <==> ClocksOut(d.clocks).Ok?)
        && (o.1.Ok? ==>
              && o.1.value.user == Some(MoveSide(payload.uci, rules.san(b, payload.uci)))
              && o.1.value.bot == Some(MoveSide(best.value, rules.san(b1, best.value))))
  {
    var d := data[Key(payload.sessionId)];
    var b := Replay(rules, d.initialFen, d.moves).value;
    ReplaySnoc(rules, d.initialFen, d.moves, payload.uci);
    var best := engine(rules.push(b, payload.uci), BotsId[d.botId]);
    if best.Some? {
      ReplaySnoc(rules, d.initialFen, d.moves + [payload.uci], best.value);
      assert d.moves + [payload.uci] + [best.value] == d.moves + [payload.uci, best.value];
    }
  }

  /** A store whose every session replays still has that property after `POST /move`. */
  lemma {:induction false} MoveOutcomeKeepsReplayable(rules: Rules, engine: Oracle, data: map<string, Doc>, payload: MoveIn)
    requires StoreReplayable(rules, data)
    ensures StoreReplayable(rules, MoveOutcome(rules, engine, data, payload).0)
  {
    var k := Key(payload.sessionId);
    if k in data && data[k].botId in BotsId {
      var d := data[k];
      var before := Replay(rules, d.initialFen, d.moves);
      if rules.legal(before.value, payload.uci) {
        ReplaySnoc(rules, d.initialFen, d.moves, payload.uci);
        var b1 := rules.push(before.value, payload.uci);
        var m := engine(b1, BotsId[d.botId]);
        if m.Some? && rules.legal(b1, m.value) {
          ReplaySnoc(rules, d.initialFen, d.moves + [payload.uci], m.value);
        }
      }
    }
  }

  /** `POST /move`. */
  method MakeMove(store: SessionStore, rules: Rules, engine: Oracle, payload: MoveIn) returns (r: Result<MoveOut, ApiError>)
    modifies store
    ensures (store.data, r) == MoveOutcome(rules, engine, old(store.data), payload)
    ensures StoreReplayable(rules, old(store.data)) ==> StoreReplayable(rules, store.data)
  {
    ghost var data := store.data;
    ghost var k := Key(payload.sessionId);
    var got := store.Get(payload.sessionId);
    if got.Err? {
      return Err(NotFound("SessionNotFound"));
    }
    var s := got.value;
    ghost var d := s.doc;
    ghost var before := Replay(rules, d.initialFen, d.moves);
    if s.doc.botId !in BotsId {
      return Err(ServerError("KeyError"));
    }
    var bot := BotsId[s.doc.botId];
    var userSan := s.PushMove(rules, payload.uci);
    if userSan.Err? {
      assert before.Err? || !rules.legal(before.value, payload.uci);
      return Err(BadRequest("IllegalMove"));
    }
    assert before.Ok? && rules.legal(before.value, payload.uci);
    ghost var d1 := d.(moves := d.moves + [payload.uci]);
    ghost var b1 := rules.push(before.value, payload.uci);
    assert s.doc == d1 && store.data == data[k := d1];
    var user := MoveSide(payload.uci, userSan.value);
    var afterUser := BuildBoard(rules, s.doc.initialFen, s.doc.moves);
    assert afterUser == Ok(b1);
    var statusAfterUser := StatusOf(rules, afterUser.value);
    if statusAfterUser.gameOver {
      r := MoveOutOf(rules, s.doc, user, None);
      assert MoveOutcome(rules, engine, data, payload) == (data[k := d1], r);
    } else {
      r := BotReply(s, rules, engine, bot, user, afterUser.value);
      ghost var e := EngineReply(rules, d1, b1, engine(b1, bot), user);
      assert s.doc == e.0 && r == e.1 && store.data == data[k := e.0];
      assert MoveOutcome(rules, engine, data, payload) == (data[k := e.0], e.1);
    }
    if StoreReplayable(rules, data) {
      MoveOutcomeKeepsReplayable(rules, engine, data, payload);
    }
  }

  /** The engine's half of `POST /move`, on a session whose stored moves replay to `b`. */
  method BotReply(s: GameSession, rules: Rules, engine: Oracle, bot: BotConfig, user: MoveSide, b: Board)
    returns (r: Result<MoveOut, ApiError>)
    requires Replay(rules, s.doc.initialFen, s.doc.moves) == Ok(b)
    modifies s, s.store
    ensures (s.doc, r) == EngineReply(rules, old(s.doc), b, engine(b, bot), user)
    ensures s.doc == old(s.doc) ==> s.store.data == old(s.store.data)
    ensures s.doc != old(s.doc) ==> s.store.data == old(s.store.data)[s.key := s.doc]
  {
    var boardBeforeBot := BuildBoard(rules, s.doc.initialFen, s.doc.moves);
    var best := engine(boardBeforeBot.value, bot);
    if best.None? {
      return Err(ServerError("RuntimeError"));
    }
    var botSan := rules.san(boardBeforeBot.value, best.value);
    var pushed := s.PushMove(rules, best.value);
    if pushed.Err? {
      return Err(ServerError("ValueError"));
    }
    r := MoveOutOf(rules, s.doc, user, Some(MoveSide(best.value, botSan)));
  }

  /** A missing or empty session id in an untyped body. */
  predicate MissingId(sessionId: Option<string>) {
    sessionId.None? || sessionId.value == ""
  }

  /** `POST /undo`: takes back the last full move and reports the session. */
  method Undo(store: SessionStore, rules: Rules, sessionId: Option<string>) returns (r: Result<SessionOut, ApiError>)
    modifies store
    ensures MissingId(sessionId) ==> r == Err(BadRequest("Missing sessionId")) && store.data == old(store.data)
    ensures !MissingId(sessionId) && Key(sessionId.value) !in old(store.data) ==>
      r == Err(NotFound("SessionNotFound")) && store.data == old(store.data)
    ensures !MissingId(sessionId) && Key(sessionId.value) in old(store.data) ==>
      var k := Key(sessionId.value);
      var d := old(store.data)[k].(moves := FullmoveUndone(old(store.data)[k].moves));
      store.data == old(store.data)[k := d] && r == SessionOutOf(rules, d)
    ensures StoreReplayable(rules, old(store.data)) ==> StoreReplayable(rules, store.data)
  {
    if MissingId(sessionId) {
      return Err(BadRequest("Missing sessionId"));
    }
    var undone := store.UndoFullmove(sessionId.value);
    if undone.Err? {
      return Err(NotFound("SessionNotFound"));
    }
    if Key(sessionId.value) in old(store.data) {
      var d := old(store.data)[Key(sessionId.value)];
      if Replay(rules, d.initialFen, d.moves).Ok? {
        UndoKeepsReplayable(rules, d.initialFen, d.moves);
      }
    }
    r := SessionOutOf(rules, undone.value.doc);
  }

  /** The status `POST /resign` reports, whatever the position. */
  const ResignStatus: Status := Status(false, true, Some("black"), Some("resign"))

  /** The resignation status is a valid `Status` that no position yields. */
  lemma ResignStatusNotDerived(rules: Rules, b: Board)
    ensures ValidStatus(ResignStatus)
    ensures StatusOf(rules, b) != ResignStatus
  {
  }

  /** `POST /resign`: checks that the session exists and answers a fixed resignation status;
      it writes nothing (it has no `modifies` clause). */
  method Resign(store: SessionStore, sessionId: Option<string>) returns (r: Result<ResignOut, ApiError>)
    ensures MissingId(sessionId) ==> r == Err(BadRequest("Missing sessionId"))
    ensures !MissingId(sessionId) && Key(sessionId.value) !in store.data ==> r == Err(NotFound("SessionNotFound"))
    ensures !MissingId(sessionId) && Key(sessionId.value) in store.data ==>
      r == Ok(ResignOut(sessionId.value, ResignStatus))
  {
    if MissingId(sessionId) {
      return Err(BadRequest("Missing sessionId"));
    }
    var got := store.Resign(sessionId.value, "black");
    if got.Err? {
      return Err(NotFound("SessionNotFound"));
    }
    r := Ok(ResignOut(sessionId.value, ResignStatus));
  }

  /** `GET /pgn/{id}`: the transcript is built from a board set up from the stored FEN, so a
      FEN the library rejects raises a ValueError. */
  method ExportPgn(store: SessionStore, rules: Rules, sessionId: string) returns (r: Result<string, ApiError>)
    ensures Key(sessionId) !in store.data ==> r == Err(NotFound("SessionNotFound"))
    ensures Key(sessionId) in store.data && Initial(rules, store.data[Key(sessionId)].initialFen).Err? ==>
      r == Err(ServerError("ValueError"))
    ensures Key(sessionId) in store.data && Initial(rules, store.data[Key(sessionId)].initialFen).Ok? ==>
      r == Ok(rules.pgn(store.data[Key(sessionId)].initialFen, store.data[Key(sessionId)].moves))
  {
    var got := store.Get(sessionId);
    if got.Err? {
      return Err(NotFound("SessionNotFound"));
    }
    var d := got.value.doc;
    if Initial(rules, d.initialFen).Err? {
      return Err(ServerError("ValueError"));
    }
    r := Ok(rules.pgn(d.initialFen, d.moves));
  }
}
