/** Game sessions and their store (server/sessions.py). A session is a document holding the
    move list; the board and the status are never stored but rebuilt from the move list on
    every read. The key-value store is a map from key to document (its JSON encoding is taken
    to round-trip). */
module Sessions {
  import opened Options
  import opened Chess
  import opened Schemas

  /** The persisted document of one session. `initialFen` is `None` only in a document not
      written by `SessionStore.Create`; `clocks` is the clock's JSON object. */
  datatype Doc = Doc(
    id: string,
    botId: string,
    initialFen: Option<string>,
    moves: seq<string>,
    clocks: Option<map<string, int>>)

  /** `KeyError("SessionNotFound")`, `ValueError("IllegalMove")`, and the two ValueErrors a
      replay can raise: a FEN the library rejects, or a stored move illegal where it stands. */
  datatype SessionError = SessionNotFound | IllegalMove | InvalidFen(fen: string) | IllegalStoredMove(index: nat)

  const StartPos: string := "startpos"
  const Prefix: string := "sess:"

  /** `_key`: the store key of a session id. */
  function Key(sessionId: string): (k: string)
    ensures |k| == |Prefix| + |sessionId|
    ensures k[..|Prefix|] == Prefix && k[|Prefix|..] == sessionId
  {
    Prefix + sessionId
  }

  /** Two sessions never share a store key. */
  lemma KeyInjective(a: string, b: string)
    ensures Key(a) == Key(b) ==> a == b
  {
    if Key(a) == Key(b) {
      assert a == Key(a)[|Prefix|..];
    }
  }

  /** The descriptors that stand for the standard start: absent, empty, or "startpos". */
  predicate IsStartPos(fen: Option<string>) {
    fen.None? || fen.value == "" || fen.value == StartPos
  }

  /** The board a replay starts from. */
  function Initial(rules: Rules, fen: Option<string>): (r: Result<Board, SessionError>)
    ensures IsStartPos(fen) ==> r == Ok(rules.start)
    ensures !IsStartPos(fen) ==> (r.Ok? <==> rules.parseFen(fen.value).Some?)
    ensures !IsStartPos(fen) && r.Ok? ==> r.value == rules.parseFen(fen.value).value
    ensures r.Err? ==> r == Err(InvalidFen(fen.value))
  {
    if IsStartPos(fen) then Ok(rules.start)
    else match rules.parseFen(fen.value)
      case Some(b) => Ok(b)
      case None => Err(InvalidFen(fen.value))
  }

  /** `_build_board` as a fold: the board reached by pushing the moves one by one onto the
      starting board, or the error of the first move that is not legal where it stands. */
  function Replay(rules: Rules, fen: Option<string>, moves: seq<string>): (r: Result<Board, SessionError>)
    ensures r.Err? ==> r.error.InvalidFen? || (r.error.IllegalStoredMove? && r.error.index < |moves|)
    decreases |moves|
  {
    if moves == [] then Initial(rules, fen)
    else
      var n := |moves| - 1;
      match Replay(rules, fen, moves[..n])
      case Err(e) => Err(e)
      case Ok(b) => if rules.legal(b, moves[n]) then Ok(rules.push(b, moves[n])) else Err(IllegalStoredMove(n))
  }

  /** An empty move list replays to the standard start for a start descriptor and to the
      parsed FEN otherwise. */
  lemma ReplayEmpty(rules: Rules, fen: Option<string>)
    ensures IsStartPos(fen) ==> Replay(rules, fen, []) == Ok(rules.start)
    ensures !IsStartPos(fen) ==>
      Replay(rules, fen, []) == if rules.parseFen(fen.value).Some? then Ok(rules.parseFen(fen.value).value)
                                else Err(InvalidFen(fen.value))
  {
  }

  /** Appending a move extends the replay by exactly one push of that move, when it is legal in
      the position reached so far. */
  lemma ReplaySnoc(rules: Rules, fen: Option<string>, moves: seq<string>, m: string)
    ensures Replay(rules, fen, moves).Ok? && rules.legal(Replay(rules, fen, moves).value, m) ==>
      Replay(rules, fen, moves + [m]) == Ok(rules.push(Replay(rules, fen, moves).value, m))
    ensures Replay(rules, fen, moves).Ok? && !rules.legal(Replay(rules, fen, moves).value, m) ==>
      Replay(rules, fen, moves + [m]) == Err(IllegalStoredMove(|moves|))
    ensures Replay(rules, fen, moves).Err? ==> Replay(rules, fen, moves + [m]) == Replay(rules, fen, moves)
  {
    assert (moves + [m])[..|moves|] == moves;
  }

  /** Move `i` of the list is legal in the position its predecessors reach. */
  ghost predicate LegalAt(rules: Rules, fen: Option<string>, moves: seq<string>, i: nat)
    requires i < |moves|
  {
    var p := Replay(rules, fen, moves[..i]);
    p.Ok? && rules.legal(p.value, moves[i])
  }

  /** A replay succeeds exactly when the starting board is accepted and every stored move is
      legal in the position reached by the moves before it. */
  lemma {:induction false} ReplayOkIff(rules: Rules, fen: Option<string>, moves: seq<string>)
    ensures Replay(rules, fen, moves).Ok? <==>
      Initial(rules, fen).Ok? && forall i :: 0 <= i < |moves| ==> LegalAt(rules, fen, moves, i)
    decreases |moves|
  {
    if moves != [] {
      var n := |moves| - 1;
      var pre := moves[..n];
      ReplayOkIff(rules, fen, pre);
      assert forall i :: 0 <= i < n ==> pre[..i] == moves[..i] && pre[i] == moves[i];
      assert forall i :: 0 <= i < n ==> (LegalAt(rules, fen, pre, i) <==> LegalAt(rules, fen, moves, i));
      if Replay(rules, fen, moves).Ok? {
        assert LegalAt(rules, fen, moves, n);
      } else if Initial(rules, fen).Ok? && forall i :: 0 <= i < n ==> LegalAt(rules, fen, moves, i) {
        assert Replay(rules, fen, pre).Ok?;
        assert !LegalAt(rules, fen, moves, n);
      }
    }
  }

  /** Once a prefix fails to replay, the whole list fails with the same error. */
  lemma {:induction false} ReplayStopsAtFailure(rules: Rules, fen: Option<string>, moves: seq<string>, i: nat)
    requires i <= |moves|
    requires Replay(rules, fen, moves[..i]).Err?
    ensures Replay(rules, fen, moves) == Replay(rules, fen, moves[..i])
    decreases |moves| - i
  {
    if i < |moves| {
      ReplaySnoc(rules, fen, moves[..i], moves[i]);
      assert moves[..i] + [moves[i]] == moves[..i + 1];
      ReplayStopsAtFailure(rules, fen, moves, i + 1);
    } else {
      assert moves[..i] == moves;
    }
  }

  /** A replay that succeeds succeeds on every prefix too. */
  lemma {:induction false} ReplayPrefixOk(rules: Rules, fen: Option<string>, moves: seq<string>, i: nat)
    requires i <= |moves|
    requires Replay(rules, fen, moves).Ok?
    ensures Replay(rules, fen, moves[..i]).Ok?
  {
    if Replay(rules, fen, moves[..i]).Err? {
      ReplayStopsAtFailure(rules, fen, moves, i);
    }
  }

  /** The error of a failed replay names the first stored move that is illegal where it
      stands: every move before it is legal, and it is not. */
  lemma ReplayFirstIllegal(rules: Rules, fen: Option<string>, moves: seq<string>)
    requires Replay(rules, fen, moves).Err? && Replay(rules, fen, moves).error.IllegalStoredMove?
    ensures var k := Replay(rules, fen, moves).error.index;
      && k < |moves|
      && Replay(rules, fen, moves[..k]).Ok?
      && !rules.legal(Replay(rules, fen, moves[..k]).value, moves[k])
      && forall i :: 0 <= i < k ==> LegalAt(rules, fen, moves, i)
  {
    var k := Replay(rules, fen, moves).error.index;
    FirstIllegalAt(rules, fen, moves, k);
    ReplayOkIff(rules, fen, moves[..k]);
    assert forall i :: 0 <= i < k ==> moves[..k][..i] == moves[..i] && moves[..k][i] == moves[i];
    assert forall i :: 0 <= i < k ==> (LegalAt(rules, fen, moves[..k], i) <==> LegalAt(rules, fen, moves, i));
  }

  /** A replay that fails with a stored-move index fails at that move: the moves before it
      replay, and the move itself is not legal on the board they reach. */
  lemma {:induction false} FirstIllegalAt(rules: Rules, fen: Option<string>, moves: seq<string>, k: nat)
    requires Replay(rules, fen, moves) == Err(IllegalStoredMove(k))
    ensures k < |moves| && Replay(rules, fen, moves[..k]).Ok? && !rules.legal(Replay(rules, fen, moves[..k]).value, moves[k])
    decreases |moves|
  {
    var n := |moves| - 1;
    if Replay(rules, fen, moves[..n]).Err? {
      FirstIllegalAt(rules, fen, moves[..n], k);
      assert moves[..n][..k] == moves[..k] && moves[..n][k] == moves[k];
    }
  }

  /** `_build_board`: starts from the standard or the parsed board and pushes the stored moves
      in order, stopping at the first one that is not legal. */
  method BuildBoard(rules: Rules, fen: Option<string>, moves: seq<string>) returns (r: Result<Board, SessionError>)
    ensures r == Replay(rules, fen, moves)
  {
    var start := Initial(rules, fen);
    if start.Err? {
      ReplayStopsAtFailure(rules, fen, moves, 0);
      return start;
    }
    var board := start.value;
    var i := 0;
    while i < |moves|
      invariant 0 <= i <= |moves|
      invariant Replay(rules, fen, moves[..i]) == Ok(board)
    {
      var u := moves[i];
      ReplaySnoc(rules, fen, moves[..i], u);
      assert moves[..i] + [u] == moves[..i + 1];
      if !rules.legal(board, u) {
        ReplayStopsAtFailure(rules, fen, moves, i + 1);
        return Err(IllegalStoredMove(i));
      }
      board := rules.push(board, u);
      i := i + 1;
    }
    assert moves[..i] == moves;
    return Ok(board);
  }

  /** `gameSession.status()`: the first of checkmate, stalemate, fifty moves and threefold
      repetition that holds decides the verdict; `inCheck` is read independently. */
  function StatusOf(rules: Rules, b: Board): (st: Status)
    ensures st.inCheck == rules.isCheck(b)
    ensures st.gameOver <==> st.winner.Some?
    ensures st.reason.None? <==> st.winner.None?
    ensures st.gameOver <==>
      rules.isCheckmate(b) || rules.isStalemate(b) || rules.isFiftyMoves(b) || rules.canClaimThreefold(b)
    ensures st.reason == Some("checkmate") <==> rules.isCheckmate(b)
    ensures st.reason == Some("stalemate") <==> !rules.isCheckmate(b) && rules.isStalemate(b)
    ensures st.reason == Some("50move") <==>
      !rules.isCheckmate(b) && !rules.isStalemate(b) && rules.isFiftyMoves(b)
    ensures st.reason == Some("threefold") <==>
      !rules.isCheckmate(b) && !rules.isStalemate(b) && !rules.isFiftyMoves(b) && rules.canClaimThreefold(b)
    ensures rules.isCheckmate(b) ==> st.winner == Some(if rules.whiteToMove(b) then "black" else "white")
    ensures st.winner == Some("draw") <==> st.gameOver && !rules.isCheckmate(b)
    ensures st.reason != Some("resign") && st.reason != Some("timeout")
    ensures ValidStatus(st)
  {
    var verdict :=
      if rules.isCheckmate(b) then
        (Some(if !rules.whiteToMove(b) then "white" else "black"), Some("checkmate"))
      else if rules.isStalemate(b) then (Some("draw"), Some("stalemate"))
      else if rules.isFiftyMoves(b) then (Some("draw"), Some("50move"))
      else if rules.canClaimThreefold(b) then (Some("draw"), Some("threefold"))
      else (None, None);
    Status(rules.isCheck(b), verdict.0.Some?, verdict.0, verdict.1)
  }

  /** `sessionStore.create`'s document: no moves yet, "startpos" when no FEN is given, and no
      clocks when the given ones are empty. */
  function NewDoc(sid: string, botId: string, initialFen: Option<string>, clocks: Option<map<string, int>>): (d: Doc)
    ensures d.id == sid && d.botId == botId && d.moves == []
    ensures d.initialFen == if IsStartPos(initialFen) then Some(StartPos) else initialFen
    ensures d.clocks.Some? ==> d.clocks == clocks && d.clocks.value != map[]
    ensures clocks.Some? && clocks.value != map[] ==> d.clocks == clocks
  {
    Doc(sid, botId,
        Some(if initialFen.Some? && initialFen.value != "" then initialFen.value else StartPos),
        [],
        if clocks.None? || clocks.value == map[] then None else clocks)
  }

  /** Defaulting the FEN to "startpos" does not change where the new game starts. */
  lemma NewDocStartsAsRequested(rules: Rules, sid: string, botId: string, initialFen: Option<string>,
                                clocks: Option<map<string, int>>)
    ensures var d := NewDoc(sid, botId, initialFen, clocks); Replay(rules, d.initialFen, d.moves) == Initial(rules, initialFen)
  {
  }

  /** The move list `undo_fullmove` leaves: the last two plies removed, or all of them if fewer
      than two are stored. */
  function FullmoveUndone(moves: seq<string>): (r: seq<string>)
    ensures |r| == if |moves| < 2 then 0 else |moves| - 2
    ensures r <= moves
  {
    if |moves| < 2 then [] else moves[..|moves| - 2]
  }

  /** Undoing on an empty history keeps it empty; undoing after a user ply and a bot ply
      restores the list from before them. */
  lemma FullmoveUndoneInverse(moves: seq<string>, user: string, bot: string)
    ensures FullmoveUndone([]) == [] && FullmoveUndone(FullmoveUndone([])) == []
    ensures FullmoveUndone(moves + [user, bot]) == moves
  {
    assert (moves + [user, bot])[..|moves|] == moves;
  }

  /** An undo never breaks a replayable history. */
  lemma UndoKeepsReplayable(rules: Rules, fen: Option<string>, moves: seq<string>)
    requires Replay(rules, fen, moves).Ok?
    ensures Replay(rules, fen, FullmoveUndone(moves)).Ok?
  {
    var n := |FullmoveUndone(moves)|;
    assert FullmoveUndone(moves) == moves[..n];
    ReplayPrefixOk(rules, fen, moves, n);
  }

  /** Every stored document replays without error. */
  ghost predicate StoreReplayable(rules: Rules, data: map<string, Doc>) {
    forall k :: k in data ==> Replay(rules, data[k].initialFen, data[k].moves).Ok?
  }

  /** A session object: a document loaded from the store, written back by `Persist`. */
  class GameSession {
    const store: SessionStore
    const key: string
    var doc: Doc

    constructor (store: SessionStore, key: string, doc: Doc)
      ensures this.store == store && this.key == key && this.doc == doc
    {
      this.store := store;
      this.key := key;
      this.doc := doc;
    }

    /** `_persist`: writes the whole document under the session's key. */
    method Persist()
      modifies store
      ensures store.data == old(store.data)[key := doc]
    {
      store.data := store.data[key := doc];
    }

    /** `push_move`: rebuilds the board; an illegal token raises "IllegalMove" and changes
        nothing; a legal one is appended at the end, persisted, and its SAN on the board before
        the move is returned. A failed replay raises its own error. */
    method PushMove(rules: Rules, token: string) returns (r: Result<string, SessionError>)
      modifies this, store
      ensures var before := Replay(rules, old(doc).initialFen, old(doc).moves);
        if before.Ok? && rules.legal(before.value, token) then
          && r == Ok(rules.san(before.value, token))
          && doc == old(doc).(moves := old(doc).moves + [token])
          && store.data == old(store.data)[key := doc]
          && Replay(rules, doc.initialFen, doc.moves) == Ok(rules.push(before.value, token))
        else
          && r == Err(if before.Err? then before.error else IllegalMove)
          && doc == old(doc)
          && store.data == old(store.data)
    {
      var board := BuildBoard(rules, doc.initialFen, doc.moves);
      if board.Err? {
        return Err(board.error);
      }
      if !rules.legal(board.value, token) {
        return Err(IllegalMove);
      }
      var san := rules.san(board.value, token);
      ReplaySnoc(rules, doc.initialFen, doc.moves, token);
      doc := doc.(moves := doc.moves + [token]);
      Persist();
      return Ok(san);
    }
  }

  /** `sessionStore`: the key-value store of session documents. */
  class SessionStore {
    var data: map<string, Doc>

    constructor ()
      ensures data == map[]
    {
      data := map[];
    }

    /** `create`: stores a new document under "sess:" + `sid` (the fresh id the store would
        draw) and returns a session holding the same document. */
    method Create(botId: string, initialFen: Option<string>, clocks: Option<map<string, int>>, sid: string)
      returns (s: GameSession)
      modifies this
      ensures fresh(s) && s.store == this && s.key == Key(sid)
      ensures s.doc == NewDoc(sid, botId, initialFen, clocks)
      ensures data == old(data)[Key(sid) := s.doc]
    {
      var doc := NewDoc(sid, botId, initialFen, clocks);
      data := data[Key(sid) := doc];
      s := new GameSession(this, Key(sid), doc);
    }

    /** `get`: the stored document under the session's key, or "SessionNotFound". */
    method Get(sessionId: string) returns (r: Result<GameSession, SessionError>)
      ensures r.Ok? <==> Key(sessionId) in data
      ensures r.Ok? ==> fresh(r.value) && r.value.store == this && r.value.key == Key(sessionId)
                        && r.value.doc == data[Key(sessionId)]
      ensures r.Err? ==> r.error == SessionNotFound
    {
      if Key(sessionId) !in data {
        return Err(SessionNotFound);
      }
      var s := new GameSession(this, Key(sessionId), data[Key(sessionId)]);
      return Ok(s);
    }

    /** `resign`: only a `get`; the winner is ignored and nothing is written. */
    method Resign(sessionId: string, winner: string) returns (r: Result<GameSession, SessionError>)
      ensures r.Ok? <==> Key(sessionId) in data
      ensures r.Ok? ==> fresh(r.value) && r.value.store == this && r.value.key == Key(sessionId)
                        && r.value.doc == data[Key(sessionId)]
      ensures r.Err? ==> r.error == SessionNotFound
    {
      r := Get(sessionId);
    }

    /** `undo_fullmove`: pops the last move twice, each time only if one is left, and persists
        the document even when nothing was removed. */
    method UndoFullmove(sessionId: string) returns (r: Result<GameSession, SessionError>)
      modifies this
      ensures Key(sessionId) !in old(data) ==> r == Err(SessionNotFound) && data == old(data)
      ensures Key(sessionId) in old(data) ==>
        var d := old(data)[Key(sessionId)];
        && data == old(data)[Key(sessionId) := d.(moves := FullmoveUndone(d.moves))]
        && r.Ok? && fresh(r.value) && r.value.store == this && r.value.key == Key(sessionId)
        && r.value.doc == data[Key(sessionId)]
    {
      r := Get(sessionId);
      if r.Err? {
        return;
      }
      var s := r.value;
      var mv := s.doc.moves;
      if |mv| > 0 { mv := mv[..|mv| - 1]; }
      if |mv| > 0 { mv := mv[..|mv| - 1]; }
      assert mv == FullmoveUndone(s.doc.moves);
      s.doc := s.doc.(moves := mv);
      s.Persist();
    }
  }
}
