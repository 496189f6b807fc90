/**
 * The game-import handler of backend/game/create/main.go: request checks,
 * dispatch on the import type, per-chapter parsing in `getGames`, and the
 * choice of response.
 *
 * The Lichess fetchers, the PGN parser `game.GetGame`, the user lookup and
 * the batch write are oracles passed in as parameters. JSON decoding of the
 * body is an oracle too: the body arrives decoded, or as the decoding error.
 * `RecordGameCreation` is best effort and cannot change the response, so it
 * is not modelled.
 */
module GameCreate {
  import opened Wrappers
  import opened Strings

  datatype ImportType = LichessChapter | LichessStudy | Manual | OtherType(name: string)

  /** The parsed header fields of a PGN; their contents belong to the parser. */
  datatype HeaderData = HeaderData(fields: map<string, string>)

  datatype Game = Game(id: string, headers: map<string, string>)

  /** An `*errors.Error` with its status and public message, or any other error. */
  datatype Error = ApiError(status: int, publicMessage: string) | OtherError(message: string)

  datatype CreateGameRequest = CreateGameRequest(
    importType: ImportType,
    url: string,
    pgnText: string,
    headers: seq<Option<HeaderData>>,
    orientation: string)

  datatype Response =
    | ErrorResponse(error: Error)
    | HeadersResponse(headers: seq<Option<HeaderData>>, count: int)  // games that need header data
    | GameResponse(game: Game)                                       // the first game created
    | CountResponse(count: int)                                      // the number of games a study created

  /** What `game.GetGame` answers: a game (nil when data is missing) and its header data, or an error. */
  type GameAnswer = Result<(Option<Game>, Option<HeaderData>), Error>

  const UnmarshalError: Error := ApiError(400, "Invalid request: body cannot be unmarshaled")
  const OrientationError: Error := ApiError(400, "Invalid request: orientation must be `white` or `black`")
  const NoGamesError: Error := ApiError(400, "Invalid request: no games found")

  function UnsupportedTypeError(name: string): Error {
    ApiError(400, "Invalid request: type `" + name + "` not supported")
  }

  predicate ValidOrientation(orientation: string) {
    orientation == "white" || orientation == "black"
  }

  /**
   * The PGN texts to import, by type: a chapter's one PGN, a study's list,
   * the request's own text, or the unsupported-type error. A study that
   * answers with a nil list is read as the one empty text.
   */
  function PgnTexts(req: CreateGameRequest, chapter: string -> Result<string, Error>,
                    study: string -> Result<Option<seq<string>>, Error>): (r: Result<seq<string>, Error>)
    ensures req.importType == LichessChapter ==>
              r == (if chapter(req.url).Success? then Success([chapter(req.url).value]) else Failure(chapter(req.url).error))
    ensures req.importType == LichessStudy && study(req.url).Failure? ==> r == Failure(study(req.url).error)
    ensures req.importType == LichessStudy && study(req.url).Success? ==>
              r == Success(study(req.url).value.GetOr([""]))
    ensures req.importType == Manual ==> r == Success([req.pgnText])
    ensures req.importType.OtherType? ==> r == Failure(UnsupportedTypeError(req.importType.name))
  {
    match req.importType
    case LichessChapter =>
      (match chapter(req.url)
       case Success(pgn) => Success([pgn])
       case Failure(e) => Failure(e))
    case LichessStudy =>
      (match study(req.url)
       case Success(pgns) => Success(pgns.GetOr([""]))
       case Failure(e) => Failure(e))
    case Manual => Success([req.pgnText])
    case OtherType(name) => Failure(UnsupportedTypeError(name))
  }

  /** The request header for chapter i, nil when the request has fewer headers. */
  function HeaderAt(reqHeaders: seq<Option<HeaderData>>, i: nat): (h: Option<HeaderData>)
    ensures i < |reqHeaders| ==> h == reqHeaders[i]
    ensures i >= |reqHeaders| ==> h == None
  {
    if |reqHeaders| > i then reqHeaders[i] else None
  }

  /** The error for a chapter that fails to parse: an `*errors.Error` is re-issued as a 400 naming the chapter. */
  function ChapterError(i: nat, e: Error): (r: Error)
    ensures e.ApiError? ==> r == ApiError(400, "Failed to read chapter " + NatToString(i + 1) + ": " + e.publicMessage)
    ensures e.OtherError? ==> r == e
  {
    match e
    case ApiError(_, msg) => ApiError(400, "Failed to read chapter " + NatToString(i + 1) + ": " + msg)
    case OtherError(_) => e
  }

  /** The same API error in two different chapters is reported with two different messages. */
  lemma ChapterErrorsNameTheChapter(i: nat, j: nat, e: Error)
    requires i != j && e.ApiError?
    ensures ChapterError(i, e) != ChapterError(j, e)
  {
    var p := "Failed to read chapter ";
    if ChapterError(i, e) == ChapterError(j, e) {
      var a := p + NatToString(i + 1) + ": " + e.publicMessage;
      var b := p + NatToString(j + 1) + ": " + e.publicMessage;
      assert a == b;
      ColonTailInjective(p, NatToString(i + 1), NatToString(j + 1), e.publicMessage);
      NatToStringInjective(i + 1, j + 1);
    }
  }

  /** Equal messages built around two numerals carry the same numeral. */
  lemma ColonTailInjective(p: string, x: string, y: string, msg: string)
    requires p + x + ": " + msg == p + y + ": " + msg
    ensures x == y
  {
    var a := p + x + ": " + msg;
    var b := p + y + ": " + msg;
    assert |x| == |y|;
    assert x == a[|p|..|p| + |x|];
    assert y == b[|p|..|p| + |y|];
  }

  /** What `getGames` returns on success: every game, or, when any game lacks data, every chapter's header data. */
  datatype Parsed = Games(games: seq<Game>) | MissingData(headers: seq<Option<HeaderData>>)

  /**
   * `getGames`. Chapter i is parsed with the i-th request header when there
   * is one; the first chapter that fails ends the loop with its error.
   */
  method GetGames<U>(user: U, pgnTexts: seq<string>, reqHeaders: seq<Option<HeaderData>>, orientation: string,
                     getGame: (U, string, Option<HeaderData>, string) -> GameAnswer)
    returns (r: Result<Parsed, Error>)
    ensures r.Failure? ==>
              exists j :: 0 <= j < |pgnTexts|
                && (forall i :: 0 <= i < j ==> getGame(user, pgnTexts[i], HeaderAt(reqHeaders, i), orientation).Success?)
                && getGame(user, pgnTexts[j], HeaderAt(reqHeaders, j), orientation).Failure?
                && r.error == ChapterError(j, getGame(user, pgnTexts[j], HeaderAt(reqHeaders, j), orientation).error)
    ensures r.Success? <==>
              forall i :: 0 <= i < |pgnTexts| ==> getGame(user, pgnTexts[i], HeaderAt(reqHeaders, i), orientation).Success?
    ensures r.Success? && r.value.MissingData? ==>
              && |r.value.headers| == |pgnTexts|
              && (forall i :: 0 <= i < |pgnTexts| ==>
                    r.value.headers[i] == getGame(user, pgnTexts[i], HeaderAt(reqHeaders, i), orientation).value.1)
              && (exists i :: 0 <= i < |pgnTexts| && getGame(user, pgnTexts[i], HeaderAt(reqHeaders, i), orientation).value.0.None?)
    ensures r.Success? && r.value.Games? ==>
              && |r.value.games| == |pgnTexts|
              && (forall i :: 0 <= i < |pgnTexts| ==>
                    getGame(user, pgnTexts[i], HeaderAt(reqHeaders, i), orientation).value.0 == Some(r.value.games[i]))
  {
    var games: seq<Game> := [];
    var headerDatas: seq<Option<HeaderData>> := [];
    var missing: Option<nat> := None;
    for i := 0 to |pgnTexts|
      invariant |headerDatas| == i
      invariant forall k :: 0 <= k < i ==> getGame(user, pgnTexts[k], HeaderAt(reqHeaders, k), orientation).Success?
      invariant forall k :: 0 <= k < i ==>
                  headerDatas[k] == getGame(user, pgnTexts[k], HeaderAt(reqHeaders, k), orientation).value.1
      invariant missing.None? ==> |games| == i
      invariant missing.None? ==> forall k :: 0 <= k < i ==>
                  getGame(user, pgnTexts[k], HeaderAt(reqHeaders, k), orientation).value.0 == Some(games[k])
      invariant missing.Some? ==>
                  missing.value < i
                  && getGame(user, pgnTexts[missing.value], HeaderAt(reqHeaders, missing.value), orientation).value.0.None?
    {
      var answer := getGame(user, pgnTexts[i], HeaderAt(reqHeaders, i), orientation);
      if answer.Failure? {
        return Failure(ChapterError(i, answer.error));
      }
      var (g, headerData) := answer.value;
      match g {
        case None =>
          if missing.None? {
            missing := Some(i);
          }
        case Some(game) =>
          games := games + [game];
      }
      headerDatas := headerDatas + [headerData];
    }
    if missing.Some? {
      return Success(MissingData(headerDatas));
    }
    return Success(Games(games));
  }

  /** Chapter j is the first chapter `getGame` rejects. */
  predicate FirstFailing<U>(user: U, pgnTexts: seq<string>, reqHeaders: seq<Option<HeaderData>>, orientation: string,
                            getGame: (U, string, Option<HeaderData>, string) -> GameAnswer, j: int)
  {
    && 0 <= j < |pgnTexts|
    && (forall i :: 0 <= i < j ==> getGame(user, pgnTexts[i], HeaderAt(reqHeaders, i), orientation).Success?)
    && getGame(user, pgnTexts[j], HeaderAt(reqHeaders, j), orientation).Failure?
  }

  /** Every chapter parses to a game, and `games` lists those games in chapter order. */
  predicate ParsesTo<U>(user: U, pgnTexts: seq<string>, reqHeaders: seq<Option<HeaderData>>, orientation: string,
                        getGame: (U, string, Option<HeaderData>, string) -> GameAnswer, games: seq<Game>)
  {
    && |games| == |pgnTexts|
    && forall i :: 0 <= i < |pgnTexts| ==>
         getGame(user, pgnTexts[i], HeaderAt(reqHeaders, i), orientation).Success?
         && getGame(user, pgnTexts[i], HeaderAt(reqHeaders, i), orientation).value.0 == Some(games[i])
  }

  /** Every chapter parses, and at least one of them yields header data but no game. */
  predicate LacksData<U>(user: U, pgnTexts: seq<string>, reqHeaders: seq<Option<HeaderData>>, orientation: string,
                         getGame: (U, string, Option<HeaderData>, string) -> GameAnswer)
  {
    && (forall i :: 0 <= i < |pgnTexts| ==> getGame(user, pgnTexts[i], HeaderAt(reqHeaders, i), orientation).Success?)
    && (exists i :: 0 <= i < |pgnTexts| && getGame(user, pgnTexts[i], HeaderAt(reqHeaders, i), orientation).value.0.None?)
  }

  /** The request passed every check before parsing: it decoded, its orientation is valid, its PGNs loaded and the user exists. */
  predicate Admitted<U>(body: Result<CreateGameRequest, string>, chapter: string -> Result<string, Error>,
                        study: string -> Result<Option<seq<string>>, Error>, getUser: Result<U, Error>)
  {
    body.Success? && ValidOrientation(body.value.orientation) && PgnTexts(body.value, chapter, study).Success?
    && getUser.Success?
  }

  /**
   * `Handler`. Checks run in order: the body decodes, the orientation is
   * exactly "white" or "black", the type is supported and its PGNs load,
   * the user exists, every chapter parses; then header data goes back to
   * the caller, or the games are written and the first game (chapter and
   * manual imports) or the number written (studies) is returned.
   */
  method Handler<U>(body: Result<CreateGameRequest, string>,
                    chapter: string -> Result<string, Error>,
                    study: string -> Result<Option<seq<string>>, Error>,
                    getUser: Result<U, Error>,
                    getGame: (U, string, Option<HeaderData>, string) -> GameAnswer,
                    batchPutGames: seq<Game> -> Result<int, Error>)
    returns (resp: Response)
    ensures body.Failure? ==> resp == ErrorResponse(UnmarshalError)
    ensures body.Success? && !ValidOrientation(body.value.orientation) ==> resp == ErrorResponse(OrientationError)
    ensures body.Success? && ValidOrientation(body.value.orientation) && PgnTexts(body.value, chapter, study).Failure? ==>
              resp == ErrorResponse(PgnTexts(body.value, chapter, study).error)
    ensures (body.Success? && ValidOrientation(body.value.orientation) && PgnTexts(body.value, chapter, study).Success?
             && getUser.Failure?) ==> resp == ErrorResponse(getUser.error)
    ensures !resp.ErrorResponse? ==> Admitted(body, chapter, study, getUser)
    ensures Admitted(body, chapter, study, getUser) ==>
              var texts := PgnTexts(body.value, chapter, study).value;
              forall j :: FirstFailing(getUser.value, texts, body.value.headers, body.value.orientation, getGame, j) ==>
                resp == ErrorResponse(ChapterError(j, getGame(getUser.value, texts[j], HeaderAt(body.value.headers, j),
                                                              body.value.orientation).error))
    ensures Admitted(body, chapter, study, getUser) && PgnTexts(body.value, chapter, study) == Success([]) ==>
              resp == ErrorResponse(NoGamesError)
    ensures resp.HeadersResponse? <==>
              Admitted(body, chapter, study, getUser)
              && LacksData(getUser.value, PgnTexts(body.value, chapter, study).value, body.value.headers,
                           body.value.orientation, getGame)
    ensures resp.HeadersResponse? ==>
              var texts := PgnTexts(body.value, chapter, study).value;
              && resp.count == |resp.headers| == |texts|
              && (forall i :: 0 <= i < |texts| ==>
                    resp.headers[i] == getGame(getUser.value, texts[i], HeaderAt(body.value.headers, i),
                                               body.value.orientation).value.1)
    ensures Admitted(body, chapter, study, getUser) ==>
              var texts := PgnTexts(body.value, chapter, study).value;
              forall games :: ParsesTo(getUser.value, texts, body.value.headers, body.value.orientation, getGame, games)
                              && |games| > 0 ==>
                resp == (if batchPutGames(games).Failure? then ErrorResponse(batchPutGames(games).error)
                         else if body.value.importType == LichessChapter || body.value.importType == Manual
                         then GameResponse(games[0])
                         else CountResponse(batchPutGames(games).value))
    ensures resp.GameResponse? || resp.CountResponse? ==>
              exists games :: ParsesTo(getUser.value, PgnTexts(body.value, chapter, study).value, body.value.headers,
                                       body.value.orientation, getGame, games) && |games| > 0
  {
    if body.Failure? {
      return ErrorResponse(UnmarshalError);
    }
    var req := body.value;
    if req.orientation != "white" && req.orientation != "black" {
      return ErrorResponse(OrientationError);
    }
    var texts := PgnTexts(req, chapter, study);
    if texts.Failure? {
      return ErrorResponse(texts.error);
    }
    if getUser.Failure? {
      return ErrorResponse(getUser.error);
    }
    var parsed := GetGames(getUser.value, texts.value, req.headers, req.orientation, getGame);
    if parsed.Failure? {
      FirstFailingUnique(getUser.value, texts.value, req.headers, req.orientation, getGame);
      return ErrorResponse(parsed.error);
    }
    match parsed.value {
      case MissingData(headers) =>
        return HeadersResponse(headers, |headers|);
      case Games(games) =>
        assert ParsesTo(getUser.value, texts.value, req.headers, req.orientation, getGame, games);
        ParsesToUnique(getUser.value, texts.value, req.headers, req.orientation, getGame, games);
        if |games| == 0 {
          return ErrorResponse(NoGamesError);
        }
        var updated := batchPutGames(games);
        if updated.Failure? {
          return ErrorResponse(updated.error);
        }
        if req.importType == LichessChapter || req.importType == Manual {
          return GameResponse(games[0]);
        }
        return CountResponse(updated.value);
    }
  }

  /** At most one chapter is the first to fail. */
  lemma FirstFailingUnique<U>(user: U, pgnTexts: seq<string>, reqHeaders: seq<Option<HeaderData>>, orientation: string,
                              getGame: (U, string, Option<HeaderData>, string) -> GameAnswer)
    ensures forall j, k ::
              (FirstFailing(user, pgnTexts, reqHeaders, orientation, getGame, j)
               && FirstFailing(user, pgnTexts, reqHeaders, orientation, getGame, k)) ==> j == k
  {
  }

  /** The parsed games are determined by the chapters. */
  lemma ParsesToUnique<U>(user: U, pgnTexts: seq<string>, reqHeaders: seq<Option<HeaderData>>, orientation: string,
                          getGame: (U, string, Option<HeaderData>, string) -> GameAnswer, games: seq<Game>)
    requires ParsesTo(user, pgnTexts, reqHeaders, orientation, getGame, games)
    ensures forall other :: ParsesTo(user, pgnTexts, reqHeaders, orientation, getGame, other) ==> other == games
  {
    forall other | ParsesTo(user, pgnTexts, reqHeaders, orientation, getGame, other)
      ensures other == games
    {
      assert forall i :: 0 <= i < |games| ==> Some(other[i]) == Some(games[i]);
    }
  }
}
