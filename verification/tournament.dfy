/**
 * The tournament table of backend/database/tournament.go: how the keys of
 * leaderboards and Open Classical tournaments are built, and what each
 * accessor sends to DynamoDB.
 *
 * The table's client is an oracle. A read is given the request and the
 * value the Go code pre-fills, and answers with the value after the stored
 * item (if any) has been unmarshalled over it, together with an optional
 * error; a write answers with an optional error.
 */
module Tournament {
  import opened Wrappers
  import opened Strings
  import Stats

  const OpenClassicalType: string := "OPEN_CLASSICAL"

  /** The range key of the leaderboard or Open Classical that is still running. */
  const CurrentLeaderboard: string := "CURRENT"

  const LeaderboardPrefix: string := "LEADERBOARD_"

  /** A leaderboard's player; the float score is not modelled. */
  datatype Player = Player(username: string, rating: int)

  datatype Leaderboard = Leaderboard(
    leaderboardType: string,
    startsAt: string,
    timeControl: string,
    players: seq<Player>)

  datatype OpenClassicalPlayer = OpenClassicalPlayer(lichessUsername: string, discordUsername: string, title: string, rating: int)
  datatype OpenClassicalPairing = OpenClassicalPairing(white: OpenClassicalPlayer, black: OpenClassicalPlayer, result: string)
  datatype OpenClassicalRound = OpenClassicalRound(pairings: seq<OpenClassicalPairing>)
  datatype OpenClassical = OpenClassical(ocType: string, startsAt: string, rounds: seq<OpenClassicalRound>)

  /** A GetItem request: the hash key `type` and the range key `startsAt`. */
  datatype ItemKey = ItemKey(hashKey: string, rangeKey: string)

  /**
   * The hash key of a leaderboard: `LEADERBOARD_{period}_{type}_{control}`,
   * each part upper-cased.
   */
  function LeaderboardKey(timePeriod: string, tournamentType: string, timeControl: string): (k: string)
    ensures |k| == |LeaderboardPrefix| + |timePeriod| + 1 + |tournamentType| + 1 + |timeControl|
    ensures k[..|LeaderboardPrefix|] == LeaderboardPrefix
    ensures k[|LeaderboardPrefix| + |timePeriod|] == '_'
    ensures k[|LeaderboardPrefix| + |timePeriod| + 1 + |tournamentType|] == '_'
    ensures k[|LeaderboardPrefix|..|LeaderboardPrefix| + |timePeriod|] == ToUpper(timePeriod)
    ensures k[|LeaderboardPrefix| + |timePeriod| + 1..|LeaderboardPrefix| + |timePeriod| + 1 + |tournamentType|]
            == ToUpper(tournamentType)
    ensures k[|LeaderboardPrefix| + |timePeriod| + 1 + |tournamentType| + 1..] == ToUpper(timeControl)
    ensures NoLowerCase(k)
  {
    assert NoLowerCase(LeaderboardPrefix);
    JoinKey(ToUpper(timePeriod), ToUpper(tournamentType), ToUpper(timeControl))
  }

  /** `LEADERBOARD_{a}_{b}_{c}`, with each part found where it was put. */
  function JoinKey(a: string, b: string, c: string): (k: string)
    ensures |k| == |LeaderboardPrefix| + |a| + 1 + |b| + 1 + |c|
    ensures k[..|LeaderboardPrefix|] == LeaderboardPrefix
    ensures k[|LeaderboardPrefix|..|LeaderboardPrefix| + |a|] == a
    ensures k[|LeaderboardPrefix| + |a|] == '_'
    ensures k[|LeaderboardPrefix| + |a| + 1..|LeaderboardPrefix| + |a| + 1 + |b|] == b
    ensures k[|LeaderboardPrefix| + |a| + 1 + |b|] == '_'
    ensures k[|LeaderboardPrefix| + |a| + 1 + |b| + 1..] == c
    ensures NoLowerCase(LeaderboardPrefix) && NoLowerCase(a) && NoLowerCase(b) && NoLowerCase(c) ==> NoLowerCase(k)
  {
    KeyLayout(LeaderboardPrefix, a, b, c, |a|, |b|);
    LeaderboardPrefix + (a + ("_" + (b + ("_" + c))))
  }

  /**
   * Where each part of `p + a + "_" + b + "_" + c` lies, with `a` and `b`
   * of lengths m and n, and that it has no lower-case letter when none of
   * the parts has.
   */
  lemma KeyLayout(p: string, a: string, b: string, c: string, m: nat, n: nat)
    requires |a| == m && |b| == n
    ensures var k := p + (a + ("_" + (b + ("_" + c))));
            && |k| == |p| + m + 1 + n + 1 + |c|
            && k[..|p|] == p
            && k[|p|..|p| + m] == a
            && k[|p| + m] == '_'
            && k[|p| + m + 1..|p| + m + 1 + n] == b
            && k[|p| + m + 1 + n] == '_'
            && k[|p| + m + 1 + n + 1..] == c
            && (NoLowerCase(p) && NoLowerCase(a) && NoLowerCase(b) && NoLowerCase(c) ==> NoLowerCase(k))
  {
    var tail := "_" + (b + ("_" + c));
    var k := p + (a + tail);
    KeyPartsAt(p, a, tail);
    KeyPartsAt(p + a + "_", b, "_" + c);
    assert k == p + a + "_" + b + ("_" + c);
    if NoLowerCase(p) && NoLowerCase(a) && NoLowerCase(b) && NoLowerCase(c) {
      NoLowerCaseConcat("_", c);
      NoLowerCaseConcat(b, "_" + c);
      NoLowerCaseConcat("_", b + ("_" + c));
      NoLowerCaseConcat(a, tail);
      NoLowerCaseConcat(p, a + tail);
    }
  }

  /** In a + b + c, b is found right after a, and c right after b. */
  lemma KeyPartsAt(a: string, b: string, c: string)
    ensures (a + (b + c))[|a|..|a| + |b|] == b
    ensures (a + (b + c))[|a| + |b|..] == c
  {
    assert (a + (b + c))[|a|..] == b + c;
  }

  /** Two concatenations whose left parts have the same length are equal exactly when both parts are. */
  lemma ConcatSplit(a1: string, b1: string, a2: string, b2: string)
    requires |a1| == |a2|
    ensures a1 + b1 == a2 + b2 <==> a1 == a2 && b1 == b2
  {
    if a1 + b1 == a2 + b2 {
      assert a1 == (a1 + b1)[..|a1|] && a2 == (a2 + b2)[..|a1|];
      assert b1 == (a1 + b1)[|a1|..] && b2 == (a2 + b2)[|a1|..];
    }
  }

  /**
   * When the period and tournament-type parts have the same lengths, two
   * requests name the same leaderboard exactly when each part is equal up
   * to letter case.
   */
  lemma LeaderboardKeyIgnoresCase(tp1: string, tt1: string, tc1: string, tp2: string, tt2: string, tc2: string)
    requires |tp1| == |tp2| && |tt1| == |tt2|
    ensures LeaderboardKey(tp1, tt1, tc1) == LeaderboardKey(tp2, tt2, tc2)
            <==> EqualIgnoringCase(tp1, tp2) && EqualIgnoringCase(tt1, tt2) && EqualIgnoringCase(tc1, tc2)
  {
    ToUpperIgnoresCase(tp1, tp2);
    ToUpperIgnoresCase(tt1, tt2);
    ToUpperIgnoresCase(tc1, tc2);
    var u1, u2 := ToUpper(tt1) + ("_" + ToUpper(tc1)), ToUpper(tt2) + ("_" + ToUpper(tc2));
    ConcatSplit(LeaderboardPrefix, ToUpper(tp1) + ("_" + u1), LeaderboardPrefix, ToUpper(tp2) + ("_" + u2));
    ConcatSplit(ToUpper(tp1), "_" + u1, ToUpper(tp2), "_" + u2);
    ConcatSplit("_", u1, "_", u2);
    ConcatSplit(ToUpper(tt1), "_" + ToUpper(tc1), ToUpper(tt2), "_" + ToUpper(tc2));
    ConcatSplit("_", ToUpper(tc1), "_", ToUpper(tc2));
  }

  /** The request `GetLeaderboard` sends: the computed hash key and `startsAt` verbatim. */
  function LeaderboardRequest(timePeriod: string, tournamentType: string, timeControl: string, startsAt: string): (key: ItemKey)
    ensures key.rangeKey == startsAt
    ensures |key.hashKey| > |LeaderboardPrefix| && key.hashKey[..|LeaderboardPrefix|] == LeaderboardPrefix
  {
    ItemKey(LeaderboardKey(timePeriod, tournamentType, timeControl), startsAt)
  }

  /** The leaderboard `GetLeaderboard` fills in before reading: its own key and upper-cased time control, no players. */
  function Prefilled(timePeriod: string, tournamentType: string, timeControl: string, startsAt: string): (l: Leaderboard)
    ensures l.leaderboardType == LeaderboardRequest(timePeriod, tournamentType, timeControl, startsAt).hashKey
    ensures l.startsAt == startsAt
    ensures |l.timeControl| == |timeControl| && EqualIgnoringCase(l.timeControl, timeControl)
    ensures ToUpper(l.timeControl) == l.timeControl
    ensures l.players == []
  {
    ToUpperIdempotent(timeControl);
    ToUpperIgnoresCase(ToUpper(timeControl), timeControl);
    Leaderboard(LeaderboardKey(timePeriod, tournamentType, timeControl), startsAt, ToUpper(timeControl), [])
  }

  /**
   * `GetLeaderboard`: reads the leaderboard with the computed key and
   * returns whatever the read left in the pre-filled value, with its error.
   */
  method GetLeaderboard(timePeriod: string, tournamentType: string, timeControl: string, startsAt: string,
                        getItem: (ItemKey, Leaderboard) -> (Leaderboard, Option<string>))
    returns (request: ItemKey, leaderboard: Leaderboard, err: Option<string>)
    ensures request.hashKey == LeaderboardKey(timePeriod, tournamentType, timeControl)
    ensures request.rangeKey == startsAt
    ensures (leaderboard, err) == getItem(request, Prefilled(timePeriod, tournamentType, timeControl, startsAt))
  {
    request := LeaderboardRequest(timePeriod, tournamentType, timeControl, startsAt);
    var answer := getItem(request, Prefilled(timePeriod, tournamentType, timeControl, startsAt));
    leaderboard := answer.0;
    err := answer.1;
  }

  const PutItemError: string := "Failed DynamoDB PutItem request"

  /** `SetLeaderboard`: writes the leaderboard as given. */
  method SetLeaderboard(leaderboard: Leaderboard, putItem: Leaderboard -> Option<string>)
    returns (written: Leaderboard, err: Option<Stats.StatsError>)
    ensures written == leaderboard
    ensures err.None? <==> putItem(leaderboard).None?
    ensures err.Some? ==> err.value == Stats.StatsError(500, "Temporary server error", PutItemError, putItem(leaderboard).value)
  {
    written := leaderboard;
    err := Stats.Wrap(PutItemError, putItem(written));
  }

  /**
   * `SetOpenClassical`: whatever `Type` the caller set, the item written
   * has type `OPEN_CLASSICAL`; its period and rounds are the caller's.
   */
  method SetOpenClassical(openClassical: OpenClassical, putItem: OpenClassical -> Option<string>)
    returns (written: OpenClassical, err: Option<Stats.StatsError>)
    ensures written.ocType == OpenClassicalType
    ensures written.startsAt == openClassical.startsAt && written.rounds == openClassical.rounds
    ensures err.None? <==> putItem(written).None?
    ensures err.Some? ==> err.value == Stats.StatsError(500, "Temporary server error", PutItemError, putItem(written).value)
  {
    written := openClassical.(ocType := OpenClassicalType);
    err := Stats.Wrap(PutItemError, putItem(written));
  }

  /** The request `GetOpenClassical` sends: the fixed hash key and `startsAt` verbatim. */
  function OpenClassicalRequest(startsAt: string): (key: ItemKey)
    ensures key.hashKey == OpenClassicalType && key.rangeKey == startsAt
  {
    ItemKey(OpenClassicalType, startsAt)
  }

  /** `GetOpenClassical`: reads into an empty value with the Open Classical key. */
  method GetOpenClassical(startsAt: string, getItem: (ItemKey, OpenClassical) -> (OpenClassical, Option<string>))
    returns (request: ItemKey, openClassical: OpenClassical, err: Option<string>)
    ensures request.hashKey == OpenClassicalType && request.rangeKey == startsAt
    ensures (openClassical, err) == getItem(request, OpenClassical("", "", []))
  {
    request := OpenClassicalRequest(startsAt);
    var answer := getItem(request, OpenClassical("", "", []));
    openClassical := answer.0;
    err := answer.1;
  }

  /** An Open Classical key never collides with a leaderboard key. */
  lemma OpenClassicalKeyIsNotLeaderboardKey(startsAt: string, timePeriod: string, tournamentType: string, timeControl: string)
    ensures OpenClassicalRequest(startsAt).hashKey != LeaderboardKey(timePeriod, tournamentType, timeControl)
  {
    var k := LeaderboardKey(timePeriod, tournamentType, timeControl);
    if |k| == |OpenClassicalType| {
      assert k[0] == 'L' && OpenClassicalType[0] == 'O';
    }
  }
}
