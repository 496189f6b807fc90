/**
 * The nightly ratings refresh of backend/user/ratings/update/main.go:
 * `updateUsers` fetches each user's five ratings, keeps the current rating
 * for a blank identifier or a failed fetch, and writes the users whose
 * ratings changed in batches of at most 25; `Handler` scans the user table
 * page by page and refreshes each page.
 *
 * The five rating fetchers are one oracle, `fetch`, answering for a source
 * and a trimmed identifier. The table scan is a finite sequence of pages,
 * as in the pagination drain. A batch write's outcome is only logged, so
 * the model records the batches written and not their outcome.
 */
module RatingsUpdate {
  import opened Wrappers
  import opened Strings
  import opened Seqs
  import opened Pagination

  datatype Source = Chesscom | Lichess | Fide | Uscf | Ecf

  datatype Ratings = Ratings(chesscom: int, lichess: int, fide: int, uscf: int, ecf: int)

  /** The fields of a user the refresh reads or writes. */
  datatype RatingUser = RatingUser(
    username: string,
    chesscomUsername: string,
    lichessUsername: string,
    fideId: string,
    uscfId: string,
    ecfId: string,
    current: Ratings)

  /** The five rating fetchers: a rating, or an error, for a source and an identifier. */
  type Fetcher = (Source, string) -> Result<int, string>

  /** The batch size of `UpdateUserRatings`. */
  const BatchSize: nat := 25

  /** The user's identifier on a source, as stored. */
  function Identifier(u: RatingUser, s: Source): string {
    match s
    case Chesscom => u.chesscomUsername
    case Lichess => u.lichessUsername
    case Fide => u.fideId
    case Uscf => u.uscfId
    case Ecf => u.ecfId
  }

  /** The rating recorded for a source. */
  function Rating(r: Ratings, s: Source): int {
    match s
    case Chesscom => r.chesscom
    case Lichess => r.lichess
    case Fide => r.fide
    case Uscf => r.uscf
    case Ecf => r.ecf
  }

  /**
   * The rule applied to every source: keep the current rating for a blank
   * identifier or a failed fetch, else take the fetched one.
   */
  function KeepOnFailure(current: int, id: string, answer: Result<int, string>): (r: int)
    ensures id == "" || answer.Failure? ==> r == current
    ensures id != "" && answer.Success? ==> r == answer.value
  {
    if id == "" then current
    else match answer
      case Success(rating) => rating
      case Failure(_) => current
  }

  /** The user's identifier on a source, trimmed of white space as Go's strings.TrimSpace does. */
  function TrimmedId(u: RatingUser, s: Source): string {
    TrimSpace(Identifier(u, s))
  }

  /** The new rating for one source; the fetcher is asked with the trimmed identifier. */
  function NewRating(u: RatingUser, s: Source, fetch: Fetcher): int {
    KeepOnFailure(Rating(u.current, s), TrimmedId(u, s), fetch(s, TrimmedId(u, s)))
  }

  /** A blank identifier, or one whose fetch fails, keeps the current rating; otherwise the fetched one is taken. */
  lemma NewRatingCases(u: RatingUser, s: Source, fetch: Fetcher)
    ensures AllSpace(Identifier(u, s)) ==> NewRating(u, s, fetch) == Rating(u.current, s)
    ensures fetch(s, TrimmedId(u, s)).Failure? ==> NewRating(u, s, fetch) == Rating(u.current, s)
    ensures !AllSpace(Identifier(u, s)) && fetch(s, TrimmedId(u, s)).Success? ==>
              NewRating(u, s, fetch) == fetch(s, TrimmedId(u, s)).value
  {
    TrimSpaceEmptyIffBlank(Identifier(u, s));
  }

  /** All five new ratings. */
  function NewRatings(u: RatingUser, fetch: Fetcher): Ratings {
    Ratings(NewRating(u, Chesscom, fetch), NewRating(u, Lichess, fetch), NewRating(u, Fide, fetch),
            NewRating(u, Uscf, fetch), NewRating(u, Ecf, fetch))
  }

  /** Each source's entry in the new ratings is that source's new rating. */
  lemma NewRatingsPerSource(u: RatingUser, fetch: Fetcher, s: Source)
    ensures Rating(NewRatings(u, fetch), s) == NewRating(u, s, fetch)
  {
  }

  /** The new-ratings computation `updateUsers` applies to each user, as a function value. */
  function Latest(fetch: Fetcher): RatingUser -> Ratings {
    u => NewRatings(u, fetch)
  }

  /** Whether any of the five new ratings differs from the current one. */
  predicate Changed(u: RatingUser, latest: RatingUser -> Ratings) {
    latest(u) != u.current
  }

  /** Two rating records are equal exactly when they agree on every source. */
  lemma RatingsEqualIffPerSource(a: Ratings, b: Ratings)
    ensures a == b <==> forall s :: Rating(a, s) == Rating(b, s)
  {
    if forall s :: Rating(a, s) == Rating(b, s) {
      assert Rating(a, Chesscom) == Rating(b, Chesscom) && Rating(a, Lichess) == Rating(b, Lichess);
      assert Rating(a, Fide) == Rating(b, Fide) && Rating(a, Uscf) == Rating(b, Uscf) && Rating(a, Ecf) == Rating(b, Ecf);
    }
  }

  /** A user is changed exactly when some source's new rating differs from its current one. */
  lemma ChangedIffSomeSourceDiffers(u: RatingUser, fetch: Fetcher)
    ensures Changed(u, Latest(fetch)) <==> exists s :: NewRating(u, s, fetch) != Rating(u.current, s)
  {
    var r := NewRatings(u, fetch);
    assert Latest(fetch)(u) == r;
    RatingsEqualIffPerSource(r, u.current);
    forall s
      ensures Rating(r, s) == NewRating(u, s, fetch)
    {
      NewRatingsPerSource(u, fetch, s);
    }
  }

  /** A user whose identifiers are all blank is never changed, whatever the fetchers answer. */
  lemma BlankIdentifiersNeverChange(u: RatingUser, fetch: Fetcher)
    requires forall s :: AllSpace(Identifier(u, s))
    ensures !Changed(u, Latest(fetch))
  {
    NewRatingCases(u, Chesscom, fetch);
    NewRatingCases(u, Lichess, fetch);
    NewRatingCases(u, Fide, fetch);
    NewRatingCases(u, Uscf, fetch);
    NewRatingCases(u, Ecf, fetch);
  }

  /** The user with all five ratings overwritten. */
  function Refreshed(u: RatingUser, latest: RatingUser -> Ratings): (r: RatingUser)
    ensures r.current == latest(u)
    ensures r.(current := u.current) == u
  {
    u.(current := latest(u))
  }

  /** The refreshed users that changed, in input order: what must be written. */
  function ChangedUsers(users: seq<RatingUser>, latest: RatingUser -> Ratings): (r: seq<RatingUser>)
    ensures |r| <= |users|
    decreases |users|
  {
    if |users| == 0 then []
    else
      var last := users[|users| - 1];
      ChangedUsers(users[..|users| - 1], latest) + (if Changed(last, latest) then [Refreshed(last, latest)] else [])
  }

  lemma {:induction false} ChangedUsersAppend(a: seq<RatingUser>, b: seq<RatingUser>, latest: RatingUser -> Ratings)
    ensures ChangedUsers(a + b, latest) == ChangedUsers(a, latest) + ChangedUsers(b, latest)
    decreases |b|
  {
    if |b| == 0 {
      assert a + b == a;
    } else {
      var b' := b[..|b| - 1];
      assert (a + b)[..|a + b| - 1] == a + b';
      ChangedUsersAppend(a, b', latest);
    }
  }

  /**
   * The batching of `updateUsers`: users are collected into a pending
   * batch that is written as soon as it holds 25, and whatever is pending
   * at the end is written last. Together the batches are the input, in
   * order; each holds 1 to 25 users and all but the last hold exactly 25.
   */
  method Batches(changed: seq<RatingUser>) returns (batches: seq<seq<RatingUser>>)
    ensures Flatten(batches) == changed
    ensures forall i :: 0 <= i < |batches| ==> 0 < |batches[i]| <= BatchSize
    ensures forall i :: 0 <= i < |batches| - 1 ==> |batches[i]| == BatchSize
  {
    batches := [];
    var pending: seq<RatingUser> := [];
    for i := 0 to |changed|
      invariant Flatten(batches) + pending == changed[..i]
      invariant |pending| < BatchSize
      invariant forall j :: 0 <= j < |batches| ==> |batches[j]| == BatchSize
    {
      assert changed[..i + 1] == changed[..i] + [changed[i]];
      pending := pending + [changed[i]];
      if |pending| == BatchSize {
        FlattenAppend(batches, pending);
        batches := batches + [pending];
        pending := [];
      }
    }
    assert changed[..|changed|] == changed;
    if |pending| > 0 {
      FlattenAppend(batches, pending);
      batches := batches + [pending];
    }
  }

  /**
   * `updateUsers`. `after` is each user as left in memory (only changed
   * users are overwritten); `batches` are the `UpdateUserRatings` calls, in
   * order: together exactly the changed users, each call 1 to 25 users,
   * every call but the last a full 25. `latest` gives each user's five new
   * ratings; in the handler it is `Latest(fetch)`, the per-source rule
   * applied to the fetchers' answers.
   */
  method UpdateUsers(users: seq<RatingUser>, latest: RatingUser -> Ratings)
    returns (after: seq<RatingUser>, batches: seq<seq<RatingUser>>)
    ensures |after| == |users|
    ensures forall i :: 0 <= i < |users| && !Changed(users[i], latest) ==> after[i] == users[i]
    ensures forall i :: 0 <= i < |users| && Changed(users[i], latest) ==> after[i] == Refreshed(users[i], latest)
    ensures Flatten(batches) == ChangedUsers(users, latest)
    ensures forall i :: 0 <= i < |batches| ==> 0 < |batches[i]| <= BatchSize
    ensures forall i :: 0 <= i < |batches| - 1 ==> |batches[i]| == BatchSize
  {
    after := [];
    var changed: seq<RatingUser> := [];
    for i := 0 to |users|
      invariant |after| == i
      invariant forall j :: 0 <= j < i && !Changed(users[j], latest) ==> after[j] == users[j]
      invariant forall j :: 0 <= j < i && Changed(users[j], latest) ==> after[j] == Refreshed(users[j], latest)
      invariant changed == ChangedUsers(users[..i], latest)
    {
      assert users[..i + 1][..i] == users[..i];
      var u := users[i];
      if Changed(u, latest) {
        u := Refreshed(u, latest);
        changed := changed + [u];
      }
      after := after + [u];
    }
    assert users[..|users|] == users;
    batches := Batches(changed);
  }

  /** Refreshes one scanned page: its batch writes follow those already made. */
  method RefreshPage(writes: seq<seq<RatingUser>>, items: seq<RatingUser>, latest: RatingUser -> Ratings)
    returns (writes': seq<seq<RatingUser>>)
    requires forall i :: 0 <= i < |writes| ==> 0 < |writes[i]| <= BatchSize
    ensures Flatten(writes') == Flatten(writes) + ChangedUsers(items, latest)
    ensures forall i :: 0 <= i < |writes'| ==> 0 < |writes'[i]| <= BatchSize
  {
    var _, batches := UpdateUsers(items, latest);
    FlattenConcat(writes, batches);
    writes' := writes + batches;
  }

  /**
   * The scan keys sent so far: the empty key first, then each page's
   * returned key, every one of them non-empty.
   */
  predicate KeysFollowPages(pages: seq<Result<Page<RatingUser>, string>>, keys: seq<string>) {
    && 0 < |keys| <= |pages| + 1
    && keys[0] == ""
    && forall i :: 0 < i < |keys| ==>
         pages[i - 1].Success? && keys[i] == pages[i - 1].value.lastEvaluatedKey.GetOr("") && keys[i] != ""
  }

  /** A non-empty key returned by the page answering the last key is the next key sent. */
  lemma KeysFollowSnoc(pages: seq<Result<Page<RatingUser>, string>>, keys: seq<string>, key: string)
    requires KeysFollowPages(pages, keys) && |keys| <= |pages|
    requires pages[|keys| - 1].Success? && key == pages[|keys| - 1].value.lastEvaluatedKey.GetOr("") && key != ""
    ensures KeysFollowPages(pages, keys + [key])
  {
  }

  /**
   * `Handler`: scans from the empty key, refreshing each page before asking
   * for the next, until the scan returns an empty key; a scan error ends
   * the run with that error, after the pages before it were refreshed.
   * `keys[i]` is the key sent with scan i; `writes` are all batch writes.
   * The loop runs over the pages before `StopIndex(pages)`, the first page
   * on which the Go loop exits, and that page is handled after it.
   */
  method Handler(pages: seq<Result<Page<RatingUser>, string>>, latest: RatingUser -> Ratings)
    returns (err: Option<string>, keys: seq<string>, writes: seq<seq<RatingUser>>)
    requires Terminates(pages)
    ensures |keys| == StopIndex(pages) + 1 && KeysFollowPages(pages, keys)
    ensures var k := StopIndex(pages);
            pages[k].Failure? ==> err == Some(pages[k].error) && Flatten(writes) == ChangedUsers(Items(pages, k), latest)
    ensures var k := StopIndex(pages);
            pages[k].Success? ==> err == None && Flatten(writes) == ChangedUsers(Items(pages, k + 1), latest)
    ensures forall i :: 0 <= i < |writes| ==> 0 < |writes[i]| <= BatchSize
  {
    var k := StopIndex(pages);
    keys := [""];
    writes := [];
    ghost var scanned: seq<RatingUser> := [];
    // Every page before the k-th is a success with a non-empty key.
    for n := 0 to k
      invariant |keys| == n + 1
      invariant KeysFollowPages(pages, keys)
      invariant scanned == Items(pages, n)
      invariant Flatten(writes) == ChangedUsers(scanned, latest)
      invariant forall i :: 0 <= i < |writes| ==> 0 < |writes[i]| <= BatchSize
    {
      assert !Stops(pages[n]);
      var items := pages[n].value.items;
      writes := RefreshPage(writes, items, latest);
      ChangedUsersAppend(scanned, items, latest);
      scanned := scanned + items;
      var key := pages[n].value.lastEvaluatedKey.GetOr("");
      KeysFollowSnoc(pages, keys, key);
      keys := keys + [key];
    }
    // The k-th page ends the scan.
    var page := pages[k];
    if page.Failure? {
      return Some(page.error), keys, writes;
    }
    writes := RefreshPage(writes, page.value.items, latest);
    ChangedUsersAppend(scanned, page.value.items, latest);
    err := None;
  }
}
