/**
 * The view logic of frontend/src/profile/activity/ActivityTimeline.tsx:
 * the time-spent label, the two-tier "load more" rule (reveal cached entries
 * first, then fetch), the list slice and button visibility, the calendar's
 * backward-pagination trigger, event titles and calendar events, and which
 * screen the component shows.
 *
 * Dates are ISO-8601 strings compared as JavaScript compares strings;
 * colours are left to the category they are looked up by.
 */
module ActivityTimeline {
  import opened Wrappers
  import opened Strings
  import opened RequestTracker

  /** The special requirement ids the timeline tells apart; every other id is an ordinary requirement. */
  datatype RequirementId = GameSubmission | Graduation | Requirement(id: string)

  /** The requirement categories the timeline names; the others are carried by name. */
  datatype Category = Games | Welcome | OtherCategory(name: string)

  datatype TimelineEntry = TimelineEntry(
    id: string,
    owner: string,
    requirementId: RequirementId,
    requirementName: string,
    requirementCategory: Category,
    cohort: string,
    createdAt: string,
    minutesSpent: int)

  /** The profile owner; an empty `createdAt` is an absent one. */
  datatype User = User(
    username: string,
    displayName: string,
    createdAt: string,
    graduationCohorts: seq<string>,
    dojoCohort: string)

  // ---------------------------------------------------------------------
  // getTimeSpent
  // ---------------------------------------------------------------------

  /** JavaScript's `%`: the remainder of division truncated toward zero, so it takes the sign of a. */
  function JsRem(a: int, b: int): (r: int)
    requires b > 0
    ensures -b < r < b
    ensures a >= 0 ==> r >= 0
    ensures a < 0 ==> r <= 0
    ensures a == TruncDiv(a, b) * b + r
  {
    if a >= 0 then a % b else -((-a) % b)
  }

  /** Division truncated toward zero, the quotient that goes with JsRem. */
  function TruncDiv(a: int, b: int): int
    requires b > 0
  {
    if a >= 0 then a / b else -((-a) / b)
  }

  /** `Math.floor(a / b)` for a positive divisor, which Dafny's `/` already is. */
  function FloorDiv(a: int, b: int): (q: int)
    requires b > 0
    ensures q * b <= a < q * b + b
  {
    a / b
  }

  /** The `{hours}h {minutes}m` label. */
  function HoursMinutes(hours: int, minutes: int): string {
    IntToString(hours) + "h " + IntToString(minutes) + "m"
  }

  /** `getTimeSpent`, as written: floored hours and a truncated remainder. */
  function GetTimeSpent(e: TimelineEntry): (s: string)
    ensures s == "" <==> e.minutesSpent == 0
  {
    if e.minutesSpent == 0 then ""
    else
      var hours := FloorDiv(e.minutesSpent, 60);
      var minutes := JsRem(e.minutesSpent, 60);
      if hours == 0 && minutes == 0 then "" else HoursMinutes(hours, minutes)
  }

  /** For positive time the label splits it into whole hours and 0..59 minutes that add back up to it. */
  lemma TimeSpentPositive(e: TimelineEntry)
    requires e.minutesSpent > 0
    ensures exists h: nat, m: nat :: m < 60 && h * 60 + m == e.minutesSpent
                                     && GetTimeSpent(e) == HoursMinutes(h, m)
  {
    var h: nat := e.minutesSpent / 60;
    var m: nat := e.minutesSpent % 60;
    assert FloorDiv(e.minutesSpent, 60) == h && JsRem(e.minutesSpent, 60) == m;
    assert !(h == 0 && m == 0);
    assert m < 60 && h * 60 + m == e.minutesSpent && GetTimeSpent(e) == HoursMinutes(h, m);
  }

  /** The `hours === 0 && minutes === 0` test never fires: for integer time it repeats the first test. */
  lemma SecondZeroTestIsDead(minutesSpent: int)
    requires minutesSpent != 0
    ensures !(FloorDiv(minutesSpent, 60) == 0 && JsRem(minutesSpent, 60) == 0)
  {
  }

  /** On negative time the two parts disagree: -90 minutes reads "-2h -30m", which adds up to -150. */
  lemma TimeSpentNegativeMismatch()
    ensures GetTimeSpent(TimelineEntry("", "", GameSubmission, "", Games, "", "", -90)) == "-2h -30m"
    ensures FloorDiv(-90, 60) * 60 + JsRem(-90, 60) == -150
  {
    assert FloorDiv(-90, 60) == -2;
    assert JsRem(-90, 60) == -30;
    assert NatToString(2) == "2";
    assert NatToString(30) == NatToString(3) + [DigitChar(0)];
    assert NatToString(30) == "30";
  }

  /** `getTimeSpent` with hours truncated toward zero like the minutes, so that the parts add up. */
  function GetTimeSpentCorrected(e: TimelineEntry): (s: string)
    ensures s == "" <==> e.minutesSpent == 0
  {
    if e.minutesSpent == 0 then ""
    else
      var minutes := JsRem(e.minutesSpent, 60);
      HoursMinutes((e.minutesSpent - minutes) / 60, minutes)
  }

  /** The corrected label always splits the time into parts of one sign that add back up to it, and agrees with the original on positive time. */
  lemma TimeSpentCorrectedAddsUp(e: TimelineEntry)
    requires e.minutesSpent != 0
    ensures exists h: int, m: int :: -60 < m < 60 && h * 60 + m == e.minutesSpent
                                     && (e.minutesSpent > 0 ==> h >= 0 && m >= 0)
                                     && (e.minutesSpent < 0 ==> h <= 0 && m <= 0)
                                     && GetTimeSpentCorrected(e) == HoursMinutes(h, m)
    ensures e.minutesSpent > 0 ==> GetTimeSpentCorrected(e) == GetTimeSpent(e)
  {
    var a := e.minutesSpent;
    var m := JsRem(a, 60);
    var h := TruncDiv(a, 60);
    assert (a - m) / 60 == h;
    assert a > 0 ==> h >= 0 && m >= 0;
    assert a < 0 ==> h <= 0 && m <= 0;
    assert -60 < m < 60 && h * 60 + m == a && GetTimeSpentCorrected(e) == HoursMinutes(h, m);
    if a > 0 {
      assert FloorDiv(a, 60) == h;
      assert !(h == 0 && m == 0);
    }
  }

  // ---------------------------------------------------------------------
  // List view: numShown, handleLoadMore, the slice and the button
  // ---------------------------------------------------------------------

  /** The initial `numShown` and the step a reveal adds to it. */
  const PageSize: nat := 25

  datatype LoadMoreAction = Reveal(numShown: nat) | Fetch

  /** `handleLoadMore`: reveal 25 more cached entries if some are hidden, otherwise call `onLoadMore`. */
  function HandleLoadMore(numShown: nat, entryCount: nat): (a: LoadMoreAction)
    ensures a.Reveal? <==> numShown < entryCount
    ensures a.Reveal? ==> a.numShown == numShown + PageSize
  {
    if numShown < entryCount then Reveal(numShown + PageSize) else Fetch
  }

  function Min(a: nat, b: nat): nat {
    if a < b then a else b
  }

  /** `entries.slice(0, numShown)`: the first entries in their order, as many as exist up to numShown. */
  function Visible(entries: seq<TimelineEntry>, numShown: nat): (r: seq<TimelineEntry>)
    ensures |r| == Min(numShown, |entries|)
    ensures r <= entries
  {
    entries[..Min(numShown, |entries|)]
  }

  /** The load-more control is rendered when more exists remotely or cached entries are hidden. */
  predicate ShowLoadMore(hasMore: bool, numShown: nat, entryCount: nat) {
    hasMore || numShown < entryCount
  }

  /** A reveal keeps the shown entries as a prefix and shows up to 25 more, never past the end. */
  lemma RevealExtendsVisible(entries: seq<TimelineEntry>, numShown: nat)
    requires HandleLoadMore(numShown, |entries|).Reveal?
    ensures var next := HandleLoadMore(numShown, |entries|).numShown;
            && Visible(entries, numShown) < Visible(entries, next)
            && |Visible(entries, next)| == Min(numShown + PageSize, |entries|)
  {
  }

  /** Through the rendered button, a fetch happens only when the remote source has more. */
  lemma ButtonFetchesOnlyWithMore(hasMore: bool, numShown: nat, entryCount: nat)
    requires ShowLoadMore(hasMore, numShown, entryCount)
    requires HandleLoadMore(numShown, entryCount) == Fetch
    ensures hasMore
  {
  }

  /** The number of entries shown after up to k clicks from numShown, stopping at the first click that fetches. */
  function RevealTimes(numShown: nat, entryCount: nat, k: nat): (n: nat)
    ensures n >= numShown
    decreases k
  {
    if k == 0 then numShown
    else match HandleLoadMore(numShown, entryCount)
      case Reveal(next) => RevealTimes(next, entryCount, k - 1)
      case Fetch => numShown
  }

  /** Every cached entry becomes visible after enough clicks, with no fetch on the way. */
  lemma {:induction false} RevealsReachEverything(entries: seq<TimelineEntry>, numShown: nat)
    ensures Visible(entries, RevealTimes(numShown, |entries|, |entries| / PageSize + 1)) == entries
  {
    RevealsReachEverythingFrom(entries, numShown, |entries| / PageSize + 1);
  }

  lemma {:induction false} RevealsReachEverythingFrom(entries: seq<TimelineEntry>, numShown: nat, k: nat)
    requires numShown + k * PageSize >= |entries|
    ensures RevealTimes(numShown, |entries|, k) >= |entries|
    ensures Visible(entries, RevealTimes(numShown, |entries|, k)) == entries
    decreases k
  {
    if k > 0 && numShown < |entries| {
      RevealsReachEverythingFrom(entries, numShown + PageSize, k - 1);
    }
  }

  // ---------------------------------------------------------------------
  // Calendar view
  // ---------------------------------------------------------------------

  /** What choosing a date in the calendar does: nothing, or one call of `onLoadMore`. */
  datatype DateChangeEffect = NoLoad | LoadOlder

  /** `onSelectedDateChange`: load more when the selected date is older than the last loaded entry and more exist. */
  function OnSelectedDateChange(entries: seq<TimelineEntry>, selectedIso: string, hasMore: bool): (e: DateChangeEffect)
    ensures e == LoadOlder ==> hasMore && |entries| > 0
    ensures |entries| > 0 && LessEq(entries[|entries| - 1].createdAt, selectedIso) ==> e == NoLoad
  {
    if |entries| > 0 && Less(selectedIso, entries[|entries| - 1].createdAt) && hasMore then
      LessAsymmetric(selectedIso, entries[|entries| - 1].createdAt);
      LoadOlder
    else
      NoLoad
  }

  /** The entries run newest first, as the comparison with the last entry presumes. */
  predicate NewestFirst(entries: seq<TimelineEntry>) {
    forall i, j :: 0 <= i < j < |entries| ==> LessEq(entries[j].createdAt, entries[i].createdAt)
  }

  /**
   * With the entries newest first, choosing a date loads older entries
   * exactly when more exist and the date precedes every loaded entry.
   */
  lemma CalendarLoadsIffBeforeAll(entries: seq<TimelineEntry>, selectedIso: string, hasMore: bool)
    requires NewestFirst(entries)
    ensures OnSelectedDateChange(entries, selectedIso, hasMore) == LoadOlder <==>
              |entries| > 0 && hasMore && forall i :: 0 <= i < |entries| ==> Less(selectedIso, entries[i].createdAt)
  {
    if OnSelectedDateChange(entries, selectedIso, hasMore) == LoadOlder {
      var last := entries[|entries| - 1].createdAt;
      forall i | 0 <= i < |entries|
        ensures Less(selectedIso, entries[i].createdAt)
      {
        if i < |entries| - 1 && last != entries[i].createdAt {
          LessTransitive(selectedIso, last, entries[i].createdAt);
        }
      }
    }
  }

  /** `getName`: the title of an entry. */
  function GetName(e: TimelineEntry): (s: string)
    ensures e.requirementId == GameSubmission ==> s == "Published Game"
    ensures e.requirementId == Graduation ==> s == "Graduation: " + e.cohort
    ensures e.requirementId.Requirement? ==> s == e.requirementName
  {
    match e.requirementId
    case GameSubmission => "Published Game"
    case Graduation => "Graduation: " + e.cohort
    case Requirement(_) => e.requirementName
  }

  /** The category an event is coloured by: game submissions count as Games. */
  function EventCategory(e: TimelineEntry): Category {
    if e.requirementId == GameSubmission then Games else e.requirementCategory
  }

  datatype CalendarEvent = CalendarEvent(
    eventId: string,
    title: string,
    start: string,
    category: Category,
    entry: Option<TimelineEntry>)

  function EntryEvent(e: TimelineEntry): CalendarEvent {
    CalendarEvent(e.id, GetName(e), e.createdAt, EventCategory(e), Some(e))
  }

  function EntryEvents(entries: seq<TimelineEntry>): (evs: seq<CalendarEvent>)
    ensures |evs| == |entries|
    ensures forall i :: 0 <= i < |entries| ==> evs[i] == EntryEvent(entries[i])
    decreases |entries|
  {
    if |entries| == 0 then [] else [EntryEvent(entries[0])] + EntryEvents(entries[1..])
  }

  /** The "Joined the Dojo" event of a user with a creation date. */
  function JoinedEvent(user: User): CalendarEvent {
    CalendarEvent("createdAt", "Joined the Dojo", user.createdAt, Welcome, None)
  }

  /** The calendar's events: one per entry, in order, then the joined event when the user has a creation date. */
  function CalendarEvents(entries: seq<TimelineEntry>, user: User): (evs: seq<CalendarEvent>)
    ensures |evs| == |entries| + (if user.createdAt != "" then 1 else 0)
    ensures forall i :: 0 <= i < |entries| ==>
              evs[i].eventId == entries[i].id && evs[i].entry == Some(entries[i])
              && evs[i].title == GetName(entries[i]) && evs[i].start == entries[i].createdAt
    ensures forall i :: 0 <= i < |entries| && entries[i].requirementId == GameSubmission ==> evs[i].category == Games
    ensures forall i :: 0 <= i < |entries| && entries[i].requirementId != GameSubmission ==>
              evs[i].category == entries[i].requirementCategory
    ensures user.createdAt != "" ==> evs[|entries|] == JoinedEvent(user)
    ensures forall i :: 0 <= i < |evs| ==> (evs[i].entry.None? <==> i == |entries|)
  {
    EntryEvents(entries) + (if user.createdAt != "" then [JoinedEvent(user)] else [])
  }

  /** The cohort shown on the "Joined the Dojo" card: the first graduation cohort, else the current cohort. */
  function CreatedAtCohort(user: User): (c: string)
    ensures |user.graduationCohorts| > 0 ==> c == user.graduationCohorts[0]
    ensures |user.graduationCohorts| == 0 ==> c == user.dojoCohort
  {
    if |user.graduationCohorts| > 0 then user.graduationCohorts[0] else user.dojoCohort
  }

  // ---------------------------------------------------------------------
  // Screen selection
  // ---------------------------------------------------------------------

  datatype ViewMode = ListMode | CalendarMode

  datatype Screen =
    | LoadingScreen
    | NoEvents
    | ListScreen(shown: seq<TimelineEntry>, loadMore: bool)
    | CalendarScreen(events: seq<CalendarEvent>)

  /** What the component renders for the current request, entries and local view state. */
  function Render(request: Request, entries: seq<TimelineEntry>, hasMore: bool, numShown: nat,
                  mode: ViewMode, user: User): (s: Screen)
    ensures s.LoadingScreen? <==> IsLoading(request) && |entries| == 0
    ensures s.NoEvents? <==> !IsLoading(request) && |entries| == 0
    ensures s.ListScreen? ==> s.shown == Visible(entries, numShown)
                              && (s.loadMore <==> ShowLoadMore(hasMore, numShown, |entries|))
    ensures s.ListScreen? <==> |entries| > 0 && mode == ListMode
  {
    if IsLoading(request) && |entries| == 0 then LoadingScreen
    else if |entries| == 0 then NoEvents
    else if mode == ListMode then ListScreen(Visible(entries, numShown), ShowLoadMore(hasMore, numShown, |entries|))
    else CalendarScreen(CalendarEvents(entries, user))
  }
}
