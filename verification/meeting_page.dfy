/**
 * The decisions of frontend/src/meeting/MeetingPage.tsx: loading versus
 * not found, the opponent shown, the start and location defaults, the
 * canceled alert versus the cancel button, and the cancel flow.
 *
 * The page reads meetings from the events cache of `api/cache/Cache`, which
 * is not part of this model; it is modelled with the same keyed store as
 * the meeting cache, whose `put` replaces the stored value wholesale.
 */
module MeetingPage {
  import opened Wrappers
  import opened MeetingCache
  import opened RequestTracker

  datatype PageView = LoadingPage | NotFound | Details(meeting: Meeting)

  /** What the page shows for a meeting id, given the cache and whether it is still loading. */
  function Lookup(store: Store, meetingId: string, cacheLoading: bool): (v: PageView)
    ensures v.Details? <==> meetingId in store
    ensures v.Details? ==> v.meeting == store[meetingId]
    ensures v.LoadingPage? <==> meetingId !in store && cacheLoading
    ensures v.NotFound? <==> meetingId !in store && !cacheLoading
  {
    match GetMeeting(store, meetingId)
    case Some(m) => Details(m)
    case None => if cacheLoading then LoadingPage else NotFound
  }

  /** The meeting's owner, seen as a participant. */
  function OwnerAsParticipant(m: Meeting): Participant {
    Participant(m.owner, m.ownerDisplayName, m.ownerCohort, m.ownerPreviousCohort)
  }

  /**
   * The opponent card: the first participant, unless that is the viewer,
   * in which case the owner. A meeting without participants makes the page
   * fail on `participants![0].username`; that is the None case.
   */
  function Opponent(m: Meeting, viewer: string): (r: Option<Participant>)
    ensures r.None? <==> |m.participants| == 0
    ensures r.Some? && m.participants[0].username != viewer ==> r.value == m.participants[0]
    ensures r.Some? && m.participants[0].username == viewer ==> r.value == OwnerAsParticipant(m)
  {
    if |m.participants| == 0 then None
    else if m.participants[0].username == viewer then Some(OwnerAsParticipant(m))
    else Some(m.participants[0])
  }

  /** A viewer who does not own the meeting is never shown as their own opponent. */
  lemma OpponentIsNotViewer(m: Meeting, viewer: string)
    requires |m.participants| > 0 && m.owner != viewer
    ensures Opponent(m, viewer).Some? && Opponent(m, viewer).value.username != viewer
  {
  }

  /** The start shown: the booked start when set, else the availability's start. */
  function DisplayStart(m: Meeting): (s: string)
    ensures m.bookedStartTime != "" ==> s == m.bookedStartTime
    ensures m.bookedStartTime == "" ==> s == m.startTime
  {
    if m.bookedStartTime != "" then m.bookedStartTime else m.startTime
  }

  /** The location shown: the meeting's own, else 'Discord'. */
  function DisplayLocation(m: Meeting): (s: string)
    ensures s != ""
    ensures m.location != "" ==> s == m.location
  {
    if m.location != "" then m.location else "Discord"
  }

  predicate ShowsCanceledAlert(m: Meeting) {
    m.status == Canceled
  }

  predicate ShowsCancelButton(m: Meeting) {
    m.status != Canceled
  }

  /** The page shows exactly one of the canceled alert and the cancel button. */
  lemma AlertXorCancelButton(m: Meeting)
    ensures ShowsCanceledAlert(m) != ShowsCancelButton(m)
  {
  }

  /** The page's local state: the cancel request, the cache, and whether the dialog is open. */
  datatype PageState = PageState(request: Request, store: Store, dialogOpen: bool)

  /** The dialog can be dismissed only while no cancel request is loading. */
  predicate CanCloseDialog(st: PageState) {
    !IsLoading(st.request)
  }

  /** The first step of `onCancel`: the request starts, before `cancelEvent` answers. */
  function StartCancel(st: PageState): (st': PageState)
    ensures IsLoading(st'.request) && !CanCloseDialog(st')
    ensures st'.store == st.store && st'.dialogOpen == st.dialogOpen
  {
    st.(request := OnStart(st.request))
  }

  /** How `onCancel` settles on the response of `cancelEvent`. */
  function SettleCancel(st: PageState, response: Result<Meeting, string>): (st': PageState)
    ensures IsSent(st'.request) && CanCloseDialog(st')
    ensures response.Success? ==>
              st'.store == PutMeeting(st.store, response.value) && !st'.dialogOpen && st'.request.status == Succeeded
    ensures response.Failure? ==>
              st'.store == st.store && st'.dialogOpen == st.dialogOpen && st'.request.status == Failed(response.error)
  {
    match response
    case Success(m) => PageState(OnSuccess(st.request), PutMeeting(st.store, m), false)
    case Failure(e) => st.(request := OnFailure(st.request, e))
  }

  /** The whole `onCancel` flow. */
  function OnCancel(st: PageState, response: Result<Meeting, string>): PageState {
    SettleCancel(StartCancel(st), response)
  }

  /**
   * A successful cancel makes the returned meeting, which carries the
   * page's meeting id, what the page shows next; a failed one leaves the
   * cache and dialog as they were.
   */
  lemma CancelOutcome(st: PageState, meetingId: string, response: Result<Meeting, string>, cacheLoading: bool)
    ensures response.Success? && response.value.id == meetingId ==>
              Lookup(OnCancel(st, response).store, meetingId, cacheLoading) == Details(response.value)
    ensures response.Failure? ==>
              OnCancel(st, response).store == st.store && OnCancel(st, response).dialogOpen == st.dialogOpen
  {
  }
}
