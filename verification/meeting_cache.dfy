/**
 * The meeting entity cache of frontend/src/api/Cache.tsx: a record from
 * meeting id to the most recently stored meeting, with whole-value upsert,
 * batched upsert, point lookup, snapshot and filter, and the guarded
 * one-shot fetch of `useMeetings`.
 */
module MeetingCache {
  import opened Wrappers
  import opened Seqs
  import Strings
  import opened RequestTracker

  datatype Participant = Participant(username: string, displayName: string, cohort: string, previousCohort: string)

  /** The meeting status; only `Canceled` is told apart by the code modelled here. */
  datatype AvailabilityStatus = Canceled | OtherStatus(name: string)

  /** A meeting as the front end receives it. Empty strings stand for absent optional text. */
  datatype Meeting = Meeting(
    id: string,
    startTime: string,
    bookedStartTime: string,
    owner: string,
    ownerDisplayName: string,
    ownerCohort: string,
    ownerPreviousCohort: string,
    participants: seq<Participant>,
    status: AvailabilityStatus,
    location: string,
    description: string)

  /** `Record<string, Meeting>` held in the provider's state. */
  type Store = map<string, Meeting>

  /** The provider's initial state, `{}`. */
  const Empty: Store := map[]

  /** Every stored meeting sits under its own id. */
  ghost predicate WellFormed(s: Store) {
    forall k :: k in s ==> s[k].id == k
  }

  // ---------------------------------------------------------------------
  // Reads
  // ---------------------------------------------------------------------

  /** `getMeeting(id)`: `meetings[id]`, undefined when not cached. */
  function GetMeeting(s: Store, id: string): (r: Option<Meeting>)
    ensures r.Some? <==> id in s
    ensures r.Some? ==> r.value == s[id]
  {
    if id in s then Some(s[id]) else None
  }

  /** `getMeetings()`: `Object.values(meetings)`, one value per key, in no specified order. */
  method GetMeetings(s: Store) returns (r: seq<Meeting>)
    ensures |r| == |s|
    ensures forall i :: 0 <= i < |r| ==> r[i] in s.Values
    ensures forall id :: id in s ==> s[id] in r
    ensures WellFormed(s) ==> forall i, j :: 0 <= i < j < |r| ==> r[i].id != r[j].id
  {
    var remaining := s.Keys;
    ghost var ks: seq<string> := [];
    r := [];
    while remaining != {}
      invariant remaining <= s.Keys
      invariant |ks| == |r|
      invariant forall i :: 0 <= i < |ks| ==> ks[i] in s && ks[i] !in remaining && r[i] == s[ks[i]]
      invariant forall i, j :: 0 <= i < j < |ks| ==> ks[i] != ks[j]
      invariant forall id :: id in s && id !in remaining ==> s[id] in r
      invariant |r| + |remaining| == |s.Keys|
      decreases remaining
    {
      var id :| id in remaining;
      r := r + [s[id]];
      ks := ks + [id];
      remaining := remaining - {id};
    }
    assert |s| == |s.Keys|;
    if WellFormed(s) {
      assert forall i :: 0 <= i < |r| ==> r[i].id == ks[i];
    }
  }

  /** `filterMeetings(f)`: the stored meetings satisfying f. */
  method FilterMeetings(s: Store, f: Meeting -> bool) returns (r: seq<Meeting>)
    ensures forall i :: 0 <= i < |r| ==> r[i] in s.Values && f(r[i])
    ensures forall id :: id in s && f(s[id]) ==> s[id] in r
    ensures |r| <= |s|
    ensures WellFormed(s) ==> forall i, j :: 0 <= i < j < |r| ==> r[i].id != r[j].id
  {
    var all := GetMeetings(s);
    r := Filter(all, f);
    if WellFormed(s) {
      FilterKeepsDistinctKeys(all, f, (m: Meeting) => m.id);
    }
  }

  // ---------------------------------------------------------------------
  // Writes
  // ---------------------------------------------------------------------

  /** `putMeeting(m)`: `{...meetings, [m.id]: m}`. */
  function PutMeeting(s: Store, m: Meeting): (s': Store)
    ensures s'.Keys == s.Keys + {m.id}
    ensures s'[m.id] == m
    ensures forall k :: k in s && k != m.id ==> s'[k] == s[k]
  {
    s[m.id := m]
  }

  /** The record `ms.reduce` builds: each meeting stored under its id, left to right. */
  function BatchMap(ms: seq<Meeting>): (b: Store)
    decreases |ms|
  {
    if |ms| == 0 then map[] else BatchMap(ms[..|ms| - 1])[ms[|ms| - 1].id := ms[|ms| - 1]]
  }

  /** `putMeetings(ms)`: `{...meetings, ...newMeetingsMap}`. */
  function PutMeetings(s: Store, ms: seq<Meeting>): (s': Store)
  {
    s + BatchMap(ms)
  }

  /** The ids carried by a batch. */
  function Ids(ms: seq<Meeting>): set<string> {
    set i | 0 <= i < |ms| :: ms[i].id
  }

  /** The position of the last meeting of ms that carries id. */
  function LastIndex(ms: seq<Meeting>, id: string): (k: nat)
    requires id in Ids(ms)
    ensures k < |ms| && ms[k].id == id
    ensures forall j :: k < j < |ms| ==> ms[j].id != id
    decreases |ms|
  {
    if ms[|ms| - 1].id == id then |ms| - 1
    else
      assert id in Ids(ms[..|ms| - 1]) by {
        var i :| 0 <= i < |ms| && ms[i].id == id;
        assert i < |ms| - 1 && ms[..|ms| - 1][i] == ms[i];
      }
      LastIndex(ms[..|ms| - 1], id)
  }

  lemma {:induction false} BatchMapContents(ms: seq<Meeting>)
    ensures BatchMap(ms).Keys == Ids(ms)
    ensures forall id :: id in Ids(ms) ==> BatchMap(ms)[id] == ms[LastIndex(ms, id)]
    decreases |ms|
  {
    if |ms| > 0 {
      var init := ms[..|ms| - 1];
      BatchMapContents(init);
      assert Ids(ms) == Ids(init) + {ms[|ms| - 1].id} by {
        forall id | id in Ids(ms) ensures id in Ids(init) + {ms[|ms| - 1].id} {
          var i :| 0 <= i < |ms| && ms[i].id == id;
          if i < |ms| - 1 {
            assert init[i] == ms[i];
          }
        }
        forall id | id in Ids(init) ensures id in Ids(ms) {
          var i :| 0 <= i < |init| && init[i].id == id;
          assert ms[i] == init[i];
        }
      }
    }
  }

  /** After putMeetings, each id of the batch holds the batch's last meeting with that id; every other entry is unchanged. */
  lemma PutMeetingsLastWins(s: Store, ms: seq<Meeting>)
    ensures PutMeetings(s, ms).Keys == s.Keys + Ids(ms)
    ensures forall id :: id in Ids(ms) ==> PutMeetings(s, ms)[id] == ms[LastIndex(ms, id)]
    ensures forall id :: id !in Ids(ms) ==> GetMeeting(PutMeetings(s, ms), id) == GetMeeting(s, id)
  {
    BatchMapContents(ms);
  }

  /** Repeated `putMeeting`, left to right. */
  function FoldPut(s: Store, ms: seq<Meeting>): Store
    decreases |ms|
  {
    if |ms| == 0 then s else FoldPut(PutMeeting(s, ms[0]), ms[1..])
  }

  /** The batch record splits into its first meeting overridden by the rest. */
  lemma {:induction false} BatchMapCons(ms: seq<Meeting>)
    requires |ms| > 0
    ensures BatchMap(ms) == map[ms[0].id := ms[0]] + BatchMap(ms[1..])
    decreases |ms|
  {
    if |ms| > 1 {
      var init := ms[..|ms| - 1];
      var last := ms[|ms| - 1];
      BatchMapCons(init);
      assert init[0] == ms[0];
      assert ms[1..][..|ms[1..]| - 1] == init[1..];
      assert BatchMap(ms[1..]) == BatchMap(init[1..])[last.id := last];
    }
  }

  /** Overriding with a one-entry map and then a batch is writing the entry and then overriding with the batch. */
  lemma OverrideSplit(s: Store, m: Meeting, b: Store)
    ensures s + (map[m.id := m] + b) == PutMeeting(s, m) + b
  {
    var lhs, rhs := s + (map[m.id := m] + b), PutMeeting(s, m) + b;
    assert lhs.Keys == rhs.Keys;
    forall k | k in lhs ensures lhs[k] == rhs[k] {
    }
  }

  /** putMeetings commits in one step what repeated putMeeting would: the batch equals the fold. */
  lemma {:induction false} PutMeetingsIsFold(s: Store, ms: seq<Meeting>)
    ensures PutMeetings(s, ms) == FoldPut(s, ms)
    decreases |ms|
  {
    if |ms| > 0 {
      PutMeetingsIsFold(PutMeeting(s, ms[0]), ms[1..]);
      BatchMapCons(ms);
      OverrideSplit(s, ms[0], BatchMap(ms[1..]));
    } else {
      assert s + map[] == s;
    }
  }

  lemma PutMeetingIdempotent(s: Store, m: Meeting)
    ensures PutMeeting(PutMeeting(s, m), m) == PutMeeting(s, m)
  {
  }

  /** Applying the same batch twice leaves the store as applying it once. */
  lemma PutMeetingsIdempotent(s: Store, ms: seq<Meeting>)
    ensures PutMeetings(PutMeetings(s, ms), ms) == PutMeetings(s, ms)
  {
    var once := PutMeetings(s, ms);
    var twice := PutMeetings(once, ms);
    assert twice.Keys == once.Keys;
    forall id | id in twice ensures twice[id] == once[id] {
    }
  }

  /** Writes keep every meeting under its own id. */
  lemma PutPreservesWellFormed(s: Store, m: Meeting, ms: seq<Meeting>)
    requires WellFormed(s)
    ensures WellFormed(PutMeeting(s, m))
    ensures WellFormed(PutMeetings(s, ms))
  {
    BatchMapContents(ms);
  }

  /** An id no write has carried is not cached, since the store starts empty. */
  lemma {:induction false} NeverPutIsUndefined(ms: seq<Meeting>, id: string)
    requires id !in Ids(ms)
    ensures GetMeeting(FoldPut(Empty, ms), id) == None
  {
    PutMeetingsIsFold(Empty, ms);
    PutMeetingsLastWins(Empty, ms);
  }

  // ---------------------------------------------------------------------
  // useMeetings
  // ---------------------------------------------------------------------

  /** Ascending by start time, as `lhs.startTime.localeCompare(rhs.startTime)` orders them. */
  predicate SortedByStart(ms: seq<Meeting>) {
    forall i :: 0 <= i < |ms| - 1 ==> Strings.LessEq(ms[i].startTime, ms[i + 1].startTime)
  }

  function Insert(m: Meeting, ms: seq<Meeting>): (r: seq<Meeting>)
    requires SortedByStart(ms)
    ensures SortedByStart(r)
    ensures multiset(r) == multiset(ms) + multiset{m}
    ensures |r| > 0 && (r[0] == m || (|ms| > 0 && r[0] == ms[0]))
    decreases |ms|
  {
    if |ms| == 0 then [m]
    else if Strings.LessEq(m.startTime, ms[0].startTime) then [m] + ms
    else
      var tail := Insert(m, ms[1..]);
      assert ms == [ms[0]] + ms[1..];
      Strings.LessEqTotal(m.startTime, ms[0].startTime);
      [ms[0]] + tail
  }

  /** The sort `useMeetings` applies before storing the fetched meetings. */
  function SortByStart(ms: seq<Meeting>): (r: seq<Meeting>)
    ensures SortedByStart(r)
    ensures multiset(r) == multiset(ms)
    decreases |ms|
  {
    if |ms| == 0 then []
    else
      assert ms == [ms[0]] + ms[1..];
      Insert(ms[0], SortByStart(ms[1..]))
  }

  /** The state one `useMeetings` instance works on: its request and the shared cache. */
  datatype Hook = Hook(request: Request, store: Store)

  /**
   * One run of the effect. `response` is what `api.listMeetings()` would
   * settle with if it were called; `called` says whether it was.
   */
  function MeetingsEffect(h: Hook, response: Result<seq<Meeting>, string>): (r: (Hook, bool))
    ensures var (h', called) := r;
            && (called <==> !IsSent(h.request))
            && (!called ==> h' == h)
            && IsSent(h'.request)
            && (called ==> !IsLoading(h'.request))
            && (called && response.Failure? ==> h'.store == h.store && h'.request.status == Failed(response.error))
            && (called && response.Success? ==>
                  h'.request.status == Succeeded &&
                  exists sorted :: SortedByStart(sorted) && multiset(sorted) == multiset(response.value)
                                   && h'.store == PutMeetings(h.store, sorted))
  {
    if IsSent(h.request) then (h, false)
    else
      var started := OnStart(h.request);
      match response
      case Success(ms) =>
        var sorted := SortByStart(ms);
        (Hook(OnSuccess(started), PutMeetings(h.store, sorted)), true)
      case Failure(e) => (Hook(OnFailure(started, e), h.store), true)
  }

  /** Re-running the effect once per render; returns the final state and the number of list calls. */
  function RunEffects(h: Hook, responses: seq<Result<seq<Meeting>, string>>): (Hook, nat)
    decreases |responses|
  {
    if |responses| == 0 then (h, 0)
    else
      var (h', called) := MeetingsEffect(h, responses[0]);
      var (h'', n) := RunEffects(h', responses[1..]);
      (h'', n + (if called then 1 else 0))
  }

  lemma {:induction false} NoCallOnceSent(h: Hook, responses: seq<Result<seq<Meeting>, string>>)
    requires IsSent(h.request)
    ensures RunEffects(h, responses) == (h, 0)
    decreases |responses|
  {
    if |responses| > 0 {
      NoCallOnceSent(h, responses[1..]);
    }
  }

  /** However often the effect re-runs, `listMeetings` is called at most once, and never once sent. */
  lemma AtMostOneListCall(h: Hook, responses: seq<Result<seq<Meeting>, string>>)
    ensures RunEffects(h, responses).1 <= 1
    ensures IsSent(h.request) ==> RunEffects(h, responses).1 == 0
  {
    if |responses| > 0 {
      var (h', called) := MeetingsEffect(h, responses[0]);
      NoCallOnceSent(h', responses[1..]);
    } else if IsSent(h.request) {
    }
  }
}
