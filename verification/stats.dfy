/**
 * The statistics counters of backend/database/stats.go: the DynamoDB
 * update requests that count availability creation and deletion and
 * meeting creation.
 *
 * An update expression is modelled twice: as the list of counter paths it
 * increments (`Clauses`), and as the text the Go code builds by appending
 * (`Render`). Every clause has the form `p = p + :v`, so `:v` is the only
 * increment used. The DynamoDB client is an oracle that answers each
 * request with an error message or nothing.
 */
module Stats {
  import opened Wrappers
  import opened Strings

  datatype Table = AvailabilityTable | MeetingTable

  datatype UpdateItem = UpdateItem(
    table: Table,
    key: map<string, string>,
    expression: string,
    names: map<string, string>,
    values: map<string, string>)

  /** The one expression value: `:v` is the number 1. */
  const Increment: map<string, string> := map[":v" := "1"]

  const StatisticsRecord: string := "STATISTICS"

  /** The statistics record of the availability table: owner = id = STATISTICS. */
  const AvailabilityStatsKey: map<string, string> := map["owner" := StatisticsRecord, "id" := StatisticsRecord]

  /** The statistics record of the meeting table, keyed by id alone. */
  const MeetingStatsKey: map<string, string> := map["id" := StatisticsRecord]

  datatype Availability = Availability(ownerCohort: string, cohorts: seq<string>, types: seq<string>)

  /** The error `errors.Wrap` builds; it returns nil for a nil cause. */
  datatype StatsError = StatsError(status: int, publicMessage: string, privateMessage: string, cause: string)

  function Wrap(privateMessage: string, err: Option<string>): (r: Option<StatsError>)
    ensures r.None? <==> err.None?
    ensures r.Some? ==> r.value == StatsError(500, "Temporary server error", privateMessage, err.value)
  {
    match err
    case None => None
    case Some(e) => Some(StatsError(500, "Temporary server error", privateMessage, e))
  }

  const AvailabilityStatsError: string := "Failed to update availabliity statistics record"
  const MeetingStatsError: string := "Failed to update meeting statistics record"

  /** `p = p + :v`. */
  function IncrementClause(path: string): string {
    path + " = " + path + " + :v"
  }

  /** The text of a SET expression that increments each path, in order. */
  function Render(paths: seq<string>): string
    requires |paths| > 0
    decreases |paths|
  {
    if |paths| == 1 then "SET " + IncrementClause(paths[0])
    else Render(paths[..|paths| - 1]) + ", " + IncrementClause(paths[|paths| - 1])
  }

  /** Appending one clause to the text is rendering one more path. */
  lemma RenderSnoc(paths: seq<string>, path: string)
    requires |paths| > 0
    ensures Render(paths + [path]) == Render(paths) + ", " + IncrementClause(path)
  {
    assert (paths + [path])[..|paths|] == paths;
  }

  /** The attribute-name placeholder of the i-th bookable cohort. */
  function BookableName(i: nat): string {
    "#bc" + NatToString(i)
  }

  /** Distinct cohorts get distinct placeholders, none of them `#oc`. */
  lemma BookableNamesDistinct(i: nat, j: nat)
    ensures BookableName(i) == BookableName(j) ==> i == j
    ensures BookableName(i) != "#oc"
  {
    if BookableName(i) == BookableName(j) {
      PrefixedNatInjective("#bc", i, j);
    }
    assert BookableName(i)[1] == 'b';
  }

  /** The counters an availability's creation increments, in the order the expression lists them. */
  function CreationClauses(a: Availability): (paths: seq<string>)
    ensures |paths| == 2 + |a.cohorts| + |a.types|
    ensures paths[0] == "created" && paths[1] == "ownerCohorts.#oc"
    ensures forall i :: 0 <= i < |a.cohorts| ==> paths[2 + i] == "bookableCohorts." + BookableName(i)
    ensures forall i :: 0 <= i < |a.types| ==> paths[2 + |a.cohorts| + i] == "types." + a.types[i]
  {
    ["created", "ownerCohorts.#oc"]
    + seq(|a.cohorts|, i requires 0 <= i => "bookableCohorts." + BookableName(i))
    + seq(|a.types|, i requires 0 <= i < |a.types| => "types." + a.types[i])
  }

  /** Appends one clause per path to an expression already rendering `paths`, as the Go loops do. */
  method AppendClauses(expression: string, paths: seq<string>, more: seq<string>) returns (r: string)
    requires |paths| > 0 && expression == Render(paths)
    ensures r == Render(paths + more)
  {
    r := expression;
    assert paths + more[..0] == paths;
    for i := 0 to |more|
      invariant r == Render(paths + more[..i])
    {
      RenderSnoc(paths + more[..i], more[i]);
      assert paths + more[..i + 1] == paths + more[..i] + [more[i]];
      r := r + ", " + IncrementClause(more[i]);
    }
    assert more[..|more|] == more;
  }

  /** The update expression of `RecordAvailabilityCreation`: the fixed clauses, then one per cohort, then one per type. */
  method CreationExpression(a: Availability) returns (expression: string)
    ensures expression == Render(CreationClauses(a))
  {
    var clauses := CreationClauses(a);
    var fixed := ["created", "ownerCohorts.#oc"];
    var cohorts := seq(|a.cohorts|, i requires 0 <= i => "bookableCohorts." + BookableName(i));
    var types := seq(|a.types|, i requires 0 <= i < |a.types| => "types." + a.types[i]);
    assert fixed[..1] == ["created"];
    expression := "SET " + IncrementClause("created") + ", " + IncrementClause("ownerCohorts.#oc");
    expression := AppendClauses(expression, fixed, cohorts);
    expression := AppendClauses(expression, fixed + cohorts, types);
    assert fixed + cohorts + types == clauses;
  }

  /** The attribute names of `RecordAvailabilityCreation`: `#oc` for the owner's cohort, `#bc{i}` for cohort i. */
  method CreationNames(a: Availability) returns (names: map<string, string>)
    ensures "#oc" in names && names["#oc"] == a.ownerCohort
    ensures forall i :: 0 <= i < |a.cohorts| ==> BookableName(i) in names && names[BookableName(i)] == a.cohorts[i]
    ensures forall k :: k in names ==> k == "#oc" || exists i :: 0 <= i < |a.cohorts| && k == BookableName(i)
  {
    names := map["#oc" := a.ownerCohort];
    for i := 0 to |a.cohorts|
      invariant "#oc" in names && names["#oc"] == a.ownerCohort
      invariant forall j :: 0 <= j < i ==> BookableName(j) in names && names[BookableName(j)] == a.cohorts[j]
      invariant forall k :: k in names ==> k == "#oc" || exists j :: 0 <= j < i && k == BookableName(j)
    {
      var name := BookableName(i);
      BookableNamesDistinct(i, i);
      var before := names;
      names := names[name := a.cohorts[i]];
      forall j | 0 <= j < i + 1
        ensures BookableName(j) in names && names[BookableName(j)] == a.cohorts[j]
      {
        if j < i {
          BookableNamesDistinct(j, i);
          assert names[BookableName(j)] == before[BookableName(j)];
        }
      }
      assert forall k :: k in names ==> k == name || k in before;
    }
  }

  /**
   * `RecordAvailabilityCreation`: one update of the availability table's
   * statistics record that counts the creation, the owner's cohort, each
   * bookable cohort through its own placeholder, and each type by name.
   */
  method RecordAvailabilityCreation(a: Availability, updateItem: UpdateItem -> Option<string>)
    returns (item: UpdateItem, err: Option<StatsError>)
    ensures item.table == AvailabilityTable && item.key == AvailabilityStatsKey && item.values == Increment
    ensures item.expression == Render(CreationClauses(a))
    ensures "#oc" in item.names && item.names["#oc"] == a.ownerCohort
    ensures forall i :: 0 <= i < |a.cohorts| ==> BookableName(i) in item.names && item.names[BookableName(i)] == a.cohorts[i]
    ensures forall k :: k in item.names ==> k == "#oc" || exists i :: 0 <= i < |a.cohorts| && k == BookableName(i)
    ensures err == Wrap(AvailabilityStatsError, updateItem(item))
  {
    var expression := CreationExpression(a);
    var names := CreationNames(a);
    item := UpdateItem(AvailabilityTable, AvailabilityStatsKey, expression, names, Increment);
    err := Wrap(AvailabilityStatsError, updateItem(item));
  }

  /** The counters an availability's deletion increments. */
  const DeletionClauses: seq<string> := ["deleted", "deleterCohorts.#dc"]

  /** The update of `RecordAvailabilityDeletion`: counts the deletion and the availability owner's cohort under `deleterCohorts`. */
  function AvailabilityDeletion(a: Availability): (item: UpdateItem)
    ensures item.table == AvailabilityTable && item.key == AvailabilityStatsKey && item.values == Increment
    ensures item.expression == Render(DeletionClauses)
    ensures item.names == map["#dc" := a.ownerCohort]
  {
    assert DeletionClauses[..1] == ["deleted"];
    UpdateItem(AvailabilityTable, AvailabilityStatsKey,
               "SET " + IncrementClause("deleted") + ", " + IncrementClause("deleterCohorts.#dc"),
               map["#dc" := a.ownerCohort], Increment)
  }

  /** `RecordAvailabilityDeletion`: issues the deletion update and wraps a failure of it. */
  method RecordAvailabilityDeletion(a: Availability, updateItem: UpdateItem -> Option<string>)
    returns (item: UpdateItem, err: Option<StatsError>)
    ensures item.table == AvailabilityTable && item.key == AvailabilityStatsKey && item.values == Increment
    ensures item.expression == Render(DeletionClauses)
    ensures item.names == map["#dc" := a.ownerCohort]
    ensures err.None? <==> updateItem(item).None?
    ensures err.Some? ==> err.value == StatsError(500, "Temporary server error", AvailabilityStatsError, updateItem(item).value)
  {
    item := AvailabilityDeletion(a);
    err := Wrap(AvailabilityStatsError, updateItem(item));
  }

  /** Creating and deleting an availability never increment the same counter. */
  lemma CreationAndDeletionCountApart(a: Availability)
    ensures forall i :: 0 <= i < |CreationClauses(a)| ==> CreationClauses(a)[i] !in DeletionClauses
  {
    var paths := CreationClauses(a);
    forall i | 0 <= i < |paths|
      ensures paths[i] !in DeletionClauses
    {
      var p := paths[i];
      if i == 0 {
        assert p[0] == 'c';
      } else if i == 1 {
        assert p[0] == 'o';
      } else if i < 2 + |a.cohorts| {
        assert p == "bookableCohorts." + BookableName(i - 2);
        assert p[0] == 'b';
      } else {
        assert p == "types." + a.types[i - 2 - |a.cohorts|];
        assert p[0] == 't';
      }
      NotDeletionClause(p);
    }
  }

  /** Every deletion counter starts with 'd'. */
  lemma NotDeletionClause(p: string)
    requires |p| > 0 && p[0] != 'd'
    ensures p !in DeletionClauses
  {
    assert DeletionClauses[0][0] == 'd' && DeletionClauses[1][0] == 'd';
  }

  /** The deletion is counted under the owner's cohort, whoever deletes it. */
  lemma DeletionCountsOwnerCohort(a: Availability, b: Availability)
    requires a.ownerCohort == b.ownerCohort
    ensures AvailabilityDeletion(a) == AvailabilityDeletion(b)
  {
  }

  /** The first update of `RecordMeetingCreation`: one more booked availability. */
  const BookedUpdate: UpdateItem :=
    UpdateItem(AvailabilityTable, AvailabilityStatsKey, "SET " + IncrementClause("booked"), map[], Increment)

  /** The second update: the meeting table's record, counted by owner cohort, participant cohort and type. */
  function MeetingCreatedUpdate(meetingType: string, ownerCohort: string, participantCohort: string): (item: UpdateItem)
    ensures item.table == MeetingTable && item.key == MeetingStatsKey && item.values == Increment
    ensures item.expression == Render(["created", "#oc.#ockey", "#pc.#pckey", "types." + meetingType])
    ensures "#oc" in item.names && item.names["#oc"] == "ownerCohorts"
    ensures "#ockey" in item.names && item.names["#ockey"] == ownerCohort
    ensures "#pc" in item.names && item.names["#pc"] == "participantCohorts"
    ensures "#pckey" in item.names && item.names["#pckey"] == participantCohort
    ensures item.names.Keys == {"#oc", "#ockey", "#pc", "#pckey"}
  {
    var paths := ["created", "#oc.#ockey", "#pc.#pckey", "types." + meetingType];
    var expression := "SET " + IncrementClause("created") + ", " + IncrementClause("#oc.#ockey")
                      + ", " + IncrementClause("#pc.#pckey") + ", " + IncrementClause("types." + meetingType);
    assert paths[..1] == ["created"];
    assert Render(paths[..2]) == Render(paths[..1]) + ", " + IncrementClause("#oc.#ockey") by {
      assert paths[..2][..1] == paths[..1];
    }
    assert Render(paths[..3]) == Render(paths[..2]) + ", " + IncrementClause("#pc.#pckey") by {
      assert paths[..3][..2] == paths[..2];
    }
    assert Render(paths) == Render(paths[..3]) + ", " + IncrementClause("types." + meetingType);
    UpdateItem(MeetingTable, MeetingStatsKey, expression,
               map["#oc" := "ownerCohorts", "#ockey" := ownerCohort, "#pc" := "participantCohorts", "#pckey" := participantCohort],
               Increment)
  }

  /**
   * `RecordMeetingCreation`: the booked counter first; if that update
   * fails its error is returned and the meeting counters are not touched.
   * The first component lists the updates issued, in order.
   */
  function RecordMeetingCreation(meetingType: string, ownerCohort: string, participantCohort: string,
                                 updateItem: UpdateItem -> Option<string>)
    : (r: (seq<UpdateItem>, Option<StatsError>))
    ensures |r.0| > 0 && r.0[0] == BookedUpdate
    ensures |r.0| == 2 <==> updateItem(BookedUpdate).None?
    ensures |r.0| == 2 ==> r.0[1] == MeetingCreatedUpdate(meetingType, ownerCohort, participantCohort)
    ensures r.1.None? <==> forall i :: 0 <= i < |r.0| ==> updateItem(r.0[i]).None?
    ensures r.1.Some? ==> updateItem(r.0[|r.0| - 1]) == Some(r.1.value.cause)
    ensures r.1.Some? ==> r.1.value.status == 500 && r.1.value.publicMessage == "Temporary server error"
    ensures r.1.Some? ==> r.1.value.privateMessage == (if |r.0| == 1 then AvailabilityStatsError else MeetingStatsError)
  {
    var first := updateItem(BookedUpdate);
    if first.Some? then
      assert [BookedUpdate][0] == BookedUpdate;
      ([BookedUpdate], Wrap(AvailabilityStatsError, first))
    else
      var second := MeetingCreatedUpdate(meetingType, ownerCohort, participantCohort);
      assert [BookedUpdate, second][0] == BookedUpdate && [BookedUpdate, second][1] == second;
      ([BookedUpdate, second], Wrap(MeetingStatsError, updateItem(second)))
  }
}
