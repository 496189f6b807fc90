/**
 * The bullet list of frontend/src/upsell/UpsellDialog.tsx: the default
 * restricted actions, the reordering that puts the action the user just
 * tried first, and the first six items shown before "And more!".
 */
module Upsell {
  import opened Wrappers
  import opened Seqs

  const AccessAllTasks: string := "Access all training plan tasks for all cohorts (0-2500)"
  const AccessOpenings: string := "Access all opening courses"
  const AddCalendarEvents: string := "Add events to the Dojo Calendar"
  const SubmitGames: string := "View the full Dojo Database and submit games"
  const JoinScoreboard: string := "Get added to the Dojo Scoreboard"
  const JoinDiscord: string := "Join the Training Program Discord server"
  const Graduate: string := "Graduate and get featured in the graduation shows on Twitch"
  const DownloadDatabase: string := "Download the full Dojo Database"
  const SearchDatabase: string := "Search the Dojo Database by player"

  /** The bullet points used when the caller passes none. */
  const DefaultBulletPoints: seq<string> :=
    [AccessAllTasks, AccessOpenings, AddCalendarEvents, SubmitGames, JoinScoreboard, JoinDiscord, Graduate]

  /** How many bullet points the dialog lists before its closing "And more!". */
  const MaxShown: nat := 6

  /**
   * The bullet points after the props are applied: the defaults when none
   * are given, and a non-empty current action moved to the front with every
   * other copy of it removed.
   */
  function BulletPoints(given: Option<seq<string>>, currentAction: Option<string>): (r: seq<string>)
    ensures var base := given.GetOr(DefaultBulletPoints);
            && (currentAction.None? || currentAction.value == "" ==> r == base)
            && (currentAction.Some? && currentAction.value != "" ==>
                  |r| > 0 && r[0] == currentAction.value && r[1..] == Remove(base, currentAction.value))
  {
    var base := given.GetOr(DefaultBulletPoints);
    if currentAction.Some? && currentAction.value != "" then
      [currentAction.value] + Remove(base, currentAction.value)
    else base
  }

  /**
   * Reordering keeps the list a rearrangement of the original plus the
   * current action: that action occurs exactly once, every other item as
   * often as before.
   */
  lemma ReorderCounts(given: Option<seq<string>>, action: string, x: string)
    requires action != ""
    ensures var base := given.GetOr(DefaultBulletPoints);
            var r := BulletPoints(given, Some(action));
            && Count(r, action) == 1
            && |r| == 1 + |base| - Count(base, action)
            && (x != action ==> Count(r, x) == Count(base, x))
  {
    var base := given.GetOr(DefaultBulletPoints);
    var rest := Remove(base, action);
    assert BulletPoints(given, Some(action)) == [action] + rest;
    FilterOutLength(base, action);
    CountAppend([action], rest, action);
    if x != action {
      FilterOutKeepsOthers(base, action, x);
      CountAppend([action], rest, x);
    }
  }

  /** The items listed: at most the first six bullet points, then "And more!". */
  function Rendered(bulletPoints: seq<string>): (items: seq<string>)
    ensures |items| == 1 + (if |bulletPoints| < MaxShown then |bulletPoints| else MaxShown)
    ensures items[|items| - 1] == "And more!"
    ensures forall i :: 0 <= i < |items| - 1 ==> items[i] == bulletPoints[i]
  {
    var n := if |bulletPoints| < MaxShown then |bulletPoints| else MaxShown;
    bulletPoints[..n] + ["And more!"]
  }

  /** With no props, the dialog lists the first six defaults; the seventh only shows when another is moved out. */
  lemma DefaultRendering()
    ensures Rendered(BulletPoints(None, None)) == DefaultBulletPoints[..6] + ["And more!"]
    ensures Graduate !in Rendered(BulletPoints(None, None))
  {
  }

  /** The action the user tried is always the first item listed. */
  lemma CurrentActionListedFirst(given: Option<seq<string>>, action: string)
    requires action != ""
    ensures Rendered(BulletPoints(given, Some(action)))[0] == action
  {
  }
}
