/**
 * The text of a notification, frontend/src/database/notification.ts:
 * a game-comment notification is titled with the game's players and has a
 * fixed description.
 */
module Notification {
  import opened Wrappers
  import opened Strings

  datatype NotificationType = GameComment

  datatype GameCommentMetadata = GameCommentMetadata(cohort: string, id: string, headers: Option<map<string, string>>)

  datatype Notification = Notification(
    id: string,
    notificationType: NotificationType,
    updatedAt: string,
    gameCommentMetadata: Option<GameCommentMetadata>)

  /** `gameCommentMetadata?.headers?.[name]`. */
  function Header(n: Notification, name: string): (v: Option<string>)
    ensures v.Some? <==> n.gameCommentMetadata.Some? && n.gameCommentMetadata.value.headers.Some?
                         && name in n.gameCommentMetadata.value.headers.value
  {
    match n.gameCommentMetadata
    case None => None
    case Some(md) =>
      match md.headers
      case None => None
      case Some(h) => if name in h then Some(h[name]) else None
  }

  /** The title: the White player, " - ", the Black player. */
  function GetTitle(n: Notification): string
  {
    match n.notificationType
    case GameComment => Interpolate(Header(n, "White")) + " - " + Interpolate(Header(n, "Black"))
  }

  const GameCommentDescription: string := "There are new comments on your game."

  function GetDescription(n: Notification): (d: string)
    ensures n.notificationType == GameComment ==> d == GameCommentDescription
  {
    match n.notificationType
    case GameComment => GameCommentDescription
  }

  /** A game with both players named is titled by exactly those names. */
  lemma TitleOfNamedGame(n: Notification, md: GameCommentMetadata, white: string, black: string)
    requires n.gameCommentMetadata == Some(md) && md.headers.Some?
    requires "White" in md.headers.value && md.headers.value["White"] == white
    requires "Black" in md.headers.value && md.headers.value["Black"] == black
    ensures GetTitle(n) == white + " - " + black
  {
  }

  /** Without metadata both names read `undefined`. */
  lemma TitleWithoutMetadata(n: Notification)
    requires n.gameCommentMetadata.None?
    ensures GetTitle(n) == "undefined - undefined"
  {
  }

  /** Neither text depends on the notification's id or update time. */
  lemma TextIgnoresIdAndTime(n: Notification, id: string, updatedAt: string)
    ensures GetTitle(n.(id := id, updatedAt := updatedAt)) == GetTitle(n)
    ensures GetDescription(n.(id := id, updatedAt := updatedAt)) == GetDescription(n)
  {
  }
}
