/** The notifications page (app/notifications/page.tsx): the sentence shown
    for each notification type, the actor name and the unread marker. */
module NotificationsPage {
  import opened Common
  import opened Types

  /** The `switch` on the notification type. */
  function ActionText(kind: NotificationKind): (r: string)
    ensures kind == "like" ==> r == "нравится ваша публикация"
    ensures kind == "comment" ==> r == "прокомментировал(а) вашу публикацию"
    ensures kind == "follow" ==> r == "подписался(ась) на вас"
    ensures kind == "mention" ==> r == "упомянул(а) вас в комментарии"
    ensures kind == "message" ==> r == "отправил(а) вам сообщение"
    ensures kind !in {"like", "comment", "follow", "mention", "message"} ==> r == "действие"
  {
    match kind
    case "like" => "нравится ваша публикация"
    case "comment" => "прокомментировал(а) вашу публикацию"
    case "follow" => "подписался(ась) на вас"
    case "mention" => "упомянул(а) вас в комментарии"
    case "message" => "отправил(а) вам сообщение"
    case _ => "действие"
  }

  /** The five known types read as five different sentences, none of them
      the fallback. */
  lemma KnownTypesAreDistinguished(a: NotificationKind, b: NotificationKind)
    requires a in {"like", "comment", "follow", "mention", "message"}
    requires b in {"like", "comment", "follow", "mention", "message"}
    ensures ActionText(a) == ActionText(b) <==> a == b
    ensures ActionText(a) != "действие"
  {
  }

  /** `actor?.username || "Кто-то"`. */
  function ActorName(n: Notification): (r: string)
    ensures n.actor.Some? && n.actor.value.username != "" ==> r == n.actor.value.username
    ensures !(n.actor.Some? && n.actor.value.username != "") ==> r == "Кто-то"
  {
    if n.actor.Some? && n.actor.value.username != "" then n.actor.value.username else "Кто-то"
  }

  /** The blue dot. */
  predicate ShowsUnreadMarker(n: Notification) {
    !n.isRead
  }

  /** The load effect: without a signed-in user nothing is fetched and
      loading ends; otherwise the fetched list (or the old one on a throw). */
  function AfterLoad(current: seq<Notification>, signedIn: bool, fetched: Result<seq<Notification>>)
    : (r: (seq<Notification>, bool))
    ensures !r.1
    ensures !signedIn ==> r.0 == current
    ensures signedIn ==> r.0 == if fetched.Ok? then fetched.value else current
  {
    if signedIn && fetched.Ok? then (fetched.value, false) else (current, false)
  }
}
