/**
 * The notifications page: the relative-time label of each card, the actions
 * offered on a card, and the "mark all as read" button. The current time is
 * not read here: the label takes the difference `now - timestamp` in
 * milliseconds as its input.
 */
module NotificationsPage {
  import opened Wrappers
  import Text
  import opened Notifications

  /** `1000 * 60` and `1000 * 60 * 60` */
  const MsPerMinute: int := 60000
  const MsPerHour: int := 3600000

  /** `formatTimeAgo`: whole minutes under an hour, whole hours from then on
      (both `Math.floor` of the quotient). */
  function FormatTimeAgo(diffMs: int): (r: string)
    ensures diffMs < MsPerHour ==> r == Text.IntToString(diffMs / MsPerMinute) + " min atrás"
    ensures diffMs >= MsPerHour ==>
              diffMs / MsPerHour >= 1 && r == Text.NatToString(diffMs / MsPerHour) + "h atrás"
  {
    var diffMins := diffMs / MsPerMinute;
    var diffHours := diffMs / MsPerHour;
    if diffMins < 60 then Text.IntToString(diffMins) + " min atrás"
    else Text.IntToString(diffHours) + "h atrás"
  }

  /** The number shown under an hour reads back as the whole minutes elapsed. */
  lemma MinutesLabelReadsBack(diffMs: int)
    requires 0 <= diffMs < MsPerHour
    ensures var m := diffMs / MsPerMinute;
            && FormatTimeAgo(diffMs) == Text.NatToString(m) + " min atrás"
            && Text.ParseNat(Text.NatToString(m)) == m
            && m * MsPerMinute <= diffMs < (m + 1) * MsPerMinute
            && m < 60
  {
    var m := diffMs / MsPerMinute;
    assert diffMs == m * MsPerMinute + diffMs % MsPerMinute;
    Text.ParseNatOfNatToString(m);
  }

  /** The hour boundary: one millisecond short of an hour is still counted in minutes. */
  lemma HourBoundary()
    ensures FormatTimeAgo(3599999) == "59 min atrás"
    ensures FormatTimeAgo(3600000) == "1h atrás"
  {
    assert 3599999 / MsPerMinute == 59 && 3600000 / MsPerHour == 1;
    assert Text.NatToString(59) == Text.NatToString(5) + [Text.DigitChar(9)] == "59";
    assert Text.NatToString(1) == "1";
  }

  datatype CardAction = TryReconnect | MarkRead | DismissCard

  /** The buttons rendered on a notification card, left to right. */
  function CardActions(n: Notification): (r: seq<CardAction>)
    ensures TryReconnect in r <==>
              n.kind == ReconnectionExpired && n.instanceId.Some? && n.instanceId.value != ""
    ensures MarkRead in r <==> !n.isRead
    ensures |r| >= 1 && r[|r| - 1] == DismissCard
  {
    var reconnect := n.kind == ReconnectionExpired && n.instanceId.Some? && n.instanceId.value != "";
    (if reconnect then [TryReconnect] else [])
    + (if !n.isRead then [MarkRead] else [])
    + [DismissCard]
  }

  /** `disabled={unreadCount === 0}` on "mark all as read". */
  function MarkAllDisabled(ns: seq<Notification>): (r: bool)
    ensures r <==> forall i :: 0 <= i < |ns| ==> ns[i].isRead
  {
    UnreadCountZeroIffAllRead(ns);
    UnreadCount(ns) == 0
  }

  /** After marking an id as read, no card with that id offers "mark as read". */
  lemma MarkAsReadHidesMarkRead(ns: seq<Notification>, id: string)
    ensures forall i :: 0 <= i < |ns| && ns[i].id == id ==> MarkRead !in CardActions(MarkAsRead(ns, id)[i])
  {
  }

  /** After marking all as read, the button is disabled. */
  lemma MarkAllAsReadDisablesButton(ns: seq<Notification>)
    ensures MarkAllDisabled(MarkAllAsRead(ns))
  {
  }
}
