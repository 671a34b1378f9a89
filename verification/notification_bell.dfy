/** `NotificationBell`: the bell icon in the header with the unread-count badge. */
module NotificationBell {
  import opened Wrappers
  import Strings

  /** The badge text: none for a count of zero or less, "9+" above nine, otherwise the count. */
  function BadgeText(unreadCount: int): (r: Option<string>)
    ensures r.None? <==> unreadCount <= 0
    ensures r == Some("9+") <==> unreadCount > 9
    ensures 1 <= unreadCount <= 9 ==> r.Some? && |r.value| == 1
                                      && Strings.ParseNat(r.value) == Some(unreadCount)
  {
    if unreadCount <= 0 then None
    else if unreadCount > 9 then Some("9+")
    else
      Strings.ParseNatToString(unreadCount);
      Some(Strings.IntToString(unreadCount))
  }
}
