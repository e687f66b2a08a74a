/**
 * The conversation header: the typing indicator, the "last seen" wording,
 * and the name and subtitle shown for a group or a one-to-one chat.
 */
module ChatHeader {
  import opened Common
  import opened RtdbService

  const MINUTE_MS: int := 60000
  const HOUR_MS: int := 3600000

  /** getTypingText for the number of users typing. */
  function TypingText(typing: nat): (r: Option<string>)
    ensures r.None? <==> typing == 0
    ensures typing == 1 ==> r == Some("typing...")
    ensures typing >= 2 ==> r == Some(NatToString(typing) + " people typing...")
  {
    if typing == 0 then None
    else if typing == 1 then Some("typing...")
    else Some(NatToString(typing) + " people typing...")
  }

  /**
   * formatLastSeen for an elapsed time `diff` in milliseconds (Math.floor
   * is Dafny's division by a positive divisor); `localeDate` stands for the
   * locale-formatted date.
   */
  function FormatLastSeen(diff: int, localeDate: string): (r: string)
    ensures diff < MINUTE_MS ==> r == "just now"
    ensures MINUTE_MS <= diff < HOUR_MS ==> r == NatToString(diff / MINUTE_MS) + "m ago"
    ensures HOUR_MS <= diff < DAY_MS ==> r == NatToString(diff / HOUR_MS) + "h ago"
    ensures DAY_MS <= diff < 2 * DAY_MS ==> r == "yesterday"
    ensures 2 * DAY_MS <= diff ==> r == localeDate
  {
    var minutes := diff / MINUTE_MS;
    var hours := diff / HOUR_MS;
    var days := diff / DAY_MS;
    if minutes < 1 then "just now"
    else if minutes < 60 then NatToString(minutes) + "m ago"
    else if hours < 24 then NatToString(hours) + "h ago"
    else if days == 1 then "yesterday"
    else localeDate
  }

  /** The minute and hour labels count whole units and stay below the next unit. */
  lemma LastSeenUnits(diff: int)
    ensures MINUTE_MS <= diff < HOUR_MS ==> 1 <= diff / MINUTE_MS < 60
    ensures HOUR_MS <= diff < DAY_MS ==> 1 <= diff / HOUR_MS < 24
  {
  }

  /** What the header shows: name, subtitle line, whether a presence dot is shown, and whether the call buttons are. */
  datatype HeaderView = HeaderView(name: string, subtitle: string, isOnline: bool, showStatus: bool, callButtons: bool)

  /**
   * getDisplayInfo and the rendered status line. `now` is the current time
   * and `localeDate` the formatted date of the other user's last visit.
   */
  function Header(chat: Chat, otherUser: Option<Profile>, typing: nat, now: int, localeDate: string): (v: HeaderView)
    ensures v.callButtons <==> !chat.isGroup
    ensures v.showStatus <==> !chat.isGroup
    ensures typing > 0 ==> v.subtitle == TypingText(typing).value
    ensures typing == 0 && chat.isGroup ==>
      v.name == (if Truthy(chat.groupName) then chat.groupName.value else "Group")
      && v.subtitle == NatToString(|chat.members|) + " members"
    ensures typing == 0 && !chat.isGroup && otherUser.None? ==> v.name == "Unknown" && v.subtitle == ""
    ensures typing == 0 && !chat.isGroup && otherUser.Some? ==>
      v.subtitle == (if otherUser.value.isOnline then "Online"
                     else if LastSeenOf(otherUser.value).Some? then
                       "Last seen " + FormatLastSeen(now - LastSeenOf(otherUser.value).value, localeDate)
                     else "Offline")
    ensures v.isOnline <==> !chat.isGroup && otherUser.Some? && otherUser.value.isOnline
  {
    var typingLine := if typing > 0 then TypingText(typing) else None;
    if chat.isGroup then
      var name := if Truthy(chat.groupName) then chat.groupName.value else "Group";
      HeaderView(name, OrElse(typingLine, NatToString(|chat.members|) + " members"), false, false, false)
    else if otherUser.Some? then
      var u := otherUser.value;
      var presence :=
        if u.isOnline then "Online"
        else if LastSeenOf(u).Some? then "Last seen " + FormatLastSeen(now - LastSeenOf(u).value, localeDate)
        else "Offline";
      HeaderView(OtherName(u), OrElse(typingLine, presence), u.isOnline, true, true)
    else HeaderView("Unknown", OrElse(typingLine, ""), false, true, true)
  }

  /** The typing line when someone types, else the status line. */
  function OrElse(typingLine: Option<string>, status: string): (r: string)
    ensures typingLine.Some? ==> r == typingLine.value
    ensures typingLine.None? ==> r == status
  {
    if typingLine.Some? then typingLine.value else status
  }

  /** `lastSeen` when set and non-zero. */
  function LastSeenOf(u: Profile): (r: Option<int>)
    ensures r.Some? ==> r.value != 0
  {
    if u.Profile? && u.lastSeen.Some? && u.lastSeen.value != 0 then u.lastSeen else None
  }

  /** `displayName || username`; an absent username renders as nothing. */
  function OtherName(u: Profile): (r: string)
    ensures u.Profile? && Truthy(u.displayName) ==> r == u.displayName.value
  {
    if u.Profile? && Truthy(u.displayName) then u.displayName.value
    else if u.Profile? && u.username.Some? then u.username.value
    else ""
  }
}
