/**
 * One row of the conversation list: the other member of a one-to-one chat,
 * the name shown, the last-message preview and the time bucket.
 */
module ChatListItem {
  import opened Common
  import opened RtdbService

  /** The labels as they appear in the file: UTF-8 emoji bytes read back as Windows-1252 characters. */
  const PHOTO_LABEL := "\U{F0}\U{178}\U{201C}\U{B7} Photo"
  const VOICE_LABEL := "\U{F0}\U{178}\U{17D}\U{A4} Voice message"
  const FILE_PREFIX := "\U{F0}\U{178}\U{201C}\U{17D} "

  /** The fields of the last message the preview reads. */
  datatype LastMessage = LastMessage(kind: string, text: Option<string>, fileName: Option<string>)

  /** `memberIds.find(id => id !== uid)`: the first member id other than the current user. */
  function OtherMember(memberIds: seq<string>, uid: string): (r: Option<string>)
    ensures r.Some? ==> r.value in memberIds && r.value != uid
    ensures r.None? <==> forall i :: 0 <= i < |memberIds| ==> memberIds[i] == uid
  {
    if |memberIds| == 0 then None
    else if memberIds[0] != uid then Some(memberIds[0])
    else OtherMember(memberIds[1..], uid)
  }

  /** The member found is the first one that differs: every id before it is the current user's. */
  lemma {:induction false} OtherMemberIsFirst(memberIds: seq<string>, uid: string, i: nat)
    requires i < |memberIds| && memberIds[i] != uid
    requires forall j :: 0 <= j < i ==> memberIds[j] == uid
    ensures OtherMember(memberIds, uid) == Some(memberIds[i])
  {
    if i > 0 {
      OtherMemberIsFirst(memberIds[1..], uid, i - 1);
    }
  }

  /** In a one-to-one chat between two distinct users each side finds the other. */
  lemma OtherMemberOfPair(a: string, b: string)
    requires a != b
    ensures OtherMember([a, b], a) == Some(b) && OtherMember([a, b], b) == Some(a)
  {
  }

  /** getMessagePreview. */
  function MessagePreview(last: Option<LastMessage>): (r: string)
    ensures last.None? ==> r == "No messages yet"
    ensures last.Some? && last.value.kind == "image" ==> r == PHOTO_LABEL
    ensures last.Some? && last.value.kind == "audio" ==> r == VOICE_LABEL
    ensures last.Some? && last.value.kind == "file" ==>
      r == FILE_PREFIX + (if Truthy(last.value.fileName) then last.value.fileName.value else "File")
    ensures last.Some? && last.value.kind !in {"image", "audio", "file"} ==>
      r == (if Truthy(last.value.text) then last.value.text.value else "")
  {
    match last
    case None => "No messages yet"
    case Some(m) =>
      if m.kind == "image" then PHOTO_LABEL
      else if m.kind == "audio" then VOICE_LABEL
      else if m.kind == "file" then FILE_PREFIX + (if Truthy(m.fileName) then m.fileName.value else "File")
      else if Truthy(m.text) then m.text.value else ""
  }

  /** A text message's preview is its text, and a media preview never passes for one: the label prefixes differ from "No messages yet". */
  lemma PreviewOfText(text: string)
    requires |text| > 0
    ensures MessagePreview(Some(LastMessage("text", Some(text), None))) == text
    ensures MessagePreview(Some(LastMessage("image", None, None))) != MessagePreview(None)
  {
  }

  /** The name and presence shown for the row. */
  datatype RowInfo = RowInfo(name: string, isOnline: bool)

  /** getDisplayInfo: a group is never online; a known user's display name, else username, else "User". */
  function DisplayInfo(isGroup: bool, groupName: Option<string>, otherUser: Option<Profile>): (r: RowInfo)
    ensures isGroup ==> r == RowInfo(if Truthy(groupName) then groupName.value else "Group", false)
    ensures !isGroup && otherUser.None? ==> r == RowInfo("Loading...", false)
    ensures !isGroup && otherUser.Some? ==> r.isOnline == otherUser.value.isOnline && |r.name| > 0
  {
    if isGroup then RowInfo(if Truthy(groupName) then groupName.value else "Group", false)
    else if otherUser.Some? then
      var u := otherUser.value;
      RowInfo(if u.Profile? && Truthy(u.displayName) then u.displayName.value
              else if u.Profile? && Truthy(u.username) then u.username.value
              else "User",
              u.isOnline)
    else RowInfo("Loading...", false)
  }

  /** The three locale renderings formatTime chooses among: clock time, weekday, month and day. */
  datatype LocaleLabels = LocaleLabels(time: string, weekday: string, monthDay: string)

  /**
   * formatTime, shared by the conversation list and the call history. A
   * missing or zero timestamp gives "". A timestamp in the future gives a
   * negative day count and therefore the weekday.
   */
  function FormatTime(timestamp: Option<int>, now: int, labels: LocaleLabels): (r: string)
    ensures timestamp.None? || timestamp.value == 0 ==> r == ""
    ensures timestamp.Some? && timestamp.value != 0 ==>
      var diff := now - timestamp.value;
      && (0 <= diff < DAY_MS ==> r == labels.time)
      && (DAY_MS <= diff < 2 * DAY_MS ==> r == "Yesterday")
      && ((diff < 0 || 2 * DAY_MS <= diff < 7 * DAY_MS) ==> r == labels.weekday)
      && (7 * DAY_MS <= diff ==> r == labels.monthDay)
  {
    if timestamp.None? || timestamp.value == 0 then ""
    else
      var days := (now - timestamp.value) / DAY_MS;
      if days == 0 then labels.time
      else if days == 1 then "Yesterday"
      else if days < 7 then labels.weekday
      else labels.monthDay
  }
}
