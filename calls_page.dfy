/** The call-history page: the other party and direction of each call, and its status label and icon. */
module CallsPage {
  import opened Common
  import opened RtdbService

  /** A history row: the call, the other party's uid and whether the current user placed it. */
  datatype CallRow = CallRow(call: CallRecord, otherUid: string, isOutgoing: bool)

  function Row(call: CallRecord, uid: string): (r: CallRow)
    ensures r.call == call
    ensures r.isOutgoing <==> call.callerId == uid
    ensures r.otherUid == if r.isOutgoing then call.calleeId else call.callerId
  {
    var outgoing := call.callerId == uid;
    CallRow(call, if outgoing then call.calleeId else call.callerId, outgoing)
  }

  /** For a call between two distinct users that involves the current user, the other party is the other participant. */
  lemma RowNamesTheOtherParty(call: CallRecord, uid: string)
    requires Involves(call, uid) && call.callerId != call.calleeId
    ensures Row(call, uid).otherUid != uid
    ensures {Row(call, uid).otherUid, uid} == {call.callerId, call.calleeId}
  {
  }

  /** The status as stored. */
  function StatusName(status: CallStatus): string
  {
    match status
    case Ringing => "ringing"
    case Accepted => "accepted"
    case Rejected => "rejected"
    case Ended => "ended"
  }

  /** getCallStatus: finished calls are labelled by direction, any other status shows as stored. */
  function CallStatusLabel(status: CallStatus, isOutgoing: bool): (r: string)
    ensures status == Ended ==> r == (if isOutgoing then "Outgoing" else "Incoming")
    ensures status == Rejected ==> r == (if isOutgoing then "Not answered" else "Declined")
    ensures status != Ended && status != Rejected ==> r == StatusName(status)
  {
    match status
    case Ended => if isOutgoing then "Outgoing" else "Incoming"
    case Rejected => if isOutgoing then "Not answered" else "Declined"
    case _ => StatusName(status)
  }

  /** The six labels are pairwise distinct, so a row's label determines its status and, for finished calls, its direction. */
  lemma StatusLabelInjective(s1: CallStatus, o1: bool, s2: CallStatus, o2: bool)
    requires CallStatusLabel(s1, o1) == CallStatusLabel(s2, o2)
    ensures s1 == s2
    ensures (s1 == Ended || s1 == Rejected) ==> o1 == o2
  {
  }

  /** getCallIcon: the camera or the handset, then an arrow out or in. */
  function CallIcon(kind: string, isOutgoing: bool): (r: string)
    ensures |r| == 2
    ensures r[0] == (if kind == "video" then '\U{1F4F9}' else '\U{1F4DE}')
    ensures r[1] == (if isOutgoing then '\U{2197}' else '\U{2199}')
  {
    (if kind == "video" then "\U{1F4F9}" else "\U{1F4DE}") + (if isOutgoing then "\U{2197}" else "\U{2199}")
  }
}
