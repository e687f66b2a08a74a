/** The in-call screen: the duration clock, the status line, what is rendered, and the mute and camera buttons. */
module CallScreen {
  import opened Common
  import opened RtdbService
  import opened CallContext

  /** The seconds field of the clock: two digits. */
  function SecondsField(s: nat): (r: string)
    requires s < 60
    ensures |r| == 2 && '0' <= r[0] <= '5' && '0' <= r[1] <= '9'
  {
    [DigitChar(s / 10), DigitChar(s % 10)]
  }

  /** Distinct seconds give distinct fields. */
  lemma SecondsFieldInjective(a: nat, b: nat)
    requires a < 60 && b < 60 && SecondsField(a) == SecondsField(b)
    ensures a == b
  {
    assert DigitChar(a / 10) == DigitChar(b / 10) && DigitChar(a % 10) == DigitChar(b % 10);
    assert a / 10 == b / 10 && a % 10 == b % 10;
  }

  /** `secs.toString().padStart(2, "0")` is that field. */
  lemma PaddedSeconds(s: nat)
    requires s < 60
    ensures PadStart2(NatToString(s)) == SecondsField(s)
  {
    if s >= 10 {
      assert s / 10 < 10;
      assert NatToString(s / 10) == [DigitChar(s / 10)];
      assert NatToString(s) == [DigitChar(s / 10), DigitChar(s % 10)];
    } else {
      assert s / 10 == 0 && s % 10 == s;
      assert NatToString(s) == [DigitChar(s)];
      assert PadStart2([DigitChar(s)]) == [DigitChar(0), DigitChar(s)];
    }
  }

  /** formatDuration: whole minutes, a colon, and the remaining seconds padded to two digits. */
  function FormatDuration(seconds: nat): (r: string)
    ensures |r| == |NatToString(seconds / 60)| + 3
    ensures r[..|r| - 3] == NatToString(seconds / 60)
    ensures r[|r| - 3] == ':'
    ensures r[|r| - 2..] == SecondsField(seconds % 60)
  {
    var minutes, secs := seconds / 60, seconds % 60;
    PaddedSeconds(secs);
    NatToString(minutes) + ":" + PadStart2(NatToString(secs))
  }

  /** Distinct durations are displayed differently. */
  lemma FormatDurationInjective(a: nat, b: nat)
    requires FormatDuration(a) == FormatDuration(b)
    ensures a == b
  {
    var ra, rb := FormatDuration(a), FormatDuration(b);
    assert NatToString(a / 60) == ra[..|ra| - 3] == rb[..|rb| - 3] == NatToString(b / 60);
    NatToStringInjective(a / 60, b / 60);
    assert SecondsField(a % 60) == ra[|ra| - 2..] == rb[|rb| - 2..] == SecondsField(b % 60);
    SecondsFieldInjective(a % 60, b % 60);
  }

  /** The status line: "Calling..." while ringing, "Connecting...", the running clock once connected, otherwise nothing. */
  function StatusText(callStatus: Option<ClientStatus>, duration: nat): (r: string)
    ensures callStatus == Some(Stored(Ringing)) ==> r == "Calling..."
    ensures callStatus == Some(Connecting) ==> r == "Connecting..."
    ensures callStatus == Some(ClientStatus.Connected) ==> r == FormatDuration(duration)
    ensures r == "" <==> callStatus !in {Some(Stored(Ringing)), Some(Connecting), Some(ClientStatus.Connected)}
  {
    match callStatus
    case Some(Stored(Ringing)) => "Calling..."
    case Some(Connecting) => "Connecting..."
    case Some(Connected) => FormatDuration(duration)
    case _ => ""
  }

  /** Whether the screen renders and, if so, whether it shows the video elements. */
  function Rendered(currentCall: Option<CurrentCall>): (r: Option<bool>)
    ensures r.None? <==> currentCall.None?
    ensures r.Some? ==> (r.value <==> currentCall.value.kind == "video")
  {
    if currentCall.None? then None else Some(currentCall.value.kind == "video")
  }

  /** The screen's own flags, set from what the session's toggles return. */
  class ScreenState {
    var isMuted: bool
    var isVideoOff: bool

    constructor()
      ensures !isMuted && !isVideoOff
    {
      isMuted, isVideoOff := false, false;
    }

    /** handleToggleMute: the flag becomes exactly what toggleMute returned. */
    method HandleToggleMute(session: CallSession)
      modifies this, session.localStream
      ensures isVideoOff == old(isVideoOff)
      ensures session.localStream == null ==> !isMuted
      ensures session.localStream != null ==>
        && session.localStream.tracks == Toggled(old(session.localStream.tracks), "audio")
        && (isMuted <==> match FirstOfKind(old(session.localStream.tracks), "audio")
                         case None => false
                         case Some(i) => !session.localStream.tracks[i].enabled)
    {
      var muted := session.ToggleMute();
      isMuted := muted;
    }

    /** handleToggleVideo: the flag becomes exactly what toggleVideo returned. */
    method HandleToggleVideo(session: CallSession)
      modifies this, session.localStream
      ensures isMuted == old(isMuted)
      ensures session.localStream == null ==> !isVideoOff
      ensures session.localStream != null ==>
        && session.localStream.tracks == Toggled(old(session.localStream.tracks), "video")
        && (isVideoOff <==> match FirstOfKind(old(session.localStream.tracks), "video")
                            case None => false
                            case Some(i) => !session.localStream.tracks[i].enabled)
    {
      var off := session.ToggleVideo();
      isVideoOff := off;
    }
  }
}
