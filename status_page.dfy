/** The status page's viewer, a small state machine over the statuses being viewed, and the "my status" label. */
module StatusPage {
  import opened Common
  import opened RtdbService

  /** The viewer's state cells: the statuses being viewed, the index shown, and whether the viewer is open. */
  class StatusViewer {
    var viewing: Option<seq<StatusItem>>
    var index: nat
    var open: bool

    constructor()
      ensures viewing.None? && index == 0 && !open
    {
      viewing, index, open := None, 0, false;
    }

    /** The index points at one of the statuses being viewed. */
    predicate IndexValid()
      reads this
    {
      viewing.Some? ==> index < |viewing.value|
    }

    /** openStatusViewer: the statuses, the index (0 by default at the call sites), and the viewer opened. */
    method OpenStatusViewer(statuses: seq<StatusItem>, at: nat)
      modifies this
      ensures viewing == Some(statuses) && index == at && open
      ensures IndexValid() <==> at < |statuses|
    {
      viewing, index, open := Some(statuses), at, true;
    }

    /** nextStatus: nothing without statuses; advance while not at the last one, otherwise close and keep the index. */
    method NextStatus()
      modifies this
      ensures viewing == old(viewing)
      ensures viewing.None? ==> index == old(index) && open == old(open)
      ensures viewing.Some? && old(index) + 1 < |viewing.value| ==> index == old(index) + 1 && open == old(open)
      ensures viewing.Some? && old(index) + 1 >= |viewing.value| ==> index == old(index) && !open
      ensures old(IndexValid()) ==> IndexValid()
    {
      if viewing.None? {
        return;
      }
      if index < |viewing.value| - 1 {
        index := index + 1;
      } else {
        open := false;
      }
    }

    /** prevStatus: step back only when not at the first status, so the index never goes below zero. */
    method PrevStatus()
      modifies this
      ensures viewing == old(viewing) && open == old(open)
      ensures index == if old(index) > 0 then old(index) - 1 else 0
      ensures old(IndexValid()) ==> IndexValid()
    {
      if index > 0 {
        index := index - 1;
      }
    }
  }

  /**
   * Starting from any valid position, repeated nextStatus calls walk to the
   * last status and then close the viewer: it is closed after as many calls
   * as there are statuses left.
   */
  method WalkToEnd(viewer: StatusViewer) returns (steps: nat)
    requires viewer.viewing.Some? && viewer.IndexValid()
    modifies viewer
    ensures viewer.viewing == old(viewer.viewing)
    ensures steps == |viewer.viewing.value| - old(viewer.index)
    ensures !viewer.open && viewer.index == |viewer.viewing.value| - 1
  {
    steps := 0;
    var done := false;
    while !done
      invariant viewer.viewing == old(viewer.viewing) && viewer.IndexValid()
      invariant !done ==> viewer.index == old(viewer.index) + steps
      invariant done ==> !viewer.open && viewer.index == |viewer.viewing.value| - 1
                         && steps == |viewer.viewing.value| - old(viewer.index)
      decreases |viewer.viewing.value| - viewer.index, if done then 0 else 1
    {
      var last := viewer.index + 1 >= |viewer.viewing.value|;
      viewer.NextStatus();
      steps := steps + 1;
      done := last;
    }
  }

  /** The "my status" line. */
  function StatusCountLabel(n: nat): (r: string)
    ensures n == 0 ==> r == "Tap to add status"
    ensures n > 0 ==> |r| > |NatToString(n)| && r[..|NatToString(n)|] == NatToString(n)
  {
    if n == 0 then "Tap to add status"
    else NatToString(n) + " status update" + (if n > 1 then "s" else "")
  }

  /** The label is in the singular exactly for one status. */
  lemma PluralIffMany(n: nat)
    requires n > 0
    ensures var r := StatusCountLabel(n); (r[|r| - 1] == 's') <==> n > 1
  {
  }
}
