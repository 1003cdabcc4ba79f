/** How the gap checker reports a green-pixel count: a four-tier severity
    and the two page elements that show it, the alert box `#gap-alert` and
    the ratio label `#gap-ratio`. The colours and the wording of the texts
    are fixed per tier, so a label is described by its tier and its count. */
module Severity {

  import opened Wrappers
  import Styles

  datatype GapTier = NoGap | Slight | Warning | Critical

  /** Rank of a tier, from 0 (no gap) to 3 (critical). */
  function Rank(t: GapTier): nat {
    match t
    case NoGap => 0
    case Slight => 1
    case Warning => 2
    case Critical => 3
  }

  /** The branches of the report: 0, then 1..10, then 11..49, then the rest. */
  function Classify(count: nat): (t: GapTier)
    ensures t == NoGap <==> count == 0
    ensures t == Slight <==> 1 <= count <= 10
    ensures t == Warning <==> 11 <= count <= 49
    ensures t == Critical <==> count >= 50
  {
    if count == 0 then NoGap
    else if count >= 1 && count <= 10 then Slight
    else if count > 10 && count < 50 then Warning
    else Critical
  }

  /** Each boundary falls on the stated side. */
  lemma Boundaries()
    ensures Classify(0) == NoGap && Classify(1) == Slight
    ensures Classify(10) == Slight && Classify(11) == Warning
    ensures Classify(49) == Warning && Classify(50) == Critical
  {
  }

  /** A larger gap never gets a milder tier. */
  lemma ClassifyMonotone(a: nat, b: nat)
    requires a <= b
    ensures Rank(Classify(a)) <= Rank(Classify(b))
  {
  }

  /** A text label of the report: the tier picks colour and wording, the
      count is printed in it. */
  datatype Message = Message(tier: GapTier, count: nat)

  /** The alert box: its `display` and the message it last received
      (`None` while it still shows the page's initial content). */
  datatype Alert = Alert(display: Styles.Display, message: Option<Message>)

  /** The alert after a check that counted `count` pixels. With no gap the
      box is only hidden; its colour and text keep what the previous check
      wrote. */
  function AlertAfter(prev: Alert, count: nat): (a: Alert)
    ensures a.display == Styles.Block <==> count > 0
    ensures a.display == Styles.Hidden <==> count == 0
    ensures count == 0 ==> a.message == prev.message
    ensures count > 0 ==> a.message == Some(Message(Classify(count), count))
  {
    if count == 0 then prev.(display := Styles.Hidden)
    else Alert(Styles.Block, Some(Message(Classify(count), count)))
  }

  /** The ratio label is rewritten by every check. */
  function RatioAfter(count: nat): Message {
    Message(Classify(count), count)
  }

  /** After a check that found a gap, the alert box and the ratio label
      carry the same message; after one that found none, the label says
      "no gap (0px)" and the box is hidden. */
  lemma RatioAgreesWithAlert(prev: Alert, count: nat)
    ensures count > 0 ==> AlertAfter(prev, count).message == Some(RatioAfter(count))
    ensures RatioAfter(count).tier == NoGap <==> AlertAfter(prev, count).display == Styles.Hidden
    ensures RatioAfter(count).count == count
  {
  }

  /** The alert is shown exactly when the tier is not "no gap". */
  lemma AlertShownIffGap(prev: Alert, count: nat)
    ensures AlertAfter(prev, count).display == Styles.Block <==> Classify(count) != NoGap
  {
  }
}
