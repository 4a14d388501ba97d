/**
 * The Financial Health Score card: a score out of 100 is banded at 80 and 60,
 * and the band picks both the text colour of the score and the status badge.
 */
module HealthScore {
  /** The score the card shows. */
  const FixedScore: real := 78.0

  datatype StatusIcon = CheckCircle2 | Shield | AlertTriangle

  /** The status badge: its label, background colour and icon. */
  datatype Status = Status(text: string, color: string, icon: StatusIcon)

  /** The three bands, worst first. */
  datatype Band = NeedsAttention | Good | Excellent

  function Rank(b: Band): nat
  {
    match b
    case NeedsAttention => 0
    case Good => 1
    case Excellent => 2
  }

  /** The band of a score: Excellent from 80, Good from 60, Needs Attention below. */
  function ScoreBand(score: real): (b: Band)
    ensures b == Excellent <==> score >= 80.0
    ensures b == Good <==> 60.0 <= score < 80.0
    ensures b == NeedsAttention <==> score < 60.0
  {
    if score >= 80.0 then Excellent
    else if score >= 60.0 then Good
    else NeedsAttention
  }

  /** Text colour of the score: green from 80, yellow from 60, red below. */
  function ScoreColor(score: real): (r: string)
    ensures r == "text-green-600" <==> score >= 80.0
    ensures r == "text-yellow-600" <==> 60.0 <= score < 80.0
    ensures r == "text-red-600" <==> score < 60.0
  {
    if score >= 80.0 then "text-green-600"
    else if score >= 60.0 then "text-yellow-600"
    else "text-red-600"
  }

  /** Status badge: Excellent from 80, Good from 60, Needs Attention below. */
  function ScoreStatus(score: real): (r: Status)
    ensures r.text == "Excellent" <==> score >= 80.0
    ensures r.text == "Good" <==> 60.0 <= score < 80.0
    ensures r.text == "Needs Attention" <==> score < 60.0
  {
    if score >= 80.0 then Status("Excellent", "bg-green-500", CheckCircle2)
    else if score >= 60.0 then Status("Good", "bg-yellow-500", Shield)
    else Status("Needs Attention", "bg-red-500", AlertTriangle)
  }

  /** The colour and the badge each depend on the score only through its band. */
  lemma ColorAndStatusPerBand(score: real)
    ensures ScoreBand(score) == Excellent ==>
      ScoreColor(score) == "text-green-600" && ScoreStatus(score) == Status("Excellent", "bg-green-500", CheckCircle2)
    ensures ScoreBand(score) == Good ==>
      ScoreColor(score) == "text-yellow-600" && ScoreStatus(score) == Status("Good", "bg-yellow-500", Shield)
    ensures ScoreBand(score) == NeedsAttention ==>
      ScoreColor(score) == "text-red-600" && ScoreStatus(score) == Status("Needs Attention", "bg-red-500", AlertTriangle)
  {
  }

  /** The score colour and the status badge always name the same band. */
  lemma ColorAndStatusAgree(score: real)
    ensures ScoreColor(score) == "text-green-600" <==> ScoreStatus(score).text == "Excellent"
    ensures ScoreColor(score) == "text-yellow-600" <==> ScoreStatus(score).text == "Good"
    ensures ScoreColor(score) == "text-red-600" <==> ScoreStatus(score).text == "Needs Attention"
  {
  }

  /** A higher score never lands in a worse band. */
  lemma BandMonotone(s1: real, s2: real)
    requires s1 <= s2
    ensures Rank(ScoreBand(s1)) <= Rank(ScoreBand(s2))
  {
  }

  /** The card's fixed score of 78 is Good, in yellow. */
  lemma FixedScoreIsGood()
    ensures ScoreBand(FixedScore) == Good
    ensures ScoreStatus(FixedScore) == Status("Good", "bg-yellow-500", Shield)
    ensures ScoreColor(FixedScore) == "text-yellow-600"
  {
  }
}
