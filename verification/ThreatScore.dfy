/** threat_signals.py: how a technical score and a semantic opinion combine. */
module ThreatScore {

  datatype Level = Minimal | Elevated | High | Critical

  predicate Alert(level: Level) { level == High || level == Critical }

  function LevelOf(score: nat): (level: Level) {
    if score >= 70 then Critical else if score >= 40 then High else if score >= 20 then Elevated else Minimal
  }

  // assess_threat_signals: without a signal there is no family and no score.
  datatype Technical = Technical(score: nat, signals: bool, families: bool)
  {
    predicate Valid() {
      score <= 100 && (families <==> signals) && (!signals ==> score == 0)
    }
  }

  datatype Verdict = Benign | Suspicious | LikelyPhishing | LikelyScam | UncertainVerdict

  predicate Malicious(v: Verdict) { v == LikelyPhishing || v == LikelyScam }

  // Python's round(): to the nearest integer, ties to the even one.
  function Round(x: real): (n: nat)
    requires x >= 0.0
    ensures x - 0.5 <= n as real <= x + 0.5
    ensures n as real == x - 0.5 || n as real == x + 0.5 ==> n % 2 == 0
  {
    var low := x.Floor;
    var rest := x - low as real;
    if rest < 0.5 || (rest == 0.5 && low % 2 == 0) then low else low + 1
  }

  datatype Combined = Combined(score: nat, level: Level, consensus: bool)

  // combine_threat_assessments
  function Combine(t: Technical, verdict: Verdict, confidence: real): (c: Combined)
    requires t.Valid() && 0.0 <= confidence <= 1.0
  {
    var semantic :=
      if Malicious(verdict) then Round(30.0 * confidence)
      else if verdict == Suspicious then Round(15.0 * confidence)
      else 0;
    var consensus := Malicious(verdict) && confidence >= 0.80 && t.families;
    var sum := t.score + semantic + if consensus then 15 else 0;
    var capped := if !t.families && sum > 35 then 35 else sum;
    var score := if capped > 100 then 100 else capped;
    Combined(score, LevelOf(score), consensus)
  }

  // Over a technical finding, malice adds up to thirty points, and fifteen more from a confidence of 0.80 on;
  // suspicion adds up to fifteen; the total is at most a hundred.  Without a finding it stays below every alert.
  lemma ScoreOfBoth(t: Technical, verdict: Verdict, confidence: real)
    requires t.Valid() && 0.0 <= confidence <= 1.0
    ensures var c := Combine(t, verdict, confidence);
      && c.level == LevelOf(c.score) && (Alert(c.level) <==> c.score >= 40)
      && (c.level == Critical <==> c.score >= 70) && (c.level == Minimal <==> c.score < 20)
      && (!t.signals ==> t.score == 0 && c.score <= 35)
      && (t.signals && verdict in {LikelyPhishing, LikelyScam} && confidence >= 0.80 ==>
            c.score == if t.score + Round(30.0 * confidence) >= 85 then 100
                       else t.score + Round(30.0 * confidence) + 15)
      && (t.signals && verdict in {LikelyPhishing, LikelyScam} && confidence < 0.80 ==>
            c.score == if t.score + Round(30.0 * confidence) >= 100 then 100 else t.score + Round(30.0 * confidence))
      && (t.signals && verdict == Suspicious ==>
            c.score == if t.score + Round(15.0 * confidence) >= 100 then 100 else t.score + Round(15.0 * confidence))
      && (verdict in {Benign, UncertainVerdict} ==> c.score == t.score)
  {
  }

  // A second opinion can raise a finding but never clear one, and it never raises an alert on its own.
  lemma OpinionsOnlyRaise(t: Technical, verdict: Verdict, confidence: real)
    requires t.Valid() && 0.0 <= confidence <= 1.0
    ensures Combine(t, verdict, confidence).score >= t.score
    ensures Alert(LevelOf(t.score)) ==> Alert(Combine(t, verdict, confidence).level)
    ensures !t.signals ==> !Alert(Combine(t, verdict, confidence).level)
    ensures !Malicious(verdict) && verdict != Suspicious ==> Combine(t, verdict, confidence).level == LevelOf(t.score)
  {
    assert Round(30.0 * confidence) >= 0 && Round(15.0 * confidence) >= 0;
  }
}
