/** Lead scoring: a rule-based score from the acquisition channel and the
    position, optionally blended with an externally supplied AI score, clamped
    to [0, 100] and bucketed into a priority. */
module Scoring {
  import opened Types

  const BaseScore: int := 50

  /** The channel bonus: referrals are worth most, two job boards less. */
  function SourceBonus(source: string): int {
    if source == "Referral" then 30
    else if source == "LinkedIn" || source == "Moovijob" then 20
    else 0
  }

  /** The position bonus, independent of the channel. */
  function PositionBonus(post: string): int {
    if post == "Team Leader" then 15
    else if post == "Sales Manager" then 10
    else 0
  }

  /** The heuristic score, accumulated as the four independent checks do. */
  function Heuristic(source: string, post: string): (h: int)
    ensures h == BaseScore + SourceBonus(source) + PositionBonus(post)
    ensures 50 <= h <= 95
  {
    var s1 := if source == "LinkedIn" || source == "Moovijob" then BaseScore + 20 else BaseScore;
    var s2 := if source == "Referral" then s1 + 30 else s1;
    var s3 := if post == "Team Leader" then s2 + 15 else s2;
    if post == "Sales Manager" then s3 + 10 else s3
  }

  /** The AI-weighted blend: 40% heuristic, 60% AI score. */
  function Blend(h: int, ai: real): real {
    h as real * 0.4 + ai * 0.6
  }

  function Min(a: real, b: real): real { if a <= b then a else b }
  function Max(a: real, b: real): real { if a >= b then a else b }

  /** The priority bucket of a score: High from 80, Medium from 60, else Low. */
  function PriorityOf(score: real): (p: Priority)
    ensures p == High <==> score >= 80.0
    ensures p == Medium <==> 60.0 <= score < 80.0
    ensures p == Low <==> score < 60.0
  {
    if score >= 80.0 then High
    else if score >= 60.0 then Medium
    else Low
  }

  /** Priorities ordered High > Medium > Low. */
  function Rank(p: Priority): int {
    match p
    case High => 2
    case Medium => 1
    case Low => 0
  }

  datatype ScoreResult = ScoreResult(score: real, priority: Priority)

  /** The score and priority a lead is given when it is submitted. */
  function CalculateScore(source: string, post: string, aiScore: Option<real>): (r: ScoreResult)
    ensures 0.0 <= r.score <= 100.0
    ensures r.priority == PriorityOf(r.score)
    ensures aiScore.None? ==> r.score == Heuristic(source, post) as real
    ensures aiScore.Some? ==>
              (0.0 <= Blend(Heuristic(source, post), aiScore.value) <= 100.0 ==>
                 r.score == Blend(Heuristic(source, post), aiScore.value))
    ensures aiScore.Some? && Blend(Heuristic(source, post), aiScore.value) < 0.0 ==> r.score == 0.0
    ensures aiScore.Some? && Blend(Heuristic(source, post), aiScore.value) > 100.0 ==> r.score == 100.0
  {
    var h := Heuristic(source, post) as real;
    var blended := if aiScore.Some? then h * 0.4 + aiScore.value * 0.6 else h;
    var score := Min(100.0, Max(0.0, blended));
    ScoreResult(score, PriorityOf(score))
  }

  /** Without an AI score the clamp never fires and the priority is High
      exactly when the bonuses reach 30; Low only when no bonus applies. */
  lemma HeuristicOnly(source: string, post: string)
    ensures 50.0 <= CalculateScore(source, post, None).score <= 95.0
    ensures (CalculateScore(source, post, None).priority == High) ==
              (SourceBonus(source) + PositionBonus(post) >= 30)
    ensures (CalculateScore(source, post, None).priority == Low) ==
              (SourceBonus(source) + PositionBonus(post) == 0)
  {
  }

  /** With an AI score inside [0, 100] the result lies between the heuristic
      and the AI score. */
  lemma BlendBetween(source: string, post: string, ai: real)
    requires 0.0 <= ai <= 100.0
    ensures Min(Heuristic(source, post) as real, ai) <= CalculateScore(source, post, Some(ai)).score
    ensures CalculateScore(source, post, Some(ai)).score <= Max(Heuristic(source, post) as real, ai)
  {
  }

  /** A higher AI score never lowers the score or the priority. */
  lemma MonotoneInAiScore(source: string, post: string, a1: real, a2: real)
    requires a1 <= a2
    ensures CalculateScore(source, post, Some(a1)).score <= CalculateScore(source, post, Some(a2)).score
    ensures Rank(CalculateScore(source, post, Some(a1)).priority)
              <= Rank(CalculateScore(source, post, Some(a2)).priority)
  {
    PriorityMonotone(CalculateScore(source, post, Some(a1)).score, CalculateScore(source, post, Some(a2)).score);
  }

  /** A higher score never has a lower priority. */
  lemma PriorityMonotone(s1: real, s2: real)
    requires s1 <= s2
    ensures Rank(PriorityOf(s1)) <= Rank(PriorityOf(s2))
  {
  }

  /** A referral for Team Leader scores 95 and is High. */
  lemma ReferralTeamLeader()
    ensures CalculateScore("Referral", "Team Leader", None) == ScoreResult(95.0, High)
  {
  }

  /** A web applicant for a promoter role with AI score 40 scores 44 and is Low. */
  lemma WebsitePromoterWithAi()
    ensures CalculateScore("Website", "Promoter", Some(40.0)) == ScoreResult(44.0, Low)
  {
  }
}
