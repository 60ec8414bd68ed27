/**
 * The job card: the colour of the match percentage and the list of key
 * skills. The four colour classes split the percentage range into tiers
 * at 90, 75 and 60.
 */
module JobMatch {
  import SkillChips
  import NumberText
  import opened Wrappers

  const Green := "text-green-600"
  const Primary := "text-primary"
  const Amber := "text-amber-500"
  const Gray := "text-gray-500"

  datatype Job = Job(
    id: string, title: string, company: string, location: string, kind: string,
    matchPercentage: int, postedDate: string, logo: string, skills: seq<string>)

  /** `getMatchColor`: the first threshold the percentage reaches decides. */
  function MatchColor(percentage: int): (c: string)
    ensures c == Green || c == Primary || c == Amber || c == Gray
  {
    if percentage >= 90 then Green
    else if percentage >= 75 then Primary
    else if percentage >= 60 then Amber
    else Gray
  }

  /** How good a tier is: 3 for the best colour down to 0 for the worst. */
  function Rank(c: string): nat {
    if c == Green then 3 else if c == Primary then 2 else if c == Amber then 1 else 0
  }

  /** Each colour is chosen for exactly one range of percentages. */
  lemma MatchColorTiers(percentage: int)
    ensures MatchColor(percentage) == Green <==> percentage >= 90
    ensures MatchColor(percentage) == Primary <==> 75 <= percentage < 90
    ensures MatchColor(percentage) == Amber <==> 60 <= percentage < 75
    ensures MatchColor(percentage) == Gray <==> percentage < 60
  {
  }

  /** Exactly one of the four colours applies to any percentage. */
  lemma MatchColorPartition(percentage: int)
    ensures var c := MatchColor(percentage);
      (if c == Green then 1 else 0) + (if c == Primary then 1 else 0)
      + (if c == Amber then 1 else 0) + (if c == Gray then 1 else 0) == 1
  {
  }

  /** A lower percentage never gets a better colour. */
  lemma MatchColorMonotone(p: int, q: int)
    requires p <= q
    ensures Rank(MatchColor(p)) <= Rank(MatchColor(q))
  {
  }

  /** What the card shows about the match: the coloured `{percentage}%` text. */
  datatype MatchBadge = MatchBadge(colorClass: string, text: string)

  function Badge(job: Job): (b: MatchBadge)
    ensures b.colorClass == MatchColor(job.matchPercentage)
    ensures |b.text| >= 2 && b.text[|b.text| - 1] == '%'
    ensures NumberText.ParseInt(b.text[..|b.text| - 1]) == Some(job.matchPercentage)
  {
    NumberText.PercentTextRoundTrip(job.matchPercentage);
    MatchBadge(MatchColor(job.matchPercentage), NumberText.PercentText(job.matchPercentage))
  }

  /** The "Key Skills" chips of the card. */
  function KeySkills(job: Job): (chips: seq<SkillChips.Chip>)
    ensures SkillChips.Labels(chips) == job.skills
  {
    SkillChips.ChipsShowEverySkill(job.skills);
    SkillChips.Chips(job.skills)
  }
}
