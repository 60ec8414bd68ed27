/**
 * The course card: the relevance badge colour, the five-star rating row and
 * the truncated skill list (first three chips and a "+N" badge).
 */
module CourseCard {
  import opened Wrappers
  import SkillChips
  import NumberText

  const Green := "bg-green-500"
  const Primary := "bg-primary"
  const Amber := "bg-amber-500"

  /** `getRelevanceColor`: thresholds at 90 and 70. */
  function RelevanceColor(score: int): (c: string)
    ensures c == Green || c == Primary || c == Amber
  {
    if score >= 90 then Green else if score >= 70 then Primary else Amber
  }

  lemma RelevanceColorTiers(score: int)
    ensures RelevanceColor(score) == Green <==> score >= 90
    ensures RelevanceColor(score) == Primary <==> 70 <= score < 90
    ensures RelevanceColor(score) == Amber <==> score < 70
  {
  }

  function RelevanceRank(c: string): nat {
    if c == Green then 2 else if c == Primary then 1 else 0
  }

  /** A lower relevance score never gets a better colour. */
  lemma RelevanceColorMonotone(p: int, q: int)
    requires p <= q
    ensures RelevanceRank(RelevanceColor(p)) <= RelevanceRank(RelevanceColor(q))
  {
  }

  // ---------------------------------------------------------------- stars

  datatype StarKind = Full | Half | Empty

  /** The class chosen for star number `star` inside `renderStars`. */
  function StarKindOf(star: int, rating: real): (k: StarKind)
    ensures k == Full ==> star as real <= rating
    ensures k == Half ==> rating < star as real <= rating + 0.5
    ensures k == Empty ==> rating + 0.5 < star as real
  {
    if star <= rating.Floor then Full
    else if star as real <= rating + 0.5 then Half
    else Empty
  }

  /** `[1, 2, 3, 4, 5].map(...)`: one star per number, in order. */
  function Stars(rating: real): (r: seq<StarKind>)
    ensures |r| == 5
    ensures forall i :: 0 <= i < 4 ==> StarRank(r[i + 1]) <= StarRank(r[i])
  {
    [StarKindOf(1, rating), StarKindOf(2, rating), StarKindOf(3, rating),
     StarKindOf(4, rating), StarKindOf(5, rating)]
  }

  function Repeat(k: StarKind, n: nat): (r: seq<StarKind>)
    ensures |r| == n && forall i :: 0 <= i < n ==> r[i] == k
  {
    if n == 0 then [] else [k] + Repeat(k, n - 1)
  }

  function Count(stars: seq<StarKind>, k: StarKind): (n: nat)
    ensures n <= |stars|
  {
    if stars == [] then 0 else (if stars[0] == k then 1 else 0) + Count(stars[1..], k)
  }

  /** The number of full stars: floor(rating), kept within 0..5. */
  function FullCount(rating: real): (n: nat)
    ensures n <= 5
  {
    if rating.Floor < 0 then 0 else if rating.Floor > 5 then 5 else rating.Floor
  }

  /** One half star when fewer than five are full and the fraction is at least one half. */
  function HalfCount(rating: real): (n: nat)
    ensures n <= 1
  {
    if 0 <= rating.Floor < 5 && rating - rating.Floor as real >= 0.5 then 1 else 0
  }

  /** Star `star` (1..5) is full, half or empty exactly as the rule in `renderStars` says. */
  lemma StarRule(rating: real, star: int)
    requires 1 <= star <= 5
    ensures Stars(rating)[star - 1] == Full <==> star <= rating.Floor
    ensures Stars(rating)[star - 1] == Half <==> !(star <= rating.Floor) && star as real <= rating + 0.5
    ensures Stars(rating)[star - 1] == Empty <==> !(star <= rating.Floor) && !(star as real <= rating + 0.5)
  {
  }

  /** The row is the full stars, then at most one half star, then the empty ones. */
  lemma StarsShape(rating: real)
    ensures FullCount(rating) + HalfCount(rating) <= 5
    ensures Stars(rating) == Repeat(Full, FullCount(rating)) + Repeat(Half, HalfCount(rating))
                             + Repeat(Empty, 5 - FullCount(rating) - HalfCount(rating))
  {
    var f, h := FullCount(rating), HalfCount(rating);
    var r := Repeat(Full, f) + Repeat(Half, h) + Repeat(Empty, 5 - f - h);
    forall i | 0 <= i < 5
      ensures Stars(rating)[i] == r[i]
    {
      StarRule(rating, i + 1);
    }
  }

  lemma {:induction false} CountRepeat(k: StarKind, n: nat, j: StarKind)
    ensures Count(Repeat(k, n), j) == if k == j then n else 0
  {
    if n > 0 {
      assert Repeat(k, n)[1..] == Repeat(k, n - 1);
      CountRepeat(k, n - 1, j);
    }
  }

  lemma {:induction false} CountAppend(a: seq<StarKind>, b: seq<StarKind>, k: StarKind)
    ensures Count(a + b, k) == Count(a, k) + Count(b, k)
  {
    if a != [] {
      assert (a + b)[1..] == a[1..] + b;
      CountAppend(a[1..], b, k);
    } else {
      assert a + b == b;
    }
  }

  /** Five stars; min(5, floor(rating)) full for a non-negative rating; at most one half. */
  lemma StarCounts(rating: real)
    ensures |Stars(rating)| == 5
    ensures Count(Stars(rating), Full) == FullCount(rating)
    ensures rating >= 0.0 ==> Count(Stars(rating), Full) == if rating.Floor < 5 then rating.Floor else 5
    ensures Count(Stars(rating), Half) == HalfCount(rating) <= 1
    ensures Count(Stars(rating), Full) + Count(Stars(rating), Half) + Count(Stars(rating), Empty) == 5
  {
    var f, h := FullCount(rating), HalfCount(rating);
    StarsShape(rating);
    var a, b, c := Repeat(Full, f), Repeat(Half, h), Repeat(Empty, 5 - f - h);
    forall k: StarKind
      ensures Count(Stars(rating), k) == Count(a, k) + Count(b, k) + Count(c, k)
    {
      CountAppend(a + b, c, k);
      CountAppend(a, b, k);
    }
    forall k: StarKind
      ensures Count(a, k) == (if k == Full then f else 0)
      ensures Count(b, k) == (if k == Half then h else 0)
      ensures Count(c, k) == (if k == Empty then 5 - f - h else 0)
    {
      CountRepeat(Full, f, k);
      CountRepeat(Half, h, k);
      CountRepeat(Empty, 5 - f - h, k);
    }
  }

  function StarRank(k: StarKind): nat {
    match k
    case Full => 2
    case Half => 1
    case Empty => 0
  }

  /** A higher rating never makes any star worse. */
  lemma StarsMonotone(r: real, s: real, star: int)
    requires r <= s
    ensures StarRank(StarKindOf(star, r)) <= StarRank(StarKindOf(star, s))
  {
    assert r.Floor <= s.Floor;
  }

  // ---------------------------------------------------------------- skills

  const MaxChips: nat := 3

  /** `course.skills.slice(0, 3)`. */
  function ShownSkills(skills: seq<string>): (r: seq<string>)
    ensures |r| == if |skills| < MaxChips then |skills| else MaxChips
    ensures r <= skills
  {
    if |skills| <= MaxChips then skills else skills[..MaxChips]
  }

  /** The count in the "+N" badge, present only when skills were cut off. */
  function OverflowCount(skills: seq<string>): (n: Option<nat>)
    ensures n.Some? <==> |skills| > MaxChips
  {
    if |skills| > MaxChips then Some(|skills| - MaxChips) else None
  }

  /** The badge text `+{course.skills.length - 3}`. */
  function OverflowText(skills: seq<string>): (t: Option<string>)
    ensures t.Some? <==> |skills| > MaxChips
    ensures t.Some? ==> |t.value| >= 2 && t.value[0] == '+'
    ensures t.Some? ==> NumberText.ParseInt(t.value[1..]) == Some(|skills| - 3)
  {
    match OverflowCount(skills)
    case None => None
    case Some(n) =>
      var text := "+" + NumberText.IntText(n);
      assert text[1..] == NumberText.IntText(n);
      NumberText.IntTextRoundTrip(n);
      Some(text)
  }

  /** The chips shown plus the badge's count account for every skill. */
  lemma SkillSummary(skills: seq<string>)
    ensures |ShownSkills(skills)| + (match OverflowCount(skills) case None => 0 case Some(n) => n) == |skills|
    ensures OverflowCount(skills).Some? ==> OverflowCount(skills).value == |skills| - 3
    ensures SkillChips.Labels(SkillChips.Chips(ShownSkills(skills))) == ShownSkills(skills)
  {
    SkillChips.ChipsShowEverySkill(ShownSkills(skills));
  }
}
