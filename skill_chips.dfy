/**
 * The skill chips that the job and course cards render with
 * `skills.map((skill, idx) => <span key={idx}>{skill}</span>)`: one chip per
 * skill, keyed by its index, in list order.
 */
module SkillChips {

  datatype Chip = Chip(key: nat, text: string)

  function Chips(skills: seq<string>): (r: seq<Chip>)
    ensures |r| == |skills|
    ensures forall i :: 0 <= i < |r| ==> r[i].key == i && r[i].text == skills[i]
  {
    if skills == [] then []
    else Chips(skills[..|skills| - 1]) + [Chip(|skills| - 1, skills[|skills| - 1])]
  }

  /** The text shown on each chip, in rendering order. */
  function Labels(chips: seq<Chip>): (r: seq<string>)
    ensures |r| == |chips|
    ensures forall i :: 0 <= i < |r| ==> r[i] == chips[i].text
  {
    if chips == [] then [] else [chips[0].text] + Labels(chips[1..])
  }

  /** Every skill appears, in list order, with none dropped or added. */
  lemma ChipsShowEverySkill(skills: seq<string>)
    ensures Labels(Chips(skills)) == skills
  {
  }

  /** No two chips share a React key. */
  lemma ChipKeysDistinct(skills: seq<string>, i: int, j: int)
    requires 0 <= i < j < |skills|
    ensures Chips(skills)[i].key != Chips(skills)[j].key
  {
  }
}
