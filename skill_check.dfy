/**
 * The skill-check page: six ability scores, a character level and eighteen
 * skills, each with proficiency, expertise and reliable-talent flags; the
 * page plots the success chance of every selected skill over the
 * difficulty classes 10..30.
 */
module SkillCheck {
  import D20

  datatype Attribute = Strength | Dexterity | Constitution | Intelligence | Wisdom | Charisma

  /** A skill record: the ability it is tied to and its four check-box flags. */
  datatype Skill = Skill(
    name: string,
    attribute: Attribute,
    proficient: bool,
    expertise: bool,
    reliableTalent: bool,
    selected: bool)

  /** The flags a check box on the page can set through `updateSkill`. */
  datatype SkillFlag = Proficient | Expertise | ReliableTalent | Selected

  /** One point of the chart: a difficulty class and, keyed by skill index,
      the success rate in percent of every selected skill. */
  datatype SkillPoint = SkillPoint(dc: int, rates: map<nat, real>)

  /** The attribute map holds a score for each of the six abilities. */
  ghost predicate Complete(attributes: map<Attribute, int>)
  {
    forall a: Attribute :: a in attributes
  }

  /** Every score starts at 10. */
  function InitialAttributes(): map<Attribute, int>
  {
    map[Strength := 10, Dexterity := 10, Constitution := 10,
        Intelligence := 10, Wisdom := 10, Charisma := 10]
  }

  lemma InitialAttributesComplete()
    ensures Complete(InitialAttributes())
  {
    forall a: Attribute ensures a in InitialAttributes() {
      match a
      case Strength =>
      case Dexterity =>
      case Constitution =>
      case Intelligence =>
      case Wisdom =>
      case Charisma =>
    }
  }

  function Untrained(name: string, attribute: Attribute): Skill
  {
    Skill(name, attribute, false, false, false, false)
  }

  /** The eighteen skills the page starts with, no flag set. */
  const InitialSkills: seq<Skill> := [
    Untrained("Acrobatics", Dexterity),
    Untrained("Animal Handling", Wisdom),
    Untrained("Arcana", Intelligence),
    Untrained("Athletics", Strength),
    Untrained("Deception", Charisma),
    Untrained("History", Intelligence),
    Untrained("Insight", Wisdom),
    Untrained("Intimidation", Charisma),
    Untrained("Investigation", Intelligence),
    Untrained("Medicine", Wisdom),
    Untrained("Nature", Intelligence),
    Untrained("Perception", Wisdom),
    Untrained("Performance", Charisma),
    Untrained("Persuasion", Charisma),
    Untrained("Religion", Intelligence),
    Untrained("Sleight of Hand", Dexterity),
    Untrained("Stealth", Dexterity),
    Untrained("Survival", Wisdom)
  ]

  function Flag(skill: Skill, flag: SkillFlag): bool
  {
    match flag
    case Proficient => skill.proficient
    case Expertise => skill.expertise
    case ReliableTalent => skill.reliableTalent
    case Selected => skill.selected
  }

  /** The skill with one flag set to `value`: that flag reads back as
      `value`, and the name, the ability and every other flag are kept. */
  function WithFlag(skill: Skill, flag: SkillFlag, value: bool): (r: Skill)
    ensures Flag(r, flag) == value
    ensures forall other: SkillFlag :: other != flag ==> Flag(r, other) == Flag(skill, other)
    ensures r.name == skill.name && r.attribute == skill.attribute
  {
    match flag
    case Proficient => skill.(proficient := value)
    case Expertise => skill.(expertise := value)
    case ReliableTalent => skill.(reliableTalent := value)
    case Selected => skill.(selected := value)
  }

  /** The ability modifier `floor((score - 10) / 2)`, characterised without
      division: it is the integer m with 2m <= score - 10 < 2m + 2. */
  function Modifier(score: int): (m: int)
    ensures 2 * m <= score - 10 < 2 * m + 2
  {
    (score - 10) / 2
  }

  lemma ModifierMonotone(s1: int, s2: int)
    requires s1 <= s2
    ensures Modifier(s1) <= Modifier(s2)
  {
  }

  lemma ModifierExamples()
    ensures Modifier(10) == 0 && Modifier(11) == 0
    ensures Modifier(9) == -1 && Modifier(8) == -1
    ensures Modifier(20) == 5 && Modifier(1) == -5
  {
  }

  /** The proficiency bonus `floor((level - 1) / 4) + 2`: 2 at levels 1-4 and
      one more for every further four levels. */
  function ProficiencyBonus(level: int): (b: int)
    ensures 4 * (b - 2) <= level - 1 < 4 * (b - 2) + 4
  {
    (level - 1) / 4 + 2
  }

  lemma ProficiencyBonusMonotone(l1: int, l2: int)
    requires l1 <= l2
    ensures ProficiencyBonus(l1) <= ProficiencyBonus(l2)
  {
  }

  lemma ProficiencyBonusTable(level: int)
    requires 1 <= level <= 20
    ensures ProficiencyBonus(level) ==
      if level <= 4 then 2 else if level <= 8 then 3 else if level <= 12 then 4
      else if level <= 16 then 5 else 6
  {
  }

  /** The check modifier: the ability modifier, plus the proficiency bonus
      once for each of `proficient` and `expertise` that is set. */
  function SkillModifier(attributes: map<Attribute, int>, level: int, skill: Skill): int
    requires skill.attribute in attributes
  {
    var modifier := Modifier(attributes[skill.attribute]);
    var modifier := if skill.proficient then modifier + ProficiencyBonus(level) else modifier;
    if skill.expertise then modifier + ProficiencyBonus(level) else modifier
  }

  /** Each of the two flags adds the bonus on its own: expertise adds it even
      when the skill is not marked proficient, and neither reads the other. */
  lemma FlagsAddBonus(attributes: map<Attribute, int>, level: int, skill: Skill)
    requires skill.attribute in attributes
    ensures SkillModifier(attributes, level, skill.(expertise := true))
         == SkillModifier(attributes, level, skill.(expertise := false)) + ProficiencyBonus(level)
    ensures SkillModifier(attributes, level, skill.(proficient := true))
         == SkillModifier(attributes, level, skill.(proficient := false)) + ProficiencyBonus(level)
    ensures !skill.proficient && !skill.expertise ==>
              SkillModifier(attributes, level, skill) == Modifier(attributes[skill.attribute])
  {
  }

  /** The reliable-talent formula `min(max((21 - min(threshold, 11)) / 20, 0.05), 1)`. */
  function ReliableChance(threshold: int): (r: real)
    ensures 0.5 <= r <= 1.0
    ensures 2 <= threshold <= 11 ==> r == (21 - threshold) as real / 20.0
    ensures threshold >= 11 ==> r == 0.5
  {
    D20.Clamp((21.0 - D20.Min(threshold as real, 11.0)) / 20.0, 0.05, 1.0)
  }

  lemma ReliableChanceAntitone(t1: int, t2: int)
    requires t1 <= t2
    ensures ReliableChance(t1) >= ReliableChance(t2)
  {
  }

  /** The face rule the reliable-talent formula amounts to: a face succeeds
      when it reaches the threshold or is 11 or more. */
  predicate ReliableFaceSucceeds(face: int, threshold: int)
  {
    face >= threshold || face >= 11
  }

  function ReliableFaces(from: int, threshold: int): (n: nat)
    requires 1 <= from <= 21
    ensures n <= 21 - from
    decreases 21 - from
  {
    if from == 21 then 0
    else (if ReliableFaceSucceeds(from, threshold) then 1 else 0) + ReliableFaces(from + 1, threshold)
  }

  lemma {:induction false} ReliableFacesAbove(from: int, threshold: int)
    requires 1 <= from <= 21
    ensures ReliableFaces(from, threshold) ==
      var m := if threshold < 11 then threshold else 11;
      if from == 21 then 0 else if m <= from then 21 - from else 21 - m
    decreases 21 - from
  {
    if from < 21 {
      ReliableFacesAbove(from + 1, threshold);
    }
  }

  /** The reliable-talent chance is the fraction of the twenty faces that
      reach the threshold or show 11 or more; so a threshold above 11 never
      lowers it below one half, whatever the difficulty class. */
  lemma ReliableChanceCountsFaces(threshold: int)
    ensures ReliableChance(threshold) == ReliableFaces(1, threshold) as real / 20.0
  {
    ReliableFacesAbove(1, threshold);
  }

  /** For the same threshold reliable talent never gives a lower chance. */
  lemma ReliableNeverWorse(threshold: int)
    ensures ReliableChance(threshold) >= D20.Chance(threshold)
  {
  }

  /** The success rate, in percent, of `skill` against `dc`. */
  function SuccessRate(dc: int, attributes: map<Attribute, int>, level: int, skill: Skill): (r: real)
    requires skill.attribute in attributes
    ensures !skill.reliableTalent ==> 5.0 <= r <= 95.0
    ensures skill.reliableTalent ==> 50.0 <= r <= 100.0
  {
    var threshold := dc - SkillModifier(attributes, level, skill);
    100.0 * (if skill.reliableTalent then ReliableChance(threshold) else D20.Chance(threshold))
  }

  lemma SuccessRateAntitone(dc1: int, dc2: int, attributes: map<Attribute, int>, level: int, skill: Skill)
    requires skill.attribute in attributes
    requires dc1 <= dc2
    ensures SuccessRate(dc1, attributes, level, skill) >= SuccessRate(dc2, attributes, level, skill)
  {
    var m := SkillModifier(attributes, level, skill);
    D20.ChanceAntitone(dc1 - m, dc2 - m);
    ReliableChanceAntitone(dc1 - m, dc2 - m);
  }

  /** Turning reliable talent on never lowers a skill's rate at any DC. */
  lemma ReliableTalentNeverLowersRate(dc: int, attributes: map<Attribute, int>, level: int, skill: Skill)
    requires skill.attribute in attributes
    ensures SuccessRate(dc, attributes, level, skill.(reliableTalent := true))
         >= SuccessRate(dc, attributes, level, skill.(reliableTalent := false))
  {
    var threshold := dc - SkillModifier(attributes, level, skill);
    assert SkillModifier(attributes, level, skill.(reliableTalent := true)) == SkillModifier(attributes, level, skill);
    assert SkillModifier(attributes, level, skill.(reliableTalent := false)) == SkillModifier(attributes, level, skill);
    ReliableNeverWorse(threshold);
  }

  lemma SuccessRateExamples()
    ensures SuccessRate(12, InitialAttributes(), 1, Skill("Arcana", Intelligence, true, false, false, true)) == 55.0
    ensures SuccessRate(25, InitialAttributes(), 1, Skill("Arcana", Intelligence, true, false, true, true)) == 50.0
    ensures SuccessRate(25, InitialAttributes(), 1, Skill("Arcana", Intelligence, true, false, false, true)) == 5.0
    ensures SuccessRate(10, InitialAttributes(), 1, Skill("Arcana", Intelligence, true, true, true, true)) == 75.0
    ensures SuccessRate(5, InitialAttributes(), 1, Skill("Arcana", Intelligence, true, true, true, true)) == 100.0
  {
  }

  /** The indices of the skills whose `selected` box is ticked. */
  function SelectedIndices(skills: seq<Skill>): set<nat>
  {
    set k: nat | k < |skills| && skills[k].selected
  }

  /** `rates` holds, for exactly the selected skills, their rate at `dc`. */
  ghost predicate RatesAt(rates: map<nat, real>, dc: int, attributes: map<Attribute, int>, level: int, skills: seq<Skill>)
    requires Complete(attributes)
  {
    && rates.Keys == SelectedIndices(skills)
    && forall k: nat :: k < |skills| && skills[k].selected ==>
         rates[k] == SuccessRate(dc, attributes, level, skills[k])
  }

  /** The `reduce` that fills one chart point key by key: a `successRate{index}`
      entry for every selected skill and for no other. */
  method SelectedRates(dc: int, attributes: map<Attribute, int>, level: int, skills: seq<Skill>)
    returns (rates: map<nat, real>)
    requires Complete(attributes)
    ensures rates.Keys == SelectedIndices(skills)
    ensures forall k: nat :: k < |skills| && skills[k].selected ==>
              rates[k] == SuccessRate(dc, attributes, level, skills[k])
  {
    rates := map[];
    var index := 0;
    while index < |skills|
      invariant 0 <= index <= |skills|
      invariant rates.Keys == set k: nat | k < index && skills[k].selected
      invariant forall k: nat :: k < index && skills[k].selected ==>
                  rates[k] == SuccessRate(dc, attributes, level, skills[k])
    {
      if skills[index].selected {
        rates := rates[index := SuccessRate(dc, attributes, level, skills[index])];
      }
      index := index + 1;
    }
  }

  /** The chart data: 21 points for DC 10..30 in increasing order, each with
      the rates of the selected skills; along every curve the rate never
      rises as the DC grows. */
  method GenerateData(attributes: map<Attribute, int>, level: int, skills: seq<Skill>)
    returns (data: seq<SkillPoint>)
    requires Complete(attributes)
    ensures |data| == 21
    ensures forall i :: 0 <= i < 21 ==> data[i].dc == 10 + i
    ensures forall i :: 0 <= i < 21 ==> RatesAt(data[i].rates, 10 + i, attributes, level, skills)
    ensures forall i :: 0 <= i < 21 ==> data[i].rates.Keys == SelectedIndices(skills)
    ensures forall i, k :: 0 <= i < 20 && k in SelectedIndices(skills) ==>
              data[i].rates[k] >= data[i + 1].rates[k]
  {
    data := [];
    var i := 0;
    while i < 21
      invariant 0 <= i <= 21
      invariant |data| == i
      invariant forall j :: 0 <= j < i ==> data[j].dc == 10 + j
      invariant forall j :: 0 <= j < i ==> RatesAt(data[j].rates, 10 + j, attributes, level, skills)
    {
      var rates := SelectedRates(10 + i, attributes, level, skills);
      data := data + [SkillPoint(10 + i, rates)];
      i := i + 1;
    }
    forall i, k | 0 <= i < 20 && k in SelectedIndices(skills)
      ensures data[i].rates[k] >= data[i + 1].rates[k]
    {
      SuccessRateAntitone(10 + i, 11 + i, attributes, level, skills[k]);
    }
  }

  /** The page's state: the six scores, the level and the skill list. */
  class SkillCheckCalculator {
    var attributes: map<Attribute, int>
    var level: int
    var skills: seq<Skill>

    ghost predicate Valid()
      reads this
    {
      Complete(attributes)
    }

    constructor ()
      ensures Valid()
      ensures attributes == InitialAttributes() && level == 1 && skills == InitialSkills
    {
      InitialAttributesComplete();
      attributes := InitialAttributes();
      level := 1;
      skills := InitialSkills;
    }

    /** `updateAttribute`: only the named score changes. */
    method UpdateAttribute(attr: Attribute, value: int)
      requires Valid()
      modifies this
      ensures Valid()
      ensures attributes == old(attributes)[attr := value]
      ensures forall other: Attribute :: other != attr ==> attributes[other] == old(attributes)[other]
      ensures level == old(level) && skills == old(skills)
    {
      attributes := attributes[attr := value];
    }

    /** The level input's change handler. */
    method SetLevel(value: int)
      requires Valid()
      modifies this
      ensures Valid()
      ensures level == value
      ensures attributes == old(attributes) && skills == old(skills)
    {
      level := value;
    }

    /** `updateSkill`: one flag of the skill at `index` changes; every other
        skill, every other flag and the rest of the state are kept. */
    method UpdateSkill(index: nat, field: SkillFlag, value: bool)
      requires Valid()
      requires index < |skills|
      modifies this
      ensures Valid()
      ensures skills == old(skills)[index := WithFlag(old(skills)[index], field, value)]
      ensures forall k :: 0 <= k < |skills| && k != index ==> skills[k] == old(skills)[k]
      ensures Flag(skills[index], field) == value
      ensures forall other: SkillFlag :: other != field ==>
                Flag(skills[index], other) == Flag(old(skills)[index], other)
      ensures attributes == old(attributes) && level == old(level)
    {
      var newSkills := skills;
      newSkills := newSkills[index := WithFlag(newSkills[index], field, value)];
      skills := newSkills;
    }
  }
}
