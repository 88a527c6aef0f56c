/**
 * The multi-attack hit-rate page: the chance that one attack hits an armour
 * class, its advantage and disadvantage forms, the chance that at least K of
 * N attacks hit (a binomial tail), the critical-hit chance, the chart over
 * armour classes 6..25, and the page's form state (two mutually exclusive
 * mode buttons and four numeric inputs normalised when they lose focus).
 */
module HitRate {
  import D20
  import Binomial

  datatype Option<T> = None | Some(value: T)

  /** The two mode buttons' flags. */
  datatype Mode = Mode(advantage: bool, disadvantage: bool)

  /** The state the formulas of the page read: the number of attacks, the
      attack modifier and the mode. */
  datatype AttackSetup = AttackSetup(attackCount: int, attackModifier: int, mode: Mode)

  // ---------------------------------------------------------------------
  // One attack

  /** The chance that a plain d20 attack roll hits armour class `ac`. */
  function BaseHitChance(ac: int, attackModifier: int): (r: real)
    ensures 0.05 <= r <= 0.95
    ensures 2 <= ac - attackModifier <= 20 ==> r == (21 - (ac - attackModifier)) as real / 20.0
  {
    D20.Chance(ac - attackModifier)
  }

  lemma BaseHitChanceMonotone(ac1: int, ac2: int, m1: int, m2: int)
    requires ac1 <= ac2 && m1 >= m2
    ensures BaseHitChance(ac1, m1) >= BaseHitChance(ac2, m2)
  {
    D20.ChanceAntitone(ac1 - m1, ac2 - m2);
  }

  /** Best of two independent rolls. */
  function Advantaged(p: real): real { 1.0 - (1.0 - p) * (1.0 - p) }

  /** Worst of two independent rolls. */
  function Disadvantaged(p: real): real { p * p }

  lemma SquareMonotone(x: real, y: real)
    requires 0.0 <= x <= y
    ensures x * x <= y * y
  {
    assert y * y - x * x == (y - x) * (y + x);
  }

  lemma TransformsMonotone(p1: real, p2: real)
    requires 0.0 <= p1 <= p2 <= 1.0
    ensures Advantaged(p1) <= Advantaged(p2)
    ensures Disadvantaged(p1) <= Disadvantaged(p2)
  {
    SquareMonotone(p1, p2);
    SquareMonotone(1.0 - p2, 1.0 - p1);
  }

  /** For a chance in [0, 1], advantage never lowers it and disadvantage
      never raises it. */
  lemma TransformsOrdered(p: real)
    requires 0.0 <= p <= 1.0
    ensures Disadvantaged(p) <= p <= Advantaged(p)
  {
    Binomial.MulNonnegative(p, 1.0 - p);
    assert p - p * p == p * (1.0 - p);
    assert Advantaged(p) - p == p * (1.0 - p);
  }

  /** `calculateHitRate`: the base chance, transformed by the mode; advantage
      comes first, so it wins when both flags are set. */
  function HitChance(ac: int, setup: AttackSetup): (r: real)
    ensures 0.0 <= r <= 1.0
    ensures setup.mode.advantage ==> 0.0975 <= r <= 0.9975
    ensures !setup.mode.advantage && setup.mode.disadvantage ==> 0.0025 <= r <= 0.9025
    ensures !setup.mode.advantage && !setup.mode.disadvantage ==>
              r == BaseHitChance(ac, setup.attackModifier)
  {
    var p := BaseHitChance(ac, setup.attackModifier);
    TransformsMonotone(0.05, p);
    TransformsMonotone(p, 0.95);
    if setup.mode.advantage then Advantaged(p)
    else if setup.mode.disadvantage then Disadvantaged(p)
    else p
  }

  /** For the same armour class and modifier: advantage >= normal >=
      disadvantage, and advantage takes precedence over disadvantage. */
  lemma ModesOrdered(ac: int, attackCount: int, attackModifier: int)
    ensures HitChance(ac, AttackSetup(attackCount, attackModifier, Mode(true, false)))
         >= HitChance(ac, AttackSetup(attackCount, attackModifier, Mode(false, false)))
         >= HitChance(ac, AttackSetup(attackCount, attackModifier, Mode(false, true)))
    ensures HitChance(ac, AttackSetup(attackCount, attackModifier, Mode(true, true)))
         == HitChance(ac, AttackSetup(attackCount, attackModifier, Mode(true, false)))
  {
    TransformsOrdered(BaseHitChance(ac, attackModifier));
  }

  /** In every mode the chance never rises with the armour class and never
      falls with the attack modifier. */
  lemma HitChanceMonotone(ac1: int, ac2: int, setup1: AttackSetup, setup2: AttackSetup)
    requires ac1 <= ac2
    requires setup1.attackModifier >= setup2.attackModifier && setup1.mode == setup2.mode
    ensures HitChance(ac1, setup1) >= HitChance(ac2, setup2)
  {
    BaseHitChanceMonotone(ac1, ac2, setup1.attackModifier, setup2.attackModifier);
    TransformsMonotone(BaseHitChance(ac2, setup2.attackModifier), BaseHitChance(ac1, setup1.attackModifier));
  }

  /** `calculateCritChance`: a natural 20, under the mode's two-roll rule. */
  function CritChance(mode: Mode): (r: real)
    ensures mode.advantage ==> r == 39.0 / 400.0
    ensures !mode.advantage && mode.disadvantage ==> r == 1.0 / 400.0
    ensures !mode.advantage && !mode.disadvantage ==> r == 1.0 / 20.0
  {
    if mode.advantage then 1.0 - (19.0 / 20.0) * (19.0 / 20.0)
    else if mode.disadvantage then (1.0 / 20.0) * (1.0 / 20.0)
    else 0.05
  }

  /** The crit chance is the one-face chance of a natural 20 put through the
      same mode transform as the hit chance, so it never exceeds the hit
      chance at any armour class. */
  lemma CritNeverExceedsHit(ac: int, setup: AttackSetup)
    ensures CritChance(setup.mode) ==
      (if setup.mode.advantage then Advantaged(D20.Chance(20))
       else if setup.mode.disadvantage then Disadvantaged(D20.Chance(20))
       else D20.Chance(20))
    ensures CritChance(setup.mode) <= HitChance(ac, setup)
  {
    TransformsMonotone(0.05, BaseHitChance(ac, setup.attackModifier));
  }

  // ---------------------------------------------------------------------
  // At least K of N attacks

  /** The chart value `hitRate{attacksNeeded}` at `ac`, in percent. */
  function CumulativeRate(ac: int, attacksNeeded: nat, setup: AttackSetup): real
  {
    100.0 * Binomial.Tail(setup.attackCount, attacksNeeded, HitChance(ac, setup), 1.0 - HitChance(ac, setup))
  }

  /** `calculateCumulativeHitRate`: the loop that adds up the binomial terms
      for attacksNeeded..attackCount. */
  method CumulativeHitRate(ac: int, attacksNeeded: nat, setup: AttackSetup) returns (percent: real)
    ensures percent == CumulativeRate(ac, attacksNeeded, setup)
    ensures 0.0 <= percent <= 100.0
  {
    var hitChance := HitChance(ac, setup);
    var cumulativeProbability := 0.0;
    var i := attacksNeeded;
    while i <= setup.attackCount
      invariant attacksNeeded <= i
      invariant cumulativeProbability + Binomial.Tail(setup.attackCount, i, hitChance, 1.0 - hitChance)
             == Binomial.Tail(setup.attackCount, attacksNeeded, hitChance, 1.0 - hitChance)
      decreases setup.attackCount - i
    {
      Binomial.BinomialIsExactHits(setup.attackCount, i, hitChance);
      cumulativeProbability := cumulativeProbability + Binomial.Binomial(setup.attackCount, i, hitChance);
      i := i + 1;
    }
    Binomial.TailBounds(setup.attackCount, attacksNeeded, hitChance);
    percent := 100.0 * cumulativeProbability;
  }

  /** The cumulative rates the chart plots: percentages that fall as more
      hits are needed, with p^n at K = n, 1 - (1 - p)^n at K = 1 and 0 past n. */
  lemma CumulativeRateProperties(ac: int, attacksNeeded: nat, setup: AttackSetup)
    ensures 0.0 <= CumulativeRate(ac, attacksNeeded, setup) <= 100.0
    ensures CumulativeRate(ac, attacksNeeded + 1, setup) <= CumulativeRate(ac, attacksNeeded, setup)
    ensures attacksNeeded > setup.attackCount ==> CumulativeRate(ac, attacksNeeded, setup) == 0.0
    ensures setup.attackCount >= 0 && attacksNeeded == setup.attackCount ==>
              CumulativeRate(ac, attacksNeeded, setup) == 100.0 * Binomial.Pow(HitChance(ac, setup), setup.attackCount)
    ensures setup.attackCount >= 0 && attacksNeeded == 1 ==>
              CumulativeRate(ac, attacksNeeded, setup)
                == 100.0 * (1.0 - Binomial.Pow(1.0 - HitChance(ac, setup), setup.attackCount))
  {
    var p := HitChance(ac, setup);
    Binomial.TailBounds(setup.attackCount, attacksNeeded, p);
    Binomial.TailAntitoneStep(setup.attackCount, attacksNeeded, p, 1.0 - p);
    if setup.attackCount >= 0 {
      Binomial.TailAtCount(setup.attackCount, p, 1.0 - p);
      Binomial.TailAtOne(setup.attackCount, p);
    }
  }

  /** Along a curve the rate never rises with the armour class, and it
      never falls with the attack modifier. */
  lemma CumulativeRateMonotone(ac1: int, ac2: int, attacksNeeded: nat, setup1: AttackSetup, setup2: AttackSetup)
    requires ac1 <= ac2
    requires setup1.attackModifier >= setup2.attackModifier
    requires setup1.attackCount == setup2.attackCount && setup1.mode == setup2.mode
    ensures CumulativeRate(ac2, attacksNeeded, setup2) <= CumulativeRate(ac1, attacksNeeded, setup1)
  {
    HitChanceMonotone(ac1, ac2, setup1, setup2);
    if setup1.attackCount >= 0 {
      Binomial.TailMonotone(setup1.attackCount, attacksNeeded, HitChance(ac2, setup2), HitChance(ac1, setup1));
    } else {
      assert Binomial.Tail(setup1.attackCount, attacksNeeded, HitChance(ac1, setup1), 1.0 - HitChance(ac1, setup1)) == 0.0;
      assert Binomial.Tail(setup2.attackCount, attacksNeeded, HitChance(ac2, setup2), 1.0 - HitChance(ac2, setup2)) == 0.0;
    }
  }

  /** One point of the chart: the armour class and `hitRate{j}` for j = 1..N. */
  datatype HitPoint = HitPoint(ac: int, hitRates: map<int, real>)

  /** The curve keys 1..n. */
  function AttackNumbers(n: int): (s: set<int>)
    ensures forall j :: j in s <==> 1 <= j <= n
    decreases n
  {
    if n <= 0 then {} else AttackNumbers(n - 1) + {n}
  }

  /** `generateData`: 20 points for AC 6..25, each with the keys 1..attackCount. */
  function GenerateData(setup: AttackSetup): (data: seq<HitPoint>)
    ensures |data| == 20
    ensures forall i :: 0 <= i < 20 ==> data[i].ac == 6 + i
    ensures forall i :: 0 <= i < 20 ==> data[i].hitRates.Keys == AttackNumbers(setup.attackCount)
  {
    seq(20, i => HitPoint(6 + i, map j | j in AttackNumbers(setup.attackCount) :: CumulativeRate(6 + i, j, setup)))
  }

  /** Every point's curves are ordered: `hitRate{j}` >= `hitRate{j+1}`, each a
      percentage; and along every curve the rate never rises with the AC. */
  lemma GenerateDataOrdered(setup: AttackSetup, i: int, j: int)
    requires 0 <= i < 20 && 1 <= j <= setup.attackCount
    ensures 0.0 <= GenerateData(setup)[i].hitRates[j] <= 100.0
    ensures j < setup.attackCount ==>
              GenerateData(setup)[i].hitRates[j + 1] <= GenerateData(setup)[i].hitRates[j]
    ensures i + 1 < 20 ==> GenerateData(setup)[i + 1].hitRates[j] <= GenerateData(setup)[i].hitRates[j]
    ensures GenerateData(setup)[i].hitRates[j] == CumulativeRate(6 + i, j, setup)
  {
    CumulativeRateProperties(6 + i, j, setup);
    CumulativeRateMonotone(6 + i, 7 + i, j, setup, setup);
  }

  // ---------------------------------------------------------------------
  // Form state

  datatype Button = AdvantageButton | DisadvantageButton

  /** `toggleAdvantage` / `toggleDisadvantage`: the pressed button's flag
      flips and the other flag is cleared. */
  function Toggle(mode: Mode, button: Button): (r: Mode)
    ensures button == AdvantageButton ==> r.advantage == !mode.advantage && !r.disadvantage
    ensures button == DisadvantageButton ==> r.disadvantage == !mode.disadvantage && !r.advantage
  {
    match button
    case AdvantageButton => Mode(!mode.advantage, false)
    case DisadvantageButton => Mode(false, !mode.disadvantage)
  }

  function Presses(mode: Mode, buttons: seq<Button>): Mode
    decreases |buttons|
  {
    if buttons == [] then mode else Presses(Toggle(mode, buttons[0]), buttons[1..])
  }

  /** From the initial (false, false), no sequence of presses ever sets both
      flags. */
  lemma {:induction false} PressesExclusive(mode: Mode, buttons: seq<Button>)
    requires !(mode.advantage && mode.disadvantage)
    ensures !(Presses(mode, buttons).advantage && Presses(mode, buttons).disadvantage)
    decreases |buttons|
  {
    if buttons != [] {
      PressesExclusive(Toggle(mode, buttons[0]), buttons[1..]);
    }
  }

  /** A numeric input's state: empty, a lone minus sign, or a number. */
  datatype FieldValue = Empty | Dash | Num(n: int)

  /** What `handleInputChange` makes of the text typed: "" , "-", the result
      of `parseInt`, or NaN. */
  datatype Entry = Blank | Minus | Parsed(n: int) | NotANumber

  /** `handleInputChange`: "" and "-" are stored as typed, a number is
      stored, NaN leaves the field unchanged. */
  function ChangedValue(prev: FieldValue, entry: Entry): (r: FieldValue)
    ensures entry.NotANumber? ==> r == prev
    ensures entry.Blank? ==> r == Empty
    ensures entry.Minus? ==> r == Dash
    ensures entry.Parsed? ==> r == Num(entry.n)
  {
    match entry
    case Blank => Empty
    case Minus => Dash
    case Parsed(n) => Num(n)
    case NotANumber => prev
  }

  predicate InBounds(v: int, minValue: Option<int>, maxValue: Option<int>)
  {
    (minValue.Some? ==> minValue.value <= v) && (maxValue.Some? ==> v <= maxValue.value)
  }

  /** `handleBlur`: "" and "-" become `minValue || 0`; a number is raised to
      `minValue` or lowered to `maxValue` where those are given. */
  function BlurredValue(prev: FieldValue, minValue: Option<int>, maxValue: Option<int>): (r: int)
    ensures !prev.Num? ==> r == (if minValue.Some? then minValue.value else 0)
    ensures prev.Num? && InBounds(prev.n, minValue, maxValue) ==> r == prev.n
    ensures minValue.Some? && (maxValue.None? || minValue.value <= maxValue.value) ==> minValue.value <= r
    ensures maxValue.Some? && (minValue.None? || minValue.value <= maxValue.value) && prev.Num? ==> r <= maxValue.value
    ensures minValue.Some? && maxValue.Some? && minValue.value <= maxValue.value ==> InBounds(r, minValue, maxValue)
  {
    match prev
    case Num(v) =>
      if minValue.Some? && v < minValue.value then minValue.value
      else if maxValue.Some? && v > maxValue.value then maxValue.value
      else v
    case _ => if minValue.Some? then minValue.value else 0
  }

  /** Bounds under which a second blur changes nothing. */
  predicate CoherentBounds(minValue: Option<int>, maxValue: Option<int>)
  {
    && (minValue.Some? && maxValue.Some? ==> minValue.value <= maxValue.value)
    && (minValue.None? && maxValue.Some? ==> 0 <= maxValue.value)
  }

  lemma BlurIdempotent(prev: FieldValue, minValue: Option<int>, maxValue: Option<int>)
    requires CoherentBounds(minValue, maxValue)
    ensures BlurredValue(Num(BlurredValue(prev, minValue, maxValue)), minValue, maxValue)
         == BlurredValue(prev, minValue, maxValue)
  {
  }

  /** The page's four numeric inputs. */
  datatype NumericField = AttackCount | AttackModifier | DiceCount | DamageModifier

  /** The bounds each input's `onBlur` passes: attacks 1..10, dice at least 1,
      the two modifiers unbounded. */
  function MinValue(field: NumericField): Option<int>
  {
    match field
    case AttackCount => Some(1)
    case DiceCount => Some(1)
    case _ => None
  }

  function MaxValue(field: NumericField): Option<int>
  {
    match field
    case AttackCount => Some(10)
    case _ => None
  }

  /** The options of the dice-type select. */
  const DiceTypes: set<int> := {4, 6, 8, 10, 12}

  /** The page's state. */
  class HitRateCalculator {
    var attackCount: FieldValue
    var attackModifier: FieldValue
    var diceType: int
    var diceCount: FieldValue
    var damageModifier: FieldValue
    var advantage: bool
    var disadvantage: bool

    function Field(field: NumericField): FieldValue
      reads this
    {
      match field
      case AttackCount => attackCount
      case AttackModifier => attackModifier
      case DiceCount => diceCount
      case DamageModifier => damageModifier
    }

    function CurrentMode(): Mode
      reads this
    {
      Mode(advantage, disadvantage)
    }

    /** The two mode flags are never both set. */
    ghost predicate Valid()
      reads this
    {
      !(advantage && disadvantage) && diceType in DiceTypes
    }

    constructor ()
      ensures Valid()
      ensures attackCount == Num(1) && attackModifier == Num(0) && diceType == 6
      ensures diceCount == Num(1) && damageModifier == Num(0)
      ensures !advantage && !disadvantage
    {
      attackCount, attackModifier, diceType := Num(1), Num(0), 6;
      diceCount, damageModifier := Num(1), Num(0);
      advantage, disadvantage := false, false;
    }

    method ToggleAdvantage()
      requires Valid()
      modifies this
      ensures Valid()
      ensures CurrentMode() == Toggle(old(CurrentMode()), AdvantageButton)
      ensures forall f: NumericField :: Field(f) == old(Field(f))
      ensures diceType == old(diceType)
    {
      advantage, disadvantage := !advantage, false;
    }

    method ToggleDisadvantage()
      requires Valid()
      modifies this
      ensures Valid()
      ensures CurrentMode() == Toggle(old(CurrentMode()), DisadvantageButton)
      ensures forall f: NumericField :: Field(f) == old(Field(f))
      ensures diceType == old(diceType)
    {
      disadvantage, advantage := !disadvantage, false;
    }

    /** `handleInputChange(setter)` for one input: only that input changes. */
    method HandleInputChange(field: NumericField, entry: Entry)
      requires Valid()
      modifies this
      ensures Valid()
      ensures Field(field) == ChangedValue(old(Field(field)), entry)
      ensures forall f: NumericField :: f != field ==> Field(f) == old(Field(f))
      ensures CurrentMode() == old(CurrentMode()) && diceType == old(diceType)
    {
      var value := ChangedValue(Field(field), entry);
      match field
      case AttackCount => attackCount := value;
      case AttackModifier => attackModifier := value;
      case DiceCount => diceCount := value;
      case DamageModifier => damageModifier := value;
    }

    /** `handleBlur(setter, minValue, maxValue)` for one input, with that
        input's bounds: the attack count ends in 1..10, the dice count >= 1. */
    method HandleBlur(field: NumericField)
      requires Valid()
      modifies this
      ensures Valid()
      ensures Field(field) == Num(BlurredValue(old(Field(field)), MinValue(field), MaxValue(field)))
      ensures field == AttackCount ==> 1 <= Field(field).n <= 10
      ensures field == DiceCount ==> 1 <= Field(field).n
      ensures forall f: NumericField :: f != field ==> Field(f) == old(Field(f))
      ensures CurrentMode() == old(CurrentMode()) && diceType == old(diceType)
    {
      var value := Num(BlurredValue(Field(field), MinValue(field), MaxValue(field)));
      match field
      case AttackCount => attackCount := value;
      case AttackModifier => attackModifier := value;
      case DiceCount => diceCount := value;
      case DamageModifier => damageModifier := value;
    }

    /** The dice-type select's change handler. */
    method SelectDiceType(die: int)
      requires Valid()
      requires die in DiceTypes
      modifies this
      ensures Valid()
      ensures diceType == die
      ensures forall f: NumericField :: Field(f) == old(Field(f))
      ensures CurrentMode() == old(CurrentMode())
    {
      diceType := die;
    }

    /** The values the formulas read, once both inputs hold numbers: the
        mode they see never has both flags set. */
    function Setup(): (s: AttackSetup)
      reads this
      requires Valid() && attackCount.Num? && attackModifier.Num?
      ensures !(s.mode.advantage && s.mode.disadvantage)
      ensures s.attackCount == attackCount.n && s.attackModifier == attackModifier.n
    {
      AttackSetup(attackCount.n, attackModifier.n, CurrentMode())
    }
  }
}
