# D&D probability calculators, modelled in Dafny

The repository is a set of React pages for Dungeons & Dragons 5e players, each built around a small calculator. This project models the logic of four of them. The JSX markup is left aside.

- **Skill checks** (`skill_check.dfy`, module `SkillCheck`):
  - six ability scores, a character level and eighteen skills, each with proficient / expertise / reliable-talent / selected flags;
  - the ability modifier, the proficiency bonus and the check modifier;
  - the clamped d20 success chance and the page's separate reliable-talent formula;
  - the chart over DC 10..30;
  - the state updates `updateAttribute` and `updateSkill`.
- **Multi-attack hit rate** (`hit_rate.dfy`, module `HitRate`, with `combinatorics.dfy` and `binomial.dfy`):
  - the clamped hit chance and its advantage and disadvantage forms;
  - `factorial` and `combination`;
  - `binomialProbability` and the cumulative "at least K of N attacks hit" rate;
  - the chart over AC 6..25 and the critical-hit chance;
  - the two mutually exclusive mode buttons;
  - the change and blur handlers of the numeric inputs.
- **Animate Objects** (`animate_objects.dfy`, module `AnimateObjects`):
  - the stat table of the five object sizes;
  - the ten-point budget, which accepts or rejects each change and keeps the conservation invariant;
  - the hit rate and the average dice damage;
  - the chart over AC 6..25 of each size's hit rate and expected damage, with the swarm's total.
- **Damage simulator** (`damage_simulation.dfy`, module `DamageSimulation`):
  - 100 trials, each a crit decision followed by dice rolls;
  - the running total, minimum, maximum and frequency dictionary;
  - the average, the theoretical bounds and the histogram sorted by damage;
  - `Math.random` is an oracle, described below.
- `d20.dfy` (module `D20`) holds the clamped d20 chance that three of the pages compute inline. It proves that the clamp is exactly the fraction of faces that succeed under the natural-1 / natural-20 rule.

Every probability has the form k/20, or is a product or power of such values, so the model uses exact `real` arithmetic. State that the pages keep in React hooks is held in class fields: `SkillCheckCalculator`, `HitRateCalculator`, `AnimateObjectsCalculator` and `DamageSimulator`. The event handlers are methods that change those fields. The loops that build a result step by step are methods with loop invariants:
- the cumulative `for` loop of the hit-rate page (`HitRate.CumulativeHitRate`);
- the skill page's `Array.from` sweep over DC 10..30 and its `reduce` over the selected skills (`SkillCheck.GenerateData`, `SkillCheck.SelectedRates`);
- the Animate Objects sweep over AC 6..25, its `forEach` over the sizes and its `reduce` for the total (`AnimateObjects.GenerateData`, `AnimateObjects.PerTypeEntries`, `AnimateObjects.TotalExpectedDamage`);
- the simulator's trial `for` loop, the `Object.entries` walk over the frequency dictionary and the in-place `sort` (`DamageSimulation.SimulationLoop`, `DamageSimulation.HistogramEntries`, `DamageSimulation.SortByDamage`).

Each of these methods is proved against a function on values, and lemmas then prove what the pages promise about that function. Two computations are functions, not methods, because the source writes each as one expression that updates no variable:
- the hit-rate chart's nested `Array.from` and the `reduce` that merges its keys (`HitRate.GenerateData`);
- `simulateDamage`'s `Array.from`, `map` and `reduce` over one trial's dice (`DamageSimulation.Rolls`, `DamageSimulation.Sum`, `DamageSimulation.SimulateDamage`).

**The binomial tail.** The page's formula `combination(n, k) * p^k * (1 - p)^(n - k)` is proved equal to a reference that counts runs with Pascal's rule. The reference keeps the chance of failure `q` as its own parameter. The binomial theorem `sum = (p + q)^n` is proved for every p and q, and the page's distribution is the case q = 1 - p.

**Randomness.** A `Trial` in the damage simulator carries the raw `Math.random` draws, in the order the page consumes them:
- the draw that decides the crit;
- one draw per die, each in [0, 1).

`simulateRoll` is modelled as `floor(r * diceType) + 1` on those draws. The model states no statistical or expected-value claims.

**Places where the code's behaviour is surprising; the model keeps it as written:**
- **Reliable talent.** The formula `min(max((21 - min(threshold, 11)) / 20, 0.05), 1)` always gives reliable talent at least a 50% chance, even against a DC the character cannot reach. It is exactly "a face succeeds when it reaches the threshold or shows 11 or more" (`SkillCheck.ReliableChanceCountsFaces`).
- **The `critChance` prop.** The hit-rate page passes its mode-dependent crit chance to the simulator. The simulator does not read it and always uses a fixed 5% (`DamageSimulation.CritIgnoresMode`).
- **The budget.** It allows a negative number of objects of one size, provided the count of points left stays within 0..10 (`AnimateObjects.NegativeAllocationAccepted`).
- **Expertise.** It adds the proficiency bonus even when `proficient` is not set (`SkillCheck.FlagsAddBonus`).
- **Both mode flags.** When both are set, advantage takes precedence. The buttons never produce that state (`HitRate.ModesOrdered`, `HitRate.PressesExclusive`).

The pages have no heterogeneous per-attack bonuses, multi-term damage expressions, seeded generators or configurable trial counts, so the model has none. It follows the code.

## Model

| member | source | states |
|---|---|---|
| D20.Clamp | src/components/HitRateCalculator.jsx:51 | `min(max(x, lo), hi)` lies in [lo, hi]; it is x inside the bounds, lo below them and hi above them |
| D20.Chance | src/components/Skills.jsx:204-208 | the clamped d20 chance lies in [0.05, 0.95] and equals (21 - t)/20 for thresholds 2..20 |
| D20.ChanceAntitone | src/components/Skills.jsx:205-208 | a higher threshold never gives a higher chance |
| D20.SucceedingFacesAbove | src/components/HitRateCalculator.jsx:51 | the count of d20 faces from..20 that succeed under the natural-1 / natural-20 rule, in closed form |
| D20.ChanceCountsFaces | src/components/HitRateCalculator.jsx:51 | the clamped formula equals the number of succeeding faces out of 20, for every threshold |
| SkillCheck.InitialAttributesComplete | src/components/Skills.jsx:14-21 | the initial attribute map has a score for each of the six abilities |
| SkillCheck.WithFlag | src/components/Skills.jsx:174-177 | setting one flag of a skill makes that flag read back as the value, keeping the name, the ability and every other flag |
| SkillCheck.Modifier | src/components/Skills.jsx:180-182 | the modifier is the integer m with 2m <= score - 10 < 2m + 2, i.e. floor((score - 10)/2) for negative scores too |
| SkillCheck.ModifierMonotone | src/components/Skills.jsx:180-182 | the modifier never falls as the score rises |
| SkillCheck.ModifierExamples | src/components/Skills.jsx:180-182 | 10 and 11 give 0, 9 and 8 give -1, 20 gives 5 and 1 gives -5 |
| SkillCheck.ProficiencyBonus | src/components/Skills.jsx:184-186 | the bonus b satisfies 4(b - 2) <= level - 1 < 4(b - 2) + 4 |
| SkillCheck.ProficiencyBonusMonotone | src/components/Skills.jsx:184-186 | the bonus never falls as the level rises |
| SkillCheck.ProficiencyBonusTable | src/components/Skills.jsx:184-186 | levels 1-4 give 2, 5-8 give 3, 9-12 give 4, 13-16 give 5 and 17-20 give 6 |
| SkillCheck.SkillModifier | src/components/Skills.jsx:188-194 | definition: the ability modifier of the skill's attribute, plus the proficiency bonus once for `proficient` and once more for `expertise`; properties in `SkillCheck.FlagsAddBonus` and `SkillCheck.SuccessRate` |
| SkillCheck.FlagsAddBonus | src/components/Skills.jsx:188-194 | proficient and expertise each add the proficiency bonus independently; expertise adds it without proficient; with neither, the modifier is the ability modifier |
| SkillCheck.ReliableChance | src/components/Skills.jsx:199-203 | the reliable-talent chance lies in [0.5, 1], is (21 - t)/20 for thresholds 2..11 and 0.5 for every threshold of 11 or more |
| SkillCheck.ReliableChanceAntitone | src/components/Skills.jsx:199-203 | a higher threshold never gives a higher reliable-talent chance |
| SkillCheck.ReliableFacesAbove | src/components/Skills.jsx:199-203 | the count of faces that reach the threshold or show 11 or more, in closed form |
| SkillCheck.ReliableChanceCountsFaces | src/components/Skills.jsx:199-203 | the reliable-talent formula equals the fraction of faces that reach the threshold or show 11 or more |
| SkillCheck.ReliableNeverWorse | src/components/Skills.jsx:199-208 | for the same threshold, the reliable-talent chance is never below the plain chance |
| SkillCheck.SuccessRate | src/components/Skills.jsx:188-211 | the success rate in percent lies in [5, 95] without reliable talent and in [50, 100] with it |
| SkillCheck.SuccessRateAntitone | src/components/Skills.jsx:196-209 | a higher DC never gives a higher success rate, with or without reliable talent |
| SkillCheck.ReliableTalentNeverLowersRate | src/components/Skills.jsx:196-209 | turning reliable talent on never lowers a skill's rate at any DC |
| SkillCheck.SuccessRateExamples | src/components/Skills.jsx:188-211 | proficient Arcana with Intelligence 10 at level 1 gives 55% at DC 12 and 5% at DC 25, and 50% at DC 25 with reliable talent; with expertise too it gives 75% at DC 10 and 100% at DC 5 |
| SkillCheck.SelectedRates | src/components/Skills.jsx:219-224 | the reduce's result has a `successRate{index}` key for exactly the selected skills, each holding that skill's rate at the DC |
| SkillCheck.GenerateData | src/components/Skills.jsx:214-227 | the chart has 21 points with dc = 10..30 in order; each point holds the rates of exactly the selected skills; along every curve the rate never rises |
| SkillCheck.SkillCheckCalculator.constructor | src/components/Skills.jsx:14-168 | every score is 10, the level is 1 and the eighteen skills have no flag set |
| SkillCheck.SkillCheckCalculator.UpdateAttribute | src/components/Skills.jsx:170-172 | only the named score changes; the level and the skills are kept |
| SkillCheck.SkillCheckCalculator.SetLevel | src/components/Skills.jsx:284 | the level becomes the value; the scores and the skills are kept |
| SkillCheck.SkillCheckCalculator.UpdateSkill | src/components/Skills.jsx:174-178 | only the named flag of the skill at the index changes; every other skill and flag, the scores and the level are kept |
| Combinatorics.Factorial | src/components/HitRateCalculator.jsx:82-85 | `factorial` is at least 1 for every argument, including arguments of 1 or less |
| Combinatorics.FactorialStep | src/components/HitRateCalculator.jsx:82-85 | factorial(n) = n * factorial(n - 1) for n >= 1 |
| Combinatorics.Choose | src/components/HitRateCalculator.jsx:77-80 | definition: the reference binomial coefficient by Pascal's rule (1 at k = 0, 0 when n = 0 < k, else C(n-1, k-1) + C(n-1, k)); `combination` is proved equal to it in `Combinatorics.CombinationIsChoose` |
| Combinatorics.ChooseAbove | src/components/HitRateCalculator.jsx:77-80 | the Pascal's-rule coefficient is 0 when k exceeds n |
| Combinatorics.ChooseAll | src/components/HitRateCalculator.jsx:77-80 | the Pascal's-rule coefficient C(n, n) is 1 |
| Combinatorics.ChooseFactorial | src/components/HitRateCalculator.jsx:77-80 | C(n, k) * k! * (n - k)! = n! for the Pascal's-rule coefficient |
| Combinatorics.Combination | src/components/HitRateCalculator.jsx:77-80 | definition: `combination`, 1 when k = 0 or k = n, otherwise n! / (k! (n - k)!); properties in `Combinatorics.CombinationIsChoose` and `Combinatorics.CombinationSymmetric` |
| Combinatorics.CombinationIsChoose | src/components/HitRateCalculator.jsx:77-80 | for 0 <= k <= n, `combination(n, k)` (1 at the ends, else the factorial quotient) equals the Pascal's-rule coefficient |
| Combinatorics.ChooseSymmetric | src/components/HitRateCalculator.jsx:77-80 | C(n, k) = C(n, n - k) |
| Combinatorics.CombinationSymmetric | src/components/HitRateCalculator.jsx:77-80 | `combination` is symmetric in k and n - k and is 1 at k = 0 and k = n |
| Binomial.Pow | src/components/HitRateCalculator.jsx:74 | definition: the `**` power at a whole exponent, x^0 = 1 and x^(e+1) = x x^e; properties in `Binomial.PowNonnegative` and `Binomial.PowOne` |
| Binomial.Binomial | src/components/HitRateCalculator.jsx:73-75 | definition: `binomialProbability`, `combination(n, k) * p^k * (1 - p)^(n - k)`; equal to the reference term in `Binomial.BinomialIsExactHits` |
| Binomial.ExactHits | src/components/HitRateCalculator.jsx:73-75 | definition: the reference chance of exactly k successes in n trials, C(n, k) p^k q^(n-k) with the Pascal coefficient and q kept apart from p; properties in `Binomial.ExactHitsNonnegative`, `Binomial.ExactHitsPascal` and `Binomial.ExactHitsNone` |
| Binomial.BinomialIsExactHits | src/components/HitRateCalculator.jsx:73-75 | `binomialProbability(n, k, p)` is the reference weight of exactly k successes among n trials with q = 1 - p |
| Binomial.ExactHitsNonnegative | src/components/HitRateCalculator.jsx:73-75 | each term of the distribution is non-negative when p and q are |
| Binomial.ExactHitsPascal | src/components/HitRateCalculator.jsx:73-75 | the terms for n + 1 trials arise from those for n by Pascal's rule: p times the term for k - 1 plus q times the term for k |
| Binomial.PascalNone | src/components/HitRateCalculator.jsx:73-75 | the term for no success among n + 1 trials is q times that among n |
| Binomial.ExactHitsNone | src/components/HitRateCalculator.jsx:73-75 | the term for no success is q^n |
| Binomial.Tail | src/components/HitRateCalculator.jsx:62-71 | definition: the sum of the exact-hits terms for k..n, 0 when k > n, which the cumulative loop adds up; properties in `Binomial.TailStep` through `Binomial.TailBounds` |
| Binomial.TailStep | src/components/HitRateCalculator.jsx:66-68 | the tail for n + 1 trials is p times the tail from k - 1 plus q times the tail from k, for n trials |
| Binomial.TailZeroStep | src/components/HitRateCalculator.jsx:66-68 | one more trial multiplies the sum of all terms by p + q |
| Binomial.TailTotal | src/components/HitRateCalculator.jsx:66-68 | the binomial theorem: the sum of all terms is (p + q)^n |
| Binomial.TailTotalOne | src/components/HitRateCalculator.jsx:66-68 | with q = 1 - p, the terms i = 0..n add up to 1 |
| Binomial.TailAtOne | src/components/HitRateCalculator.jsx:66-68 | the chance of at least one success is 1 - (1 - p)^n |
| Binomial.TailAtCount | src/components/HitRateCalculator.jsx:66-68 | the chance of n successes out of n is p^n |
| Binomial.TailAntitoneStep | src/components/HitRateCalculator.jsx:66-68 | needing one more success never raises the tail (for p, q >= 0) |
| Binomial.TailAntitone | src/components/HitRateCalculator.jsx:66-68 | the tail never rises as the number of successes needed grows |
| Binomial.TailNonnegative | src/components/HitRateCalculator.jsx:66-68 | the tail is non-negative for p, q >= 0 |
| Binomial.TailMonotone | src/components/HitRateCalculator.jsx:62-75 | for chances p1 <= p2 in [0, 1], "at least k of n" under p1 is never likelier than under p2 |
| Binomial.TailBounds | src/components/HitRateCalculator.jsx:62-75 | for p in [0, 1] the tail "at least k of n" lies in [0, 1] |
| HitRate.BaseHitChance | src/components/HitRateCalculator.jsx:49-51 | the hit chance lies in [0.05, 0.95] and equals (21 - (ac - attackModifier))/20 inside the clamp |
| HitRate.BaseHitChanceMonotone | src/components/HitRateCalculator.jsx:49-51 | the hit chance never rises with the AC and never falls with the attack modifier |
| HitRate.Advantaged | src/components/HitRateCalculator.jsx:53-54 | definition: the advantage transform `1 - (1 - p)^2`; properties in `HitRate.TransformsMonotone` and `HitRate.TransformsOrdered` |
| HitRate.Disadvantaged | src/components/HitRateCalculator.jsx:55-56 | definition: the disadvantage transform `p^2`; properties in `HitRate.TransformsMonotone` and `HitRate.TransformsOrdered` |
| HitRate.TransformsMonotone | src/components/HitRateCalculator.jsx:53-57 | the advantage and disadvantage transforms keep the order of chances in [0, 1] |
| HitRate.TransformsOrdered | src/components/HitRateCalculator.jsx:53-57 | disadvantage(p) <= p <= advantage(p) for p in [0, 1] |
| HitRate.HitChance | src/components/HitRateCalculator.jsx:49-60 | the chance lies in [0, 1]: in [0.0975, 0.9975] under advantage, in [0.0025, 0.9025] under disadvantage alone, and is the base chance with neither flag |
| HitRate.ModesOrdered | src/components/HitRateCalculator.jsx:53-57 | advantage >= normal >= disadvantage at the same AC; with both flags set advantage applies |
| HitRate.HitChanceMonotone | src/components/HitRateCalculator.jsx:49-60 | in every mode the chance never rises with the AC and never falls with the attack modifier |
| HitRate.CritChance | src/components/HitRateCalculator.jsx:99-107 | the crit chance is 39/400 under advantage, 1/400 under disadvantage alone and 1/20 otherwise |
| HitRate.CritNeverExceedsHit | src/components/HitRateCalculator.jsx:99-107 | the crit chance is the natural-20 chance through the same mode transform, and never exceeds the hit chance |
| HitRate.CumulativeRate | src/components/HitRateCalculator.jsx:62-71 | definition: the chart value at an AC, 100 times the tail "at least attacksNeeded of attackCount" under the mode's hit chance p and q = 1 - p; `HitRate.CumulativeHitRate` computes it, and its properties are in `HitRate.CumulativeRateProperties` and `HitRate.CumulativeRateMonotone` |
| HitRate.CumulativeHitRate | src/components/HitRateCalculator.jsx:62-71 | the loop's percentage is 100 times the binomial tail from attacksNeeded to attackCount, and lies in [0, 100] |
| HitRate.CumulativeRateProperties | src/components/HitRateCalculator.jsx:62-75 | the rate lies in [0, 100]; it never rises as more hits are needed; it is 0 beyond attackCount, 100 p^n at K = n, and 100 (1 - (1 - p)^n) at K = 1 |
| HitRate.AttackNumbers | src/components/HitRateCalculator.jsx:92-94 | the curve keys are exactly 1..attackCount |
| HitRate.GenerateData | src/components/HitRateCalculator.jsx:87-97 | the chart has 20 points with ac = 6..25, each with the keys `hitRate1`..`hitRate{attackCount}` |
| HitRate.CumulativeRateMonotone | src/components/HitRateCalculator.jsx:49-71 | for the same attack count and mode, the rate at a higher AC or a lower attack modifier is never higher |
| HitRate.GenerateDataOrdered | src/components/HitRateCalculator.jsx:87-97 | `hitRate{j}` is the cumulative rate for j needed hits and is a percentage; `hitRate{j+1}` <= `hitRate{j}`; and `hitRate{j}` never rises from one AC to the next |
| HitRate.Toggle | src/components/HitRateCalculator.jsx:109-117 | each button flips its own flag and clears the other |
| HitRate.PressesExclusive | src/components/HitRateCalculator.jsx:109-117 | from a state without both flags, no sequence of presses sets both |
| HitRate.ChangedValue | src/components/HitRateCalculator.jsx:25-35 | "" and "-" are stored as typed, a parsed number is stored, and NaN leaves the field unchanged |
| HitRate.BlurredValue | src/components/HitRateCalculator.jsx:37-47 | "" or "-" becomes `minValue` or 0; a number inside the given bounds is kept; with given bounds the result respects them |
| HitRate.BlurIdempotent | src/components/HitRateCalculator.jsx:37-47 | for coherent bounds, blurring a second time changes nothing |
| HitRate.HitRateCalculator.constructor | src/components/HitRateCalculator.jsx:17-23 | one attack, modifiers 0, a d6, one die, both mode flags false |
| HitRate.HitRateCalculator.ToggleAdvantage | src/components/HitRateCalculator.jsx:109-112 | the mode becomes the advantage toggle of the old mode; the inputs and the die are kept; the flags are never both set |
| HitRate.HitRateCalculator.ToggleDisadvantage | src/components/HitRateCalculator.jsx:114-117 | the mode becomes the disadvantage toggle of the old mode; the inputs and the die are kept; the flags are never both set |
| HitRate.HitRateCalculator.HandleInputChange | src/components/HitRateCalculator.jsx:25-35 | only the edited input changes, to the handler's value for the entry |
| HitRate.HitRateCalculator.HandleBlur | src/components/HitRateCalculator.jsx:37-47 | only the blurred input changes, to the normalised number; with the bounds of lines 150 and 195 the attack count ends in 1..10 and the dice count at 1 or more |
| HitRate.HitRateCalculator.SelectDiceType | src/components/HitRateCalculator.jsx:173-184 | the die becomes the chosen option, one of d4, d6, d8, d10 and d12; the inputs and the mode are kept |
| HitRate.HitRateCalculator.Setup | src/components/HitRateCalculator.jsx:49-50 | the values the formulas read carry the inputs' numbers and never both mode flags |
| AnimateObjects.Stats | src/components/AnimateObjects.jsx:8-66 | definition: the five stat lines (HP, AC, Str, Dex, attack, dice count, dice type, damage modifier, cost) as the table gives them; the averages they lead to are in `AnimateObjects.ObjectAverageDamages` |
| AnimateObjects.Index | src/components/AnimateObjects.jsx:68 | each size has a position in the table order, and the order lists it there |
| AnimateObjects.AllTypesIn | src/components/AnimateObjects.jsx:6 | a map with the five sizes as keys covers every size |
| AnimateObjects.InitialAllocation | src/components/AnimateObjects.jsx:5-6 | the page starts with ten points, no objects, and the budget conserved |
| AnimateObjects.NewCount | src/components/AnimateObjects.jsx:71 | definition: the points left after refunding the old objects of the size and paying for the new ones; `AnimateObjects.ObjectChange` accepts a change exactly when it lies in 0..10, and `AnimateObjects.ObjectChangeConserves` proves the budget kept |
| AnimateObjects.ObjectChange | src/components/AnimateObjects.jsx:70-76 | a change is applied exactly when the new count lies in 0..10, and then sets the count and only that size; otherwise nothing changes |
| AnimateObjects.ObjectChangeConserves | src/components/AnimateObjects.jsx:70-76 | every change, accepted or not, keeps count + spent = 10 with count in 0..10; other sizes are untouched |
| AnimateObjects.NegativeAllocationAccepted | src/components/AnimateObjects.jsx:70-76 | from the start, two tiny objects and then -1 small object are both accepted: counts need not stay non-negative |
| AnimateObjects.AnimateObjectsCalculator.constructor | src/components/AnimateObjects.jsx:5-6 | the state is the initial allocation, which is conserved |
| AnimateObjects.AnimateObjectsCalculator.HandleObjectChange | src/components/AnimateObjects.jsx:70-76 | the new state is the change applied to the old one, and the budget stays conserved |
| AnimateObjects.ObjectHitRate | src/components/AnimateObjects.jsx:78-81 | the hit rate lies in [0.05, 0.95] |
| AnimateObjects.ObjectHitRateIsBaseHitChance | src/components/AnimateObjects.jsx:78-81 | the page's formula equals the hit-rate page's base chance for the same AC and bonus |
| AnimateObjects.ObjectHitRateAntitone | src/components/AnimateObjects.jsx:78-81 | the hit rate never rises with the AC |
| AnimateObjects.AverageDamage | src/components/AnimateObjects.jsx:83-85 | definition: `calculateAverageDamage`, diceCount (diceType + 1)/2 + damageMod; proved the mean dice roll in `AnimateObjects.AverageDamageIsMean` |
| AnimateObjects.ObjectAverageDamage | src/components/AnimateObjects.jsx:95 | definition: `calculateAverageDamage` of one size's stat line; values in `AnimateObjects.ObjectAverageDamages` |
| AnimateObjects.FaceSumClosedForm | src/components/AnimateObjects.jsx:83-85 | 1 + ... + d = d(d + 1)/2 |
| AnimateObjects.AverageDamageIsMean | src/components/AnimateObjects.jsx:83-85 | `diceCount * ((diceType + 1)/2) + damageMod` is diceCount times the mean face plus the modifier |
| AnimateObjects.ObjectAverageDamages | src/components/AnimateObjects.jsx:8-66 | the stat lines average 6.5 (1d4+4), 6.5 (1d8+2), 8 (2d6+1), 13 (2d10+2) and 17 (2d12+4) |
| AnimateObjects.ObjectAverageDamagePositive | src/components/AnimateObjects.jsx:83-85 | every size's average damage is positive |
| AnimateObjects.PartsTotalMatches | src/components/AnimateObjects.jsx:91-108 | the sum of the per-size damages of the forEach equals the reduce's total |
| AnimateObjects.SizeTerms | src/components/AnimateObjects.jsx:93-97 | the callback's hit rate and `hitRate * avgDamage * count` for one size |
| AnimateObjects.PerTypeEntries | src/components/AnimateObjects.jsx:91-99 | keys exactly for the sizes with count > 0, holding each one's hit rate in percent and its expected damage |
| AnimateObjects.TotalExpectedDamage | src/components/AnimateObjects.jsx:100-108 | the reduce's result is the sum over sizes with count > 0 of hit rate x average damage x count |
| AnimateObjects.PointAt | src/components/AnimateObjects.jsx:88-110 | one chart point with those keys, and a total equal to the sum of the exact per-size damages (the source rounds each per-size value it shows, but not the total) |
| AnimateObjects.GenerateData | src/components/AnimateObjects.jsx:87-111 | 20 points for ac = 6..25, each such a point |
| AnimateObjects.Expected | src/components/AnimateObjects.jsx:97 | definition: `hitRate * avgDamage * count`; properties in `AnimateObjects.ExpectedMonotone` and `AnimateObjects.ExpectedNonnegative` |
| AnimateObjects.ExpectedDamage | src/components/AnimateObjects.jsx:94-97 | definition: `Expected` of one size's hit rate at an AC, its average damage and its count; antitone in the AC by `AnimateObjects.ExpectedDamageAntitone` |
| AnimateObjects.Contribution | src/components/AnimateObjects.jsx:101-107 | definition: the reduce's term for one size, its expected damage when its count is positive and 0 otherwise; antitone in the AC by `AnimateObjects.ContributionAntitone` |
| AnimateObjects.TotalOver | src/components/AnimateObjects.jsx:100-108 | definition: the reduce over a sequence of sizes, adding the terms left to right from 0; `AnimateObjects.TotalExpectedDamage` computes it, and its properties are in `AnimateObjects.TotalOverAntitone`, `AnimateObjects.TotalOverNonnegative` and `AnimateObjects.PartsTotalMatches` |
| AnimateObjects.ExpectedMonotone | src/components/AnimateObjects.jsx:97 | expected damage grows with the hit chance |
| AnimateObjects.ExpectedNonnegative | src/components/AnimateObjects.jsx:97 | expected damage is non-negative for non-negative factors |
| AnimateObjects.ExpectedDamageAntitone | src/components/AnimateObjects.jsx:94-97 | a size's expected damage never rises with the AC |
| AnimateObjects.ContributionAntitone | src/components/AnimateObjects.jsx:100-108 | a size's term of the total never rises with the AC |
| AnimateObjects.TotalOverAntitone | src/components/AnimateObjects.jsx:100-108 | the total expected damage never rises with the AC |
| AnimateObjects.TotalOverNonnegative | src/components/AnimateObjects.jsx:100-108 | the total expected damage is never negative |
| DamageSimulation.Roll | src/components/DamageSimulator.jsx:20-22 | definition: `simulateRoll` on a given draw r, floor(r diceType) + 1; properties in `DamageSimulation.RollRange` and `DamageSimulation.RollFace` |
| DamageSimulation.RollRange | src/components/DamageSimulator.jsx:20-22 | a draw in [0, 1) scales into [0, diceType) and gives a face in 1..diceType |
| DamageSimulation.RollFace | src/components/DamageSimulator.jsx:20-22 | a draw in [0, 1) gives a face in 1..diceType; face f comes from exactly the draws in [(f - 1)/d, f/d) |
| DamageSimulation.IsCritical | src/components/DamageSimulator.jsx:39 | definition: the crit test `Math.random() < 0.05` on the trial's first draw; property in `DamageSimulation.CritIgnoresMode` |
| DamageSimulation.CritIgnoresMode | src/components/DamageSimulator.jsx:39 | the crit test is the normal-mode crit chance whatever the hit-rate page's mode; under advantage a draw of 0.06 is below that page's crit chance yet no crit here |
| DamageSimulation.DiceRolled | src/components/DamageSimulator.jsx:25 | definition: twice diceCount on a crit, diceCount otherwise; used by `DamageSimulation.SimulateDamageBounds` |
| DamageSimulation.Sum | src/components/DamageSimulator.jsx:28 | definition: the left-to-right reduce `sum + roll` from 0; properties in `DamageSimulation.SumBounds` |
| DamageSimulation.SumBounds | src/components/DamageSimulator.jsx:28 | a sum of values in [lo, hi] lies in [lo n, hi n] |
| DamageSimulation.Rolls | src/components/DamageSimulator.jsx:25-27 | one roll per draw |
| DamageSimulation.SimulateDamage | src/components/DamageSimulator.jsx:24-29 | definition: `simulateDamage`, the sum of the rolls of the dice the crit decision calls for, plus the modifier; properties in `DamageSimulation.SimulateDamageBounds` |
| DamageSimulation.MinPossible | src/components/DamageSimulator.jsx:50 | definition: `minPossible`, diceCount + damageModifier; every trial is at least this by `DamageSimulation.SimulateDamageBounds` and `DamageSimulation.DamagesWithinPossible` |
| DamageSimulation.MaxPossible | src/components/DamageSimulator.jsx:51 | definition: `maxPossible`, diceCount 2 diceType + damageModifier; every trial is at most this by `DamageSimulation.SimulateDamageBounds` and `DamageSimulation.DamagesWithinPossible` |
| DamageSimulation.SimulateDamageBounds | src/components/DamageSimulator.jsx:24-29 | with N dice, the damage lies in [N + mod, N d + mod]; a non-crit trial lies in [diceCount + mod, diceCount d + mod]; every trial lies between minPossible and maxPossible |
| DamageSimulation.Damages | src/components/DamageSimulator.jsx:38-40 | the damage of each trial, in order |
| DamageSimulation.CountPositive | src/components/DamageSimulator.jsx:44 | a value has a positive count exactly when it occurs |
| DamageSimulation.Record | src/components/DamageSimulator.jsx:44 | definition: the frequency increment of one damage, counting from 0 when the damage is new; it keeps an exact tally by `DamageSimulation.RecordTallies` |
| DamageSimulation.RecordTallies | src/components/DamageSimulator.jsx:44 | the frequency increment keeps the dictionary an exact tally of the damages seen |
| DamageSimulation.SimulationLoop | src/components/DamageSimulator.jsx:32-45 | the total is the sum of the damages; the minimum and maximum are attained and bound every damage and 100 times the mean; the keys are exactly the damages, each with its count, at least 1; with diceType >= 1 they lie in [minPossible, maxPossible] |
| DamageSimulation.ExtremesStep | src/components/DamageSimulator.jsx:42-43 | `Math.min` / `Math.max` with the new damage keep the bounds attained and bounding |
| DamageSimulation.RunSummary | src/components/DamageSimulator.jsx:41-44 | after all trials the total lies between n times the minimum and n times the maximum; every frequency is at least 1 |
| DamageSimulation.TalliesPositive | src/components/DamageSimulator.jsx:44 | every key of an exact tally has frequency at least 1 |
| DamageSimulation.DamagesWithinPossible | src/components/DamageSimulator.jsx:50-51 | with diceType >= 1, every trial's damage lies in [minPossible, maxPossible] |
| DamageSimulation.SortByDamage | src/components/DamageSimulator.jsx:57 | the sort orders the entries by damage, permutes them, and keeps distinct damages distinct |
| DamageSimulation.InsertLast | src/components/DamageSimulator.jsx:57 | one pass sinks an entry into the sorted prefix, permuting the array |
| DamageSimulation.SwapPreserves | src/components/DamageSimulator.jsx:57 | exchanging neighbours permutes the entries and keeps distinct damages distinct |
| DamageSimulation.DamageHistogram | src/components/DamageSimulator.jsx:53-57 | entries strictly ascending by damage, one for every key, each with the key's frequency, whatever order `Object.entries` yields |
| DamageSimulation.HistogramEntries | src/components/DamageSimulator.jsx:53-56 | the entries are exactly the dictionary's keys with their frequencies, with distinct damages |
| DamageSimulation.PermutedEntries | src/components/DamageSimulator.jsx:53-57 | a permutation of the entries of a dictionary is still its entries |
| DamageSimulation.SortedDistinctIsStrict | src/components/DamageSimulator.jsx:57 | sorted entries with distinct damages are strictly ascending |
| DamageSimulation.HistogramTotal | src/components/DamageSimulator.jsx:36-57 | the histogram's frequencies add up to the number of trials |
| DamageSimulation.MeanBetween | src/components/DamageSimulator.jsx:47 | the mean of values in [lo, hi] lies in [lo, hi] |
| DamageSimulation.DamageSimulator.constructor | src/components/DamageSimulator.jsx:13-18 | every displayed value starts at 0 and the histogram empty |
| DamageSimulation.DamageSimulator.RunSimulation | src/components/DamageSimulator.jsx:31-59 | the average is the total over 100 and lies between the displayed minimum and maximum, which are attained damages bounding every trial; the theoretical bounds are diceCount + mod and 2 diceCount diceType + mod and enclose the observed ones when diceType >= 1; the histogram is strictly ascending, each entry an observed damage with its count (at least 1), every damage shown, frequencies summing to 100 |

## Left out

- Rounding by `Number(x.toFixed(2))` is not modelled. Every percentage and average is exact. This affects four sources:
  - the skill rates (`Skills.jsx:211`);
  - the cumulative hit rate (`HitRateCalculator.jsx:70`);
  - the animate-objects chart values (`AnimateObjects.jsx:96-97`);
  - the simulator's average (`DamageSimulator.jsx:47`).
- HitRate.CumulativeHitRate: returns the exact percentage rather than the value rounded to two decimals.
- AnimateObjects.PerTypeEntries: stores the exact hit rate and expected damage rather than the values rounded to two decimals.
- DamageSimulation.DamageSimulator.RunSimulation: stores the exact average rather than the value rounded to two decimals.
- SkillCheck.SkillCheckCalculator.UpdateSkill: the source copies the array but writes the flag into the skill object that the old array shares. The model replaces the skill by value, so it does not capture that aliasing.
- HitRate.HitRateCalculator.Setup: requires both numeric inputs to hold numbers. While the attack count or the attack modifier is blank or a lone minus, the page still draws its chart: JavaScript reads a blank as 0 and a lone minus as NaN. The model states nothing about the chart in that state.
- `parseInt` prefix parsing and NaN:
  - In the numeric inputs of the hit-rate page, the entry is an abstract `Entry` value: blank, minus, a parsed number or NaN.
  - An attribute or level that `parseInt` turns into NaN is not modelled; scores and levels are integers.
  - Animate Objects' `parseInt(...) || 0` is modelled as an integer argument.
- Floating-point behaviour is not modelled:
  - the precision of the factorial quotient in `combination`;
  - the `Math.floor` of a float product in `simulateRoll`. The model takes the exact floor of `r * diceType`.
- JavaScript's `Infinity` and `-Infinity` sentinels for the running minimum and maximum. The model seeds both from the first trial's damage. This is equivalent here, because there are always 100 trials.
- `Math.random` is an oracle: the `Trial` sequence passed to the simulation. No statistical property of the simulation is claimed.
- The simulator's `diceCount` is a natural number. The page can pass a negative or non-numeric value while an input is being edited, and JavaScript's `Array(n)` then fails or misbehaves.
- The simulator's `damageModifier` is an integer. The hit-rate page passes the raw field (`HitRateCalculator.jsx:273`), which is a blank or a lone minus while the user edits it. JavaScript's `+` then concatenates strings: each damage and the running total become strings, the minimum and maximum become NaN for a lone minus, and the theoretical bounds are shown as strings. The model does not describe that state.
- The order in which `Object.entries` lists the keys. The model leaves it open, and its results hold for every order.
- The React mechanics are not modelled:
  - `useState` setters batching their updates;
  - `useEffect` re-running when its dependencies change;
  - the re-render between a setter and the next read.

  Each handler is one atomic method on the class state.
- The JSX markup, the recharts components, the colour arrays and the CSS classes.
- `src/App.jsx` and `src/components/Home.jsx` hold only routing and links, and are not part of this model.
