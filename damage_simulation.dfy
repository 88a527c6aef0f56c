/**
 * The damage simulator under the hit-rate page: 100 trials, each a crit
 * decision followed by rolling the damage dice (twice as many on a crit),
 * summarised as an average, the smallest and largest damage seen, the
 * theoretical bounds, and a histogram sorted by damage.
 *
 * `Math.random` is an oracle: each trial supplies the draw that decides the
 * crit and then one draw per die, each in [0, 1), in the order the page
 * consumes them.
 */
module DamageSimulation {
  import HitRate

  /** The dice the simulator is given: `diceCount`, `diceType` and
      `damageModifier`. */
  datatype DamageDice = DamageDice(diceCount: nat, diceType: int, damageModifier: int)

  /** The random draws of one trial. */
  datatype Trial = Trial(critDraw: real, dieDraws: seq<real>)

  /** One histogram entry. */
  datatype Bucket = Bucket(damage: int, frequency: nat)

  const Simulations: nat := 100

  /** The fixed threshold of `Math.random() < 0.05`. */
  const CritThreshold: real := 0.05

  predicate IsDraw(r: real)
  {
    0.0 <= r < 1.0
  }

  // ---------------------------------------------------------------------
  // One trial

  /** `simulateRoll`: floor(r * diceType) + 1. */
  function Roll(r: real, diceType: int): int
  {
    (r * diceType as real).Floor + 1
  }

  /** A draw in [0, 1) gives a face in 1..diceType. */
  lemma RollRange(r: real, diceType: int)
    requires IsDraw(r) && diceType >= 1
    ensures 0.0 <= r * diceType as real < diceType as real
    ensures 1 <= Roll(r, diceType) <= diceType
  {
    ProductBelow(r, diceType as real);
    FloorRange(r * diceType as real, diceType);
  }

  /** Face f comes exactly from the draws in [(f - 1) / diceType,
      f / diceType): every face gets an interval of the same width. */
  lemma RollFace(r: real, diceType: int, face: int)
    requires IsDraw(r) && diceType >= 1
    ensures 1 <= Roll(r, diceType) <= diceType
    ensures Roll(r, diceType) == face <==>
              (face - 1) as real / diceType as real <= r < face as real / diceType as real
  {
    RollRange(r, diceType);
    FloorFace(r * diceType as real, face);
    DivideBelow((face - 1) as real, diceType as real, r);
    DivideBelow(face as real, diceType as real, r);
  }

  lemma ProductBelow(r: real, d: real)
    requires 0.0 <= r < 1.0 && d >= 1.0
    ensures 0.0 <= r * d < d
  {
    assert d - r * d == (1.0 - r) * d;
  }

  /** The face a scaled draw `y` in [0, n) lands on lies in 1..n. */
  lemma FloorRange(y: real, n: int)
    requires 0.0 <= y < n as real
    ensures 1 <= y.Floor + 1 <= n
  {
  }

  /** The scaled draws that land on a given face. */
  lemma FloorFace(y: real, face: int)
    ensures y.Floor + 1 == face <==> (face - 1) as real <= y < face as real
  {
  }

  /** Multiplying through by a positive divisor. */
  lemma DivideBelow(x: real, d: real, r: real)
    requires d > 0.0
    ensures x / d <= r <==> x <= r * d
    ensures r < x / d <==> r * d < x
  {
    assert x / d * d == x;
    if x / d <= r {
      assert x / d * d <= r * d;
    }
    if r < x / d {
      assert r * d < x / d * d;
    }
  }

  predicate IsCritical(critDraw: real)
  {
    critDraw < CritThreshold
  }

  /** The crit threshold is the normal-mode crit chance of the hit-rate page,
      whatever mode that page is in: under advantage a draw of 0.06 lies
      below that page's crit chance yet is not a crit here. */
  lemma CritIgnoresMode()
    ensures forall r :: IsCritical(r) <==> r < HitRate.CritChance(HitRate.Mode(false, false))
    ensures 0.06 < HitRate.CritChance(HitRate.Mode(true, false)) && !IsCritical(0.06)
  {
  }

  /** The number of dice a trial rolls. */
  function DiceRolled(isCritical: bool, diceCount: nat): nat
  {
    if isCritical then diceCount * 2 else diceCount
  }

  /** The left-to-right reduce `sum + roll`. */
  function Sum(s: seq<int>): int
  {
    if s == [] then 0 else Sum(s[..|s| - 1]) + s[|s| - 1]
  }

  lemma {:induction false} SumBounds(s: seq<int>, lo: int, hi: int)
    requires forall i :: 0 <= i < |s| ==> lo <= s[i] <= hi
    ensures lo * |s| <= Sum(s) <= hi * |s|
  {
    if s != [] {
      SumBounds(s[..|s| - 1], lo, hi);
      assert lo * |s| == lo * (|s| - 1) + lo;
      assert hi * |s| == hi * (|s| - 1) + hi;
    }
  }

  function Rolls(draws: seq<real>, diceType: int): (rolls: seq<int>)
    ensures |rolls| == |draws|
  {
    seq(|draws|, i requires 0 <= i < |draws| => Roll(draws[i], diceType))
  }

  /** `simulateDamage(isCritical)`: one roll per draw, summed, plus the
      modifier. */
  function SimulateDamage(isCritical: bool, draws: seq<real>, dice: DamageDice): int
    requires |draws| == DiceRolled(isCritical, dice.diceCount)
  {
    Sum(Rolls(draws, dice.diceType)) + dice.damageModifier
  }

  /** A trial as the oracle supplies it: a crit draw and one draw per die,
      all in [0, 1). */
  predicate ValidTrial(t: Trial, dice: DamageDice)
  {
    && IsDraw(t.critDraw)
    && |t.dieDraws| == DiceRolled(IsCritical(t.critDraw), dice.diceCount)
    && forall i :: 0 <= i < |t.dieDraws| ==> IsDraw(t.dieDraws[i])
  }

  function TrialDamage(t: Trial, dice: DamageDice): int
    requires ValidTrial(t, dice)
  {
    SimulateDamage(IsCritical(t.critDraw), t.dieDraws, dice)
  }

  /** `minPossible`: every die shows 1 and there is no crit. */
  function MinPossible(dice: DamageDice): int
  {
    dice.diceCount + dice.damageModifier
  }

  /** `maxPossible`: a crit with every die on its top face. */
  function MaxPossible(dice: DamageDice): int
  {
    dice.diceCount * 2 * dice.diceType + dice.damageModifier
  }

  /** N dice of d faces give between N and N d plus the modifier; a trial
      without a crit therefore lies in [diceCount + mod, diceCount diceType +
      mod], and every trial between `minPossible` and `maxPossible`. */
  lemma SimulateDamageBounds(t: Trial, dice: DamageDice)
    requires ValidTrial(t, dice) && dice.diceType >= 1
    ensures var n := DiceRolled(IsCritical(t.critDraw), dice.diceCount);
            n + dice.damageModifier <= TrialDamage(t, dice) <= n * dice.diceType + dice.damageModifier
    ensures !IsCritical(t.critDraw) ==>
              MinPossible(dice) <= TrialDamage(t, dice) <= dice.diceCount * dice.diceType + dice.damageModifier
    ensures MinPossible(dice) <= TrialDamage(t, dice) <= MaxPossible(dice)
  {
    var rolls := Rolls(t.dieDraws, dice.diceType);
    forall i | 0 <= i < |rolls|
      ensures 1 <= rolls[i] <= dice.diceType
    {
      RollRange(t.dieDraws[i], dice.diceType);
    }
    SumBounds(rolls, 1, dice.diceType);
    var n := DiceRolled(IsCritical(t.critDraw), dice.diceCount);
    assert n * dice.diceType <= dice.diceCount * 2 * dice.diceType by {
      assert n <= dice.diceCount * 2;
    }
  }

  // ---------------------------------------------------------------------
  // The 100-trial loop

  /** The damage of each trial, in order. */
  function Damages(trials: seq<Trial>, dice: DamageDice): (ds: seq<int>)
    requires forall i :: 0 <= i < |trials| ==> ValidTrial(trials[i], dice)
    ensures |ds| == |trials|
    ensures forall i :: 0 <= i < |trials| ==> ds[i] == TrialDamage(trials[i], dice)
  {
    seq(|trials|, i requires 0 <= i < |trials| => TrialDamage(trials[i], dice))
  }

  /** The number of times `x` occurs in `s`. */
  function Count(s: seq<int>, x: int): nat
  {
    if s == [] then 0 else Count(s[..|s| - 1], x) + (if s[|s| - 1] == x then 1 else 0)
  }

  lemma {:induction false} CountPositive(s: seq<int>, x: int)
    ensures Count(s, x) > 0 <==> x in s
  {
    if s != [] {
      CountPositive(s[..|s| - 1], x);
      assert s == s[..|s| - 1] + [s[|s| - 1]];
    }
  }

  lemma CountAppend(s: seq<int>, x: int, d: int)
    ensures Count(s + [x], d) == Count(s, d) + (if x == d then 1 else 0)
  {
    assert (s + [x])[..|s + [x]| - 1] == s;
  }

  /** The frequency map records exactly the values of `s`, each with its
      number of occurrences. */
  ghost predicate Tallies(freq: map<int, nat>, s: seq<int>)
  {
    && (forall d :: d in freq <==> d in s)
    && (forall d :: d in freq ==> freq[d] == Count(s, d))
  }

  /** `damageFrequency[damage] = (damageFrequency[damage] || 0) + 1`. */
  function Record(freq: map<int, nat>, x: int): map<int, nat>
  {
    freq[x := (if x in freq then freq[x] else 0) + 1]
  }

  lemma RecordTallies(freq: map<int, nat>, s: seq<int>, x: int)
    requires Tallies(freq, s)
    ensures Tallies(Record(freq, x), s + [x])
  {
    forall d | d in Record(freq, x)
      ensures Record(freq, x)[d] == Count(s + [x], d)
    {
      CountAppend(s, x, d);
      if d != x {
        CountPositive(s, d);
      } else if x !in freq {
        CountPositive(s, x);
      }
    }
  }

  /** The `useEffect` loop: the running total, minimum and maximum, and the
      frequency of each damage. `Infinity` and `-Infinity` are modelled by
      taking the first trial's damage as both. */
  method SimulationLoop(trials: seq<Trial>, dice: DamageDice)
      returns (totalDamage: int, minDmg: int, maxDmg: int, damageFrequency: map<int, nat>)
    requires |trials| == Simulations
    requires forall i :: 0 <= i < |trials| ==> ValidTrial(trials[i], dice)
    ensures totalDamage == Sum(Damages(trials, dice))
    ensures minDmg in Damages(trials, dice) && maxDmg in Damages(trials, dice)
    ensures forall i :: 0 <= i < |trials| ==> minDmg <= Damages(trials, dice)[i] <= maxDmg
    ensures minDmg * Simulations <= totalDamage <= maxDmg * Simulations
    ensures forall d :: d in damageFrequency <==> d in Damages(trials, dice)
    ensures forall d :: d in damageFrequency ==> damageFrequency[d] == Count(Damages(trials, dice), d)
    ensures forall d :: d in damageFrequency ==> damageFrequency[d] >= 1
    ensures dice.diceType >= 1 ==> MinPossible(dice) <= minDmg && maxDmg <= MaxPossible(dice)
  {
    ghost var seen: seq<int> := [];
    totalDamage, minDmg, maxDmg, damageFrequency := 0, 0, 0, map[];
    var i := 0;
    while i < Simulations
      invariant 0 <= i <= Simulations && |seen| == i
      invariant Observed(seen, trials, dice)
      invariant totalDamage == Sum(seen)
      invariant i > 0 ==> minDmg in seen && maxDmg in seen
      invariant Within(seen, minDmg, maxDmg)
      invariant Tallies(damageFrequency, seen)
    {
      var t := trials[i];
      var damage := SimulateDamage(IsCritical(t.critDraw), t.dieDraws, dice);
      ObservedAppend(seen, trials, dice);
      SumAppend(seen, damage);
      RecordTallies(damageFrequency, seen, damage);
      ExtremesStep(seen, minDmg, maxDmg, damage);
      totalDamage := totalDamage + damage;
      if i == 0 || damage < minDmg {
        minDmg := damage;
      }
      if i == 0 || damage > maxDmg {
        maxDmg := damage;
      }
      damageFrequency := Record(damageFrequency, damage);
      seen := seen + [damage];
      i := i + 1;
    }
    ObservedAll(seen, trials, dice);
    RunSummary(seen, totalDamage, minDmg, maxDmg, damageFrequency);
    if dice.diceType >= 1 {
      DamagesWithinPossible(trials, dice);
    }
  }

  /** `seen` holds the damages of the first |seen| trials. */
  ghost predicate Observed(seen: seq<int>, trials: seq<Trial>, dice: DamageDice)
    requires forall i :: 0 <= i < |trials| ==> ValidTrial(trials[i], dice)
  {
    && |seen| <= |trials|
    && forall k :: 0 <= k < |seen| ==> seen[k] == TrialDamage(trials[k], dice)
  }

  lemma ObservedAppend(seen: seq<int>, trials: seq<Trial>, dice: DamageDice)
    requires forall i :: 0 <= i < |trials| ==> ValidTrial(trials[i], dice)
    requires Observed(seen, trials, dice) && |seen| < |trials|
    ensures Observed(seen + [TrialDamage(trials[|seen|], dice)], trials, dice)
  {
  }

  lemma ObservedAll(seen: seq<int>, trials: seq<Trial>, dice: DamageDice)
    requires forall i :: 0 <= i < |trials| ==> ValidTrial(trials[i], dice)
    requires Observed(seen, trials, dice) && |seen| == |trials|
    ensures seen == Damages(trials, dice)
  {
  }

  /** Every element of `s` lies in [lo, hi]. */
  predicate Within(s: seq<int>, lo: int, hi: int)
  {
    forall k :: 0 <= k < |s| ==> lo <= s[k] <= hi
  }

  /** The running minimum and maximum after one more damage. */
  lemma ExtremesStep(s: seq<int>, lo: int, hi: int, d: int)
    requires Within(s, lo, hi) && (|s| > 0 ==> lo in s && hi in s)
    ensures Within(s + [d], if |s| == 0 || d < lo then d else lo, if |s| == 0 || d > hi then d else hi)
    ensures (if |s| == 0 || d < lo then d else lo) in s + [d]
    ensures (if |s| == 0 || d > hi then d else hi) in s + [d]
  {
    assert (s + [d])[|s|] == d;
    assert forall k :: 0 <= k < |s| ==> (s + [d])[k] == s[k];
  }

  /** What the loop's running values say once every trial is in. */
  lemma RunSummary(ds: seq<int>, total: int, lo: int, hi: int, freq: map<int, nat>)
    requires total == Sum(ds)
    requires Within(ds, lo, hi)
    requires Tallies(freq, ds)
    ensures lo * |ds| <= total <= hi * |ds|
    ensures forall d :: d in freq ==> freq[d] >= 1
  {
    SumBounds(ds, lo, hi);
    TalliesPositive(freq, ds);
  }

  lemma SumAppend(s: seq<int>, x: int)
    ensures Sum(s + [x]) == Sum(s) + x
  {
    assert (s + [x])[..|s + [x]| - 1] == s;
  }

  lemma TalliesPositive(freq: map<int, nat>, s: seq<int>)
    requires Tallies(freq, s)
    ensures forall d :: d in freq ==> freq[d] >= 1
  {
    forall d | d in freq
      ensures freq[d] >= 1
    {
      CountPositive(s, d);
    }
  }

  lemma DamagesWithinPossible(trials: seq<Trial>, dice: DamageDice)
    requires forall i :: 0 <= i < |trials| ==> ValidTrial(trials[i], dice)
    requires dice.diceType >= 1
    ensures forall k :: 0 <= k < |trials| ==>
              MinPossible(dice) <= Damages(trials, dice)[k] <= MaxPossible(dice)
  {
    forall k | 0 <= k < |trials|
      ensures MinPossible(dice) <= Damages(trials, dice)[k] <= MaxPossible(dice)
    {
      SimulateDamageBounds(trials[k], dice);
    }
  }

  // ---------------------------------------------------------------------
  // The histogram

  predicate SortedByDamage(s: seq<Bucket>)
  {
    forall i, j :: 0 <= i < j < |s| ==> s[i].damage <= s[j].damage
  }

  predicate DistinctDamages(s: seq<Bucket>)
  {
    forall i, j :: 0 <= i < j < |s| ==> s[i].damage != s[j].damage
  }

  /** `newDamageData.sort((a, b) => a.damage - b.damage)`: an insertion sort
      in place. It permutes the entries, sorts them by damage, and keeps
      distinct damages distinct. */
  method SortByDamage(a: array<Bucket>)
    modifies a
    ensures SortedByDamage(a[..])
    ensures multiset(a[..]) == multiset(old(a[..]))
    ensures DistinctDamages(old(a[..])) ==> DistinctDamages(a[..])
  {
    var i := 0;
    while i < a.Length
      invariant 0 <= i <= a.Length
      invariant SortedByDamage(a[..i])
      invariant multiset(a[..]) == multiset(old(a[..]))
      invariant DistinctDamages(old(a[..])) ==> DistinctDamages(a[..])
    {
      InsertLast(a, i);
      i := i + 1;
    }
    assert a[..i] == a[..];
  }

  /** One pass of the insertion sort: sinks `a[i]` into the sorted prefix
      `a[..i]`. */
  method InsertLast(a: array<Bucket>, i: int)
    requires 0 <= i < a.Length && SortedByDamage(a[..i])
    modifies a
    ensures SortedByDamage(a[..i + 1])
    ensures multiset(a[..]) == multiset(old(a[..]))
    ensures DistinctDamages(old(a[..])) ==> DistinctDamages(a[..])
  {
    var j := i;
    SortedExceptStart(a[..], i);
    while j > 0 && a[j - 1].damage > a[j].damage
      invariant 0 <= j <= i
      invariant SortedExcept(a[..], i, j)
      invariant multiset(a[..]) == multiset(old(a[..]))
      invariant DistinctDamages(old(a[..])) ==> DistinctDamages(a[..])
    {
      ghost var before := a[..];
      a[j - 1], a[j] := a[j], a[j - 1];
      assert a[..] == Swapped(before, j);
      SwapPreserves(before, j);
      SwapSinks(before, i, j);
      j := j - 1;
    }
    SortedExceptDone(a[..], i, j);
  }

  /** The prefix `s[..i + 1]` is sorted except that `s[j]` may be out of
      place. */
  predicate SortedExcept(s: seq<Bucket>, i: int, j: int)
    requires 0 <= j <= i < |s|
  {
    forall m, n :: 0 <= m < n <= i && n != j ==> s[m].damage <= s[n].damage
  }

  lemma SortedExceptStart(s: seq<Bucket>, i: int)
    requires 0 <= i < |s| && SortedByDamage(s[..i])
    ensures SortedExcept(s, i, i)
  {
    forall m, n | 0 <= m < n <= i && n != i
      ensures s[m].damage <= s[n].damage
    {
      assert s[m] == s[..i][m] && s[n] == s[..i][n];
    }
  }

  /** Exchanging `s[j]` with a larger left neighbour moves the entry out of
      place one step down. */
  lemma SwapSinks(s: seq<Bucket>, i: int, j: int)
    requires 0 < j <= i < |s| && SortedExcept(s, i, j)
    requires s[j - 1].damage > s[j].damage
    ensures SortedExcept(Swapped(s, j), i, j - 1)
  {
  }

  lemma SortedExceptDone(s: seq<Bucket>, i: int, j: int)
    requires 0 <= j <= i < |s| && SortedExcept(s, i, j)
    requires j == 0 || s[j - 1].damage <= s[j].damage
    ensures SortedByDamage(s[..i + 1])
  {
  }

  function Swapped(s: seq<Bucket>, j: int): seq<Bucket>
    requires 0 < j < |s|
  {
    s[j - 1 := s[j]][j := s[j - 1]]
  }

  /** Exchanging two neighbours keeps the same entries and keeps distinct
      damages distinct. */
  lemma SwapPreserves(s: seq<Bucket>, j: int)
    requires 0 < j < |s|
    ensures multiset(Swapped(s, j)) == multiset(s)
    ensures DistinctDamages(s) ==> DistinctDamages(Swapped(s, j))
  {
  }

  /** The damages a histogram shows. */
  function Shown(s: seq<Bucket>): set<int>
  {
    set i | 0 <= i < |s| :: s[i].damage
  }

  lemma ShownAppend(s: seq<Bucket>, b: Bucket)
    ensures Shown(s + [b]) == Shown(s) + {b.damage}
  {
    forall x | x in Shown(s)
      ensures x in Shown(s + [b])
    {
      var k :| 0 <= k < |s| && s[k].damage == x;
      assert (s + [b])[k] == s[k];
    }
    assert (s + [b])[|s|] == b;
  }

  /** `Object.entries(damageFrequency).map(...)` followed by the sort: one
      entry per recorded damage, with its frequency, strictly ascending by
      damage. The order in which `Object.entries` lists the keys is left
      open: any order gives the same sorted result. */
  method DamageHistogram(damageFrequency: map<int, nat>) returns (damageData: seq<Bucket>)
    ensures forall i, j :: 0 <= i < j < |damageData| ==> damageData[i].damage < damageData[j].damage
    ensures forall i :: 0 <= i < |damageData| ==>
              damageData[i].damage in damageFrequency
              && damageData[i].frequency == damageFrequency[damageData[i].damage]
    ensures forall d :: d in damageFrequency ==> d in Shown(damageData)
  {
    var entries := HistogramEntries(damageFrequency);
    var a := new Bucket[|entries|](i requires 0 <= i < |entries| => entries[i]);
    assert a[..] == entries;
    SortByDamage(a);
    damageData := a[..];
    SortedDistinctIsStrict(damageData);
    PermutedEntries(damageFrequency, entries, damageData);
  }

  /** The buckets are exactly the entries of the frequency map. */
  ghost predicate EntriesOf(freq: map<int, nat>, s: seq<Bucket>)
  {
    && (forall i :: 0 <= i < |s| ==> s[i].damage in freq && s[i].frequency == freq[s[i].damage])
    && (forall d :: d in freq ==> d in Shown(s))
  }

  /** `Object.entries(damageFrequency).map(...)`, in some order of the keys. */
  method HistogramEntries(damageFrequency: map<int, nat>) returns (entries: seq<Bucket>)
    ensures EntriesOf(damageFrequency, entries) && DistinctDamages(entries)
  {
    var keys := damageFrequency.Keys;
    entries := [];
    while keys != {}
      invariant keys <= damageFrequency.Keys
      invariant forall i :: 0 <= i < |entries| ==>
                  entries[i].damage in damageFrequency && entries[i].damage !in keys
                  && entries[i].frequency == damageFrequency[entries[i].damage]
      invariant DistinctDamages(entries)
      invariant forall d :: d in damageFrequency ==> d in keys || d in Shown(entries)
      decreases |keys|
    {
      NonEmptyHasElement(keys);
      var d :| d in keys;
      ShownAppend(entries, Bucket(d, damageFrequency[d]));
      entries := entries + [Bucket(d, damageFrequency[d])];
      keys := keys - {d};
    }
  }

  lemma NonEmptyHasElement(s: set<int>)
    requires s != {}
    ensures exists x :: x in s
  {
    assert (forall x :: x !in s) ==> s == {};
  }

  /** Reordering the entries keeps them the entries of the map. */
  lemma PermutedEntries(freq: map<int, nat>, s: seq<Bucket>, t: seq<Bucket>)
    requires EntriesOf(freq, s) && multiset(t) == multiset(s)
    ensures EntriesOf(freq, t)
  {
    forall i | 0 <= i < |t|
      ensures t[i].damage in freq && t[i].frequency == freq[t[i].damage]
    {
      assert t[i] in multiset(t);
      var k :| 0 <= k < |s| && s[k] == t[i];
    }
    forall d | d in freq
      ensures d in Shown(t)
    {
      var k :| 0 <= k < |s| && s[k].damage == d;
      assert s[k] in multiset(s);
      var m :| 0 <= m < |t| && t[m] == s[k];
    }
  }

  lemma SortedDistinctIsStrict(s: seq<Bucket>)
    requires SortedByDamage(s) && DistinctDamages(s)
    ensures forall i, j :: 0 <= i < j < |s| ==> s[i].damage < s[j].damage
  {
  }

  /** The sum, left to right, of a histogram's frequencies. */
  function TotalFrequency(s: seq<Bucket>): int
  {
    if s == [] then 0 else TotalFrequency(s[..|s| - 1]) + s[|s| - 1].frequency
  }

  /** The sum, over a histogram's damages, of their counts in `ds`. */
  function SumOfCounts(s: seq<Bucket>, ds: seq<int>): int
  {
    if s == [] then 0 else SumOfCounts(s[..|s| - 1], ds) + Count(ds, s[|s| - 1].damage)
  }

  /** The number of entries showing damage `x`. */
  function Occurrences(s: seq<Bucket>, x: int): nat
  {
    if s == [] then 0 else Occurrences(s[..|s| - 1], x) + (if s[|s| - 1].damage == x then 1 else 0)
  }

  lemma {:induction false} OccurrencesOfShown(s: seq<Bucket>, x: int)
    requires DistinctDamages(s)
    ensures Occurrences(s, x) == (if x in Shown(s) then 1 else 0)
  {
    if s != [] {
      var init := s[..|s| - 1];
      OccurrencesOfShown(init, x);
      assert Shown(s) == Shown(init) + {s[|s| - 1].damage};
      if s[|s| - 1].damage == x {
        assert x !in Shown(init);
      }
    }
  }

  lemma {:induction false} SumOfCountsAppend(s: seq<Bucket>, ds: seq<int>, x: int)
    ensures SumOfCounts(s, ds + [x]) == SumOfCounts(s, ds) + Occurrences(s, x)
  {
    if s != [] {
      SumOfCountsAppend(s[..|s| - 1], ds, x);
      assert (ds + [x])[..|ds + [x]| - 1] == ds;
    }
  }

  /** When the entries show distinct damages and cover every value of `ds`,
      their counts in `ds` add up to |ds|. */
  lemma {:induction false} SumOfCountsCovers(s: seq<Bucket>, ds: seq<int>)
    requires DistinctDamages(s)
    requires forall x :: x in ds ==> x in Shown(s)
    ensures SumOfCounts(s, ds) == |ds|
  {
    if ds == [] {
      SumOfCountsEmpty(s);
    } else {
      var init, x := ds[..|ds| - 1], ds[|ds| - 1];
      assert ds == init + [x];
      SumOfCountsCovers(s, init);
      SumOfCountsAppend(s, init, x);
      OccurrencesOfShown(s, x);
    }
  }

  lemma {:induction false} SumOfCountsEmpty(s: seq<Bucket>)
    ensures SumOfCounts(s, []) == 0
  {
    if s != [] {
      SumOfCountsEmpty(s[..|s| - 1]);
    }
  }

  lemma {:induction false} TotalFrequencyIsSumOfCounts(s: seq<Bucket>, ds: seq<int>)
    requires forall i :: 0 <= i < |s| ==> s[i].frequency == Count(ds, s[i].damage)
    ensures TotalFrequency(s) == SumOfCounts(s, ds)
  {
    if s != [] {
      TotalFrequencyIsSumOfCounts(s[..|s| - 1], ds);
    }
  }

  /** The histogram of a run accounts for every trial exactly once: its
      frequencies add up to the number of trials. */
  lemma HistogramTotal(ds: seq<int>, damageFrequency: map<int, nat>, damageData: seq<Bucket>)
    requires forall d :: d in damageFrequency <==> d in ds
    requires forall d :: d in damageFrequency ==> damageFrequency[d] == Count(ds, d)
    requires forall i, j :: 0 <= i < j < |damageData| ==> damageData[i].damage < damageData[j].damage
    requires forall i :: 0 <= i < |damageData| ==>
               damageData[i].damage in damageFrequency
               && damageData[i].frequency == damageFrequency[damageData[i].damage]
    requires forall d :: d in damageFrequency ==> d in Shown(damageData)
    ensures TotalFrequency(damageData) == |ds|
  {
    TotalFrequencyIsSumOfCounts(damageData, ds);
    SumOfCountsCovers(damageData, ds);
  }

  // ---------------------------------------------------------------------
  // The component

  /** The mean of n values that lie in [lo, hi] lies in [lo, hi]. */
  lemma MeanBetween(lo: int, hi: int, total: int, n: int)
    requires n > 0 && lo * n <= total <= hi * n
    ensures lo as real <= total as real / n as real <= hi as real
  {
    assert (lo * n) as real == lo as real * n as real;
    assert (hi * n) as real == hi as real * n as real;
  }

  /** The simulator's displayed state. */
  class DamageSimulator {
    var averageDamage: real
    var minDamage: int
    var maxDamage: int
    var minPossible: int
    var maxPossible: int
    var damageData: seq<Bucket>

    constructor ()
      ensures averageDamage == 0.0 && minDamage == 0 && maxDamage == 0
      ensures minPossible == 0 && maxPossible == 0 && damageData == []
    {
      averageDamage, minDamage, maxDamage := 0.0, 0, 0;
      minPossible, maxPossible, damageData := 0, 0, [];
    }

    /** The `useEffect` body: run the trials and publish the summary. */
    method RunSimulation(trials: seq<Trial>, dice: DamageDice)
      requires |trials| == Simulations
      requires forall i :: 0 <= i < |trials| ==> ValidTrial(trials[i], dice)
      modifies this
      ensures averageDamage == Sum(Damages(trials, dice)) as real / Simulations as real
      ensures minDamage as real <= averageDamage <= maxDamage as real
      ensures minDamage in Damages(trials, dice) && maxDamage in Damages(trials, dice)
      ensures forall i :: 0 <= i < |trials| ==> minDamage <= Damages(trials, dice)[i] <= maxDamage
      ensures minPossible == MinPossible(dice) && maxPossible == MaxPossible(dice)
      ensures dice.diceType >= 1 ==> minPossible <= minDamage && maxDamage <= maxPossible
      ensures forall i, j :: 0 <= i < j < |damageData| ==> damageData[i].damage < damageData[j].damage
      ensures forall i :: 0 <= i < |damageData| ==>
                damageData[i].damage in Damages(trials, dice)
                && damageData[i].frequency == Count(Damages(trials, dice), damageData[i].damage)
                && damageData[i].frequency >= 1
      ensures forall d :: d in Damages(trials, dice) ==> d in Shown(damageData)
      ensures TotalFrequency(damageData) == Simulations
    {
      var totalDamage, minDmg, maxDmg, damageFrequency := SimulationLoop(trials, dice);
      var data := DamageHistogram(damageFrequency);
      HistogramTotal(Damages(trials, dice), damageFrequency, data);
      MeanBetween(minDmg, maxDmg, totalDamage, Simulations);
      averageDamage, minDamage, maxDamage := totalDamage as real / Simulations as real, minDmg, maxDmg;
      minPossible := dice.diceCount + dice.damageModifier;
      maxPossible := dice.diceCount * 2 * dice.diceType + dice.damageModifier;
      damageData := data;
    }
  }
}
