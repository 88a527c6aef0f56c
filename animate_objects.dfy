/**
 * The animate-objects page: five object sizes with fixed stat lines, a
 * ten-point budget that the caster spends on objects of each size, and a
 * chart over armour classes 6..25 of each size's hit rate and expected
 * damage and of the total expected damage of the whole swarm.
 */
module AnimateObjects {
  import D20
  import HitRate

  datatype ObjectType = Tiny | Small | Medium | Large | Huge

  /** One row of the stat table. */
  datatype ObjectStats = ObjectStats(
    hp: int, ac: int, str: int, dex: int, attack: int,
    diceCount: int, diceType: int, damageMod: int, cost: int)

  function Stats(t: ObjectType): ObjectStats
  {
    match t
    case Tiny => ObjectStats(20, 18, 4, 18, 8, 1, 4, 4, 1)
    case Small => ObjectStats(25, 16, 6, 14, 6, 1, 8, 2, 1)
    case Medium => ObjectStats(40, 13, 10, 12, 5, 2, 6, 1, 2)
    case Large => ObjectStats(50, 10, 14, 10, 6, 2, 10, 2, 4)
    case Huge => ObjectStats(80, 10, 18, 6, 8, 2, 12, 4, 8)
  }

  /** The object types in the order `Object.entries` visits them. */
  const ObjectTypes: seq<ObjectType> := [Tiny, Small, Medium, Large, Huge]

  /** The position of each type in `ObjectTypes`. */
  function Index(t: ObjectType): (i: nat)
    ensures i < |ObjectTypes| && ObjectTypes[i] == t
  {
    match t
    case Tiny => 0
    case Small => 1
    case Medium => 2
    case Large => 3
    case Huge => 4
  }

  /** The ten points the spell grants. */
  const Budget: int := 10

  // ---------------------------------------------------------------------
  // The budget

  /** `count` and `selectedObjects`: the points left and the number of
      objects chosen of each size. */
  datatype Allocation = Allocation(count: int, selected: map<ObjectType, int>)

  predicate HasAllTypes(selected: map<ObjectType, int>)
  {
    forall t: ObjectType :: t in selected
  }

  lemma AllTypesIn(selected: map<ObjectType, int>)
    requires Tiny in selected && Small in selected && Medium in selected
    requires Large in selected && Huge in selected
    ensures HasAllTypes(selected)
  {
    forall t: ObjectType
      ensures t in selected
    {
      match t
      case Tiny =>
      case Small =>
      case Medium =>
      case Large =>
      case Huge =>
    }
  }

  /** The points the chosen objects cost. */
  function Spent(selected: map<ObjectType, int>): int
    requires HasAllTypes(selected)
  {
    selected[Tiny] * Stats(Tiny).cost + selected[Small] * Stats(Small).cost
    + selected[Medium] * Stats(Medium).cost + selected[Large] * Stats(Large).cost
    + selected[Huge] * Stats(Huge).cost
  }

  /** Every point is either left or spent, and the points left lie in 0..10. */
  predicate Conserved(a: Allocation)
  {
    HasAllTypes(a.selected) && a.count + Spent(a.selected) == Budget && 0 <= a.count <= Budget
  }

  /** The state the page starts in: ten points, no objects. */
  function InitialAllocation(): (a: Allocation)
    ensures Conserved(a) && a.count == Budget
    ensures forall t: ObjectType :: t in a.selected && a.selected[t] == 0
  {
    var none := map[Tiny := 0, Small := 0, Medium := 0, Large := 0, Huge := 0];
    AllTypesIn(none);
    Allocation(Budget, none)
  }

  /** The count that `handleObjectChange` computes: the old objects of this
      size are refunded and the new ones paid for. */
  function NewCount(a: Allocation, t: ObjectType, value: int): int
    requires t in a.selected
  {
    a.count + a.selected[t] * Stats(t).cost - value * Stats(t).cost
  }

  /** `handleObjectChange(type, value)`: applied only when the new count lies
      in 0..10, and then only the named size changes. */
  function ObjectChange(a: Allocation, t: ObjectType, value: int): (r: Allocation)
    requires t in a.selected
    ensures 0 <= NewCount(a, t, value) <= Budget ==>
              r.count == NewCount(a, t, value) && r.selected == a.selected[t := value]
    ensures !(0 <= NewCount(a, t, value) <= Budget) ==> r == a
  {
    var newCount := NewCount(a, t, value);
    if 0 <= newCount && newCount <= Budget then Allocation(newCount, a.selected[t := value]) else a
  }

  /** Every change, accepted or not, keeps the budget conserved; an accepted
      change sets the named size to the value and leaves the others alone. */
  lemma ObjectChangeConserves(a: Allocation, t: ObjectType, value: int)
    requires Conserved(a)
    ensures Conserved(ObjectChange(a, t, value))
    ensures forall u: ObjectType :: u != t ==> ObjectChange(a, t, value).selected[u] == a.selected[u]
    ensures ObjectChange(a, t, value) != a ==> ObjectChange(a, t, value).selected[t] == value
  {
  }

  /** The budget does not keep the object counts non-negative: from the
      initial state, two tiny objects and then -1 small object are both
      accepted. */
  lemma NegativeAllocationAccepted()
    ensures ObjectChange(InitialAllocation(), Tiny, 2).count == 8
    ensures ObjectChange(ObjectChange(InitialAllocation(), Tiny, 2), Small, -1).count == 9
    ensures ObjectChange(ObjectChange(InitialAllocation(), Tiny, 2), Small, -1).selected[Small] == -1
  {
  }

  /** The page's state. */
  class AnimateObjectsCalculator {
    var count: int
    var selectedObjects: map<ObjectType, int>

    function State(): Allocation
      reads this
    {
      Allocation(count, selectedObjects)
    }

    ghost predicate Valid()
      reads this
    {
      Conserved(State())
    }

    constructor ()
      ensures Valid()
      ensures State() == InitialAllocation()
    {
      var none := map[Tiny := 0, Small := 0, Medium := 0, Large := 0, Huge := 0];
      AllTypesIn(none);
      count := Budget;
      selectedObjects := none;
    }

    method HandleObjectChange(t: ObjectType, value: int)
      requires Valid()
      modifies this
      ensures Valid()
      ensures State() == ObjectChange(old(State()), t, value)
    {
      var newCount := count + selectedObjects[t] * Stats(t).cost - value * Stats(t).cost;
      if newCount >= 0 && newCount <= Budget {
        selectedObjects := selectedObjects[t := value];
        count := newCount;
      }
      ObjectChangeConserves(old(State()), t, value);
    }
  }

  // ---------------------------------------------------------------------
  // Hit rate and damage

  /** `calculateHitRate(ac, attackBonus)`: the clamped d20 chance. */
  function ObjectHitRate(ac: int, attackBonus: int): (r: real)
    ensures 0.05 <= r <= 0.95
  {
    D20.Clamp((21 + attackBonus - ac) as real / 20.0, 0.05, 0.95)
  }

  /** The page's formula is the hit-rate page's base chance. */
  lemma ObjectHitRateIsBaseHitChance(ac: int, attackBonus: int)
    ensures ObjectHitRate(ac, attackBonus) == HitRate.BaseHitChance(ac, attackBonus)
  {
  }

  lemma ObjectHitRateAntitone(ac1: int, ac2: int, attackBonus: int)
    requires ac1 <= ac2
    ensures ObjectHitRate(ac2, attackBonus) <= ObjectHitRate(ac1, attackBonus)
  {
    HitRate.BaseHitChanceMonotone(ac1, ac2, attackBonus, attackBonus);
    ObjectHitRateIsBaseHitChance(ac1, attackBonus);
    ObjectHitRateIsBaseHitChance(ac2, attackBonus);
  }

  /** `calculateAverageDamage`: diceCount (diceType + 1) / 2 + damageMod. */
  function AverageDamage(diceCount: int, diceType: int, damageMod: int): real
  {
    diceCount as real * ((diceType + 1) as real / 2.0) + damageMod as real
  }

  /** 1 + 2 + ... + d, the sum of a die's faces. */
  function FaceSum(d: int): nat
  {
    if d <= 0 then 0 else d + FaceSum(d - 1)
  }

  lemma {:induction false} FaceSumClosedForm(d: nat)
    ensures 2 * FaceSum(d) == d * (d + 1)
  {
    if d > 0 {
      FaceSumClosedForm(d - 1);
    }
  }

  /** The average is diceCount times the mean face of the die, plus the
      modifier. */
  lemma AverageDamageIsMean(diceCount: int, diceType: int, damageMod: int)
    requires diceType >= 1
    ensures AverageDamage(diceCount, diceType, damageMod)
         == diceCount as real * (FaceSum(diceType) as real / diceType as real) + damageMod as real
  {
    FaceSumClosedForm(diceType);
    var s, d := FaceSum(diceType) as real, diceType as real;
    var half := (d + 1.0) / 2.0;
    assert 2.0 * s == d * (d + 1.0);
    assert s == d * half;
    assert s / d == half;
  }

  function ObjectAverageDamage(t: ObjectType): real
  {
    AverageDamage(Stats(t).diceCount, Stats(t).diceType, Stats(t).damageMod)
  }

  /** The averages of the five stat lines: 1d4+4, 1d8+2, 2d6+1, 2d10+2, 2d12+4. */
  lemma ObjectAverageDamages()
    ensures ObjectAverageDamage(Tiny) == 6.5 && ObjectAverageDamage(Small) == 6.5
    ensures ObjectAverageDamage(Medium) == 8.0 && ObjectAverageDamage(Large) == 13.0
    ensures ObjectAverageDamage(Huge) == 17.0
  {
  }

  // ---------------------------------------------------------------------
  // The chart

  /** `hitRate * avgDamage * count`: the expected damage of `count` attacks
      that each hit with chance `hitRate` for `avgDamage` on average. */
  function Expected(hitRate: real, avgDamage: real, count: int): real
  {
    hitRate * avgDamage * count as real
  }

  /** The expected damage of `count` objects of size `t` against `ac`. */
  function ExpectedDamage(t: ObjectType, ac: int, count: int): real
  {
    Expected(ObjectHitRate(ac, Stats(t).attack), ObjectAverageDamage(t), count)
  }

  /** The reduce's term for one size: its expected damage when at least one
      object of it is chosen, nothing otherwise. */
  function Contribution(t: ObjectType, ac: int, selected: map<ObjectType, int>): real
    requires t in selected
  {
    if selected[t] > 0 then ExpectedDamage(t, ac, selected[t]) else 0.0
  }

  /** The reduce over `ts`, adding the terms left to right. */
  function TotalOver(ts: seq<ObjectType>, ac: int, selected: map<ObjectType, int>): real
    requires HasAllTypes(selected)
  {
    if ts == [] then 0.0
    else TotalOver(ts[..|ts| - 1], ac, selected) + Contribution(ts[|ts| - 1], ac, selected)
  }

  /** The sum, over `ts`, of the per-size values a chart point shows. */
  function PartsTotal(ts: seq<ObjectType>, parts: map<ObjectType, real>): real
  {
    if ts == [] then 0.0
    else PartsTotal(ts[..|ts| - 1], parts) + (if ts[|ts| - 1] in parts then parts[ts[|ts| - 1]] else 0.0)
  }

  /** The sizes with at least one object chosen: the ones the chart draws. */
  function ActiveTypes(selected: map<ObjectType, int>): set<ObjectType>
  {
    set t | t in selected && selected[t] > 0
  }

  /** One point of the chart. */
  datatype ObjectPoint = ObjectPoint(
    ac: int,
    hitRates: map<ObjectType, real>,
    expectedDamages: map<ObjectType, real>,
    totalExpectedDamage: real)

  /** What one chart point holds: keys exactly for the active sizes, each
      size's hit rate in percent and expected damage, and a total equal to
      the sum of the per-size damages it shows. */
  ghost predicate IsPoint(point: ObjectPoint, ac: int, selected: map<ObjectType, int>)
    requires HasAllTypes(selected)
  {
    && point.ac == ac
    && point.hitRates.Keys == ActiveTypes(selected)
    && point.expectedDamages.Keys == ActiveTypes(selected)
    && (forall t :: t in point.hitRates ==> point.hitRates[t] == 100.0 * ObjectHitRate(ac, Stats(t).attack))
    && (forall t :: t in point.expectedDamages ==> point.expectedDamages[t] == ExpectedDamage(t, ac, selected[t]))
    && point.totalExpectedDamage == TotalOver(ObjectTypes, ac, selected)
    && point.totalExpectedDamage == PartsTotal(ObjectTypes, point.expectedDamages)
  }

  lemma {:induction false} PartsTotalMatches(ts: seq<ObjectType>, ac: int, selected: map<ObjectType, int>,
                                             parts: map<ObjectType, real>)
    requires HasAllTypes(selected)
    requires forall t :: t in parts <==> selected[t] > 0
    requires forall t :: t in parts ==> parts[t] == ExpectedDamage(t, ac, selected[t])
    ensures PartsTotal(ts, parts) == TotalOver(ts, ac, selected)
  {
    if ts != [] {
      PartsTotalMatches(ts[..|ts| - 1], ac, selected, parts);
    }
  }

  /** The callback's arithmetic for one size: `hitRate` from the attack
      bonus, `avgDamage` from the damage dice, and
      `hitRate * avgDamage * count`. */
  method SizeTerms(t: ObjectType, ac: int, count: int) returns (hitRate: real, expected: real)
    ensures hitRate == ObjectHitRate(ac, Stats(t).attack)
    ensures expected == ExpectedDamage(t, ac, count)
  {
    hitRate := ObjectHitRate(ac, Stats(t).attack);
    var avgDamage := ObjectAverageDamage(t);
    expected := hitRate * avgDamage * count as real;
  }

  /** The `forEach` of `generateData`'s callback: for every size with at
      least one object, its `HitRate` and `ExpectedDamage` keys. */
  method PerTypeEntries(ac: int, selected: map<ObjectType, int>)
      returns (hitRates: map<ObjectType, real>, expectedDamages: map<ObjectType, real>)
    requires HasAllTypes(selected)
    ensures hitRates.Keys == ActiveTypes(selected) && expectedDamages.Keys == ActiveTypes(selected)
    ensures forall t :: t in hitRates ==> hitRates[t] == 100.0 * ObjectHitRate(ac, Stats(t).attack)
    ensures forall t :: t in expectedDamages ==> expectedDamages[t] == ExpectedDamage(t, ac, selected[t])
  {
    hitRates, expectedDamages := map[], map[];
    var k := 0;
    while k < |ObjectTypes|
      invariant 0 <= k <= |ObjectTypes|
      invariant forall t :: t in hitRates <==> Index(t) < k && selected[t] > 0
      invariant forall t :: t in expectedDamages <==> Index(t) < k && selected[t] > 0
      invariant forall t :: t in hitRates ==> hitRates[t] == 100.0 * ObjectHitRate(ac, Stats(t).attack)
      invariant forall t :: t in expectedDamages ==> expectedDamages[t] == ExpectedDamage(t, ac, selected[t])
    {
      var t := ObjectTypes[k];
      if selected[t] > 0 {
        var hitRate, expected := SizeTerms(t, ac, selected[t]);
        hitRates := hitRates[t := hitRate * 100.0];
        expectedDamages := expectedDamages[t := expected];
      }
      k := k + 1;
    }
  }

  /** The `reduce` of `generateData`'s callback: the total expected damage. */
  method TotalExpectedDamage(ac: int, selected: map<ObjectType, int>) returns (total: real)
    requires HasAllTypes(selected)
    ensures total == TotalOver(ObjectTypes, ac, selected)
  {
    total := 0.0;
    var k := 0;
    while k < |ObjectTypes|
      invariant 0 <= k <= |ObjectTypes|
      invariant total == TotalOver(ObjectTypes[..k], ac, selected)
    {
      var t := ObjectTypes[k];
      if selected[t] > 0 {
        var _, expected := SizeTerms(t, ac, selected[t]);
        total := total + expected;
      }
      assert ObjectTypes[..k + 1][..k] == ObjectTypes[..k];
      k := k + 1;
    }
    assert ObjectTypes[..k] == ObjectTypes;
  }

  /** `generateData`'s callback for one armour class. */
  method PointAt(ac: int, selected: map<ObjectType, int>) returns (point: ObjectPoint)
    requires HasAllTypes(selected)
    ensures IsPoint(point, ac, selected)
  {
    var hitRates, expectedDamages := PerTypeEntries(ac, selected);
    var total := TotalExpectedDamage(ac, selected);
    PartsTotalMatches(ObjectTypes, ac, selected, expectedDamages);
    point := ObjectPoint(ac, hitRates, expectedDamages, total);
  }

  /** `generateData`: one point for each armour class 6..25. */
  method GenerateData(selected: map<ObjectType, int>) returns (data: seq<ObjectPoint>)
    requires HasAllTypes(selected)
    ensures |data| == 20
    ensures forall i :: 0 <= i < 20 ==> IsPoint(data[i], 6 + i, selected)
  {
    data := [];
    var i := 0;
    while i < 20
      invariant 0 <= i <= 20 && |data| == i
      invariant forall j :: 0 <= j < i ==> IsPoint(data[j], 6 + j, selected)
    {
      var point := PointAt(i + 6, selected);
      data := data + [point];
      i := i + 1;
    }
  }

  lemma MulLeq(x1: real, x2: real, c: real)
    requires x1 <= x2 && 0.0 <= c
    ensures x1 * c <= x2 * c
  {
    assert x2 * c - x1 * c == (x2 - x1) * c;
  }

  lemma MulLeq3(x1: real, x2: real, a: real, c: real)
    requires x1 <= x2 && 0.0 <= a && 0.0 <= c
    ensures x1 * a * c <= x2 * a * c
  {
    MulLeq(x1, x2, a);
    MulLeq(x1 * a, x2 * a, c);
  }

  /** Expected damage grows with the hit chance. */
  lemma ExpectedMonotone(h1: real, h2: real, avgDamage: real, count: int)
    requires h1 <= h2 && 0.0 <= avgDamage && 0 <= count
    ensures Expected(h1, avgDamage, count) <= Expected(h2, avgDamage, count)
  {
    MulLeq3(h1, h2, avgDamage, count as real);
  }

  lemma ExpectedNonnegative(h: real, avgDamage: real, count: int)
    requires 0.0 <= h && 0.0 <= avgDamage && 0 <= count
    ensures 0.0 <= Expected(h, avgDamage, count)
  {
    MulLeq(0.0, h, avgDamage);
    MulLeq(0.0, h * avgDamage, count as real);
  }

  lemma ObjectAverageDamagePositive(t: ObjectType)
    ensures ObjectAverageDamage(t) > 0.0
  {
    ObjectAverageDamages();
  }

  lemma ExpectedDamageAntitone(t: ObjectType, ac1: int, ac2: int, count: int)
    requires ac1 <= ac2 && count > 0
    ensures ExpectedDamage(t, ac2, count) <= ExpectedDamage(t, ac1, count)
  {
    ObjectHitRateAntitone(ac1, ac2, Stats(t).attack);
    ObjectAverageDamagePositive(t);
    ExpectedMonotone(ObjectHitRate(ac2, Stats(t).attack), ObjectHitRate(ac1, Stats(t).attack), ObjectAverageDamage(t), count);
  }

  lemma ContributionAntitone(t: ObjectType, ac1: int, ac2: int, selected: map<ObjectType, int>)
    requires t in selected && ac1 <= ac2
    ensures Contribution(t, ac2, selected) <= Contribution(t, ac1, selected)
  {
    if selected[t] > 0 {
      ExpectedDamageAntitone(t, ac1, ac2, selected[t]);
    }
  }

  /** A swarm never does more expected damage against a higher armour class. */
  lemma {:induction false} TotalOverAntitone(ts: seq<ObjectType>, ac1: int, ac2: int, selected: map<ObjectType, int>)
    requires HasAllTypes(selected) && ac1 <= ac2
    ensures TotalOver(ts, ac2, selected) <= TotalOver(ts, ac1, selected)
  {
    if ts != [] {
      TotalOverAntitone(ts[..|ts| - 1], ac1, ac2, selected);
      ContributionAntitone(ts[|ts| - 1], ac1, ac2, selected);
    }
  }

  /** The total expected damage is never negative. */
  lemma {:induction false} TotalOverNonnegative(ts: seq<ObjectType>, ac: int, selected: map<ObjectType, int>)
    requires HasAllTypes(selected)
    ensures 0.0 <= TotalOver(ts, ac, selected)
  {
    if ts != [] {
      TotalOverNonnegative(ts[..|ts| - 1], ac, selected);
      var t := ts[|ts| - 1];
      if selected[t] > 0 {
        ObjectAverageDamagePositive(t);
        ExpectedNonnegative(ObjectHitRate(ac, Stats(t).attack), ObjectAverageDamage(t), selected[t]);
      }
    }
  }
}
