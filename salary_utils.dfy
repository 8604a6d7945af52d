/**
 * The salary breakup: a gross amount split into Basic (40%), HRA (20%),
 * DA (10%) and Travel (5%), each rounded to the nearest whole unit, with the
 * Special Allowance taking whatever is left so that the five always add up
 * to the gross amount.
 */
module SalaryUtils {

  /** One line of the breakup: its name, its amount and the colour the charts draw it in. */
  datatype Component = Component(name: string, value: int, color: string)

  const Names: seq<string> := ["Basic Salary", "HRA", "DA", "Travel Allowance", "Special Allowance"]
  const Colors: seq<string> := ["#4f46e5", "#10b981", "#f59e0b", "#06b6d4", "#8b5cf6"]
  /** The percentage of the gross amount behind each of the first four components. */
  const Ratios: seq<int> := [40, 20, 10, 5]

  /**
   * `Math.round(n / d)`: the nearest integer, a half rounded up (towards
   * plus infinity, also for negative numbers).
   */
  function RoundHalfUp(n: int, d: int): (r: int)
    requires d > 0
    ensures -d < 2 * (d * r - n) <= d
  {
    var q := (2 * n + d) / (2 * d);
    var rem := (2 * n + d) % (2 * d);
    assert 2 * n + d == (2 * d) * q + rem && 0 <= rem < 2 * d;
    assert (2 * d) * q == 2 * (d * q);
    q
  }

  /** At most one integer lies within half a unit of n / d on the rounding side: RoundHalfUp's contract determines it. */
  lemma RoundHalfUpUnique(n: int, d: int, r1: int, r2: int)
    requires d > 0
    requires -d < 2 * (d * r1 - n) <= d
    requires -d < 2 * (d * r2 - n) <= d
    ensures r1 == r2
  {
    var k := r1 - r2;
    assert d * r1 - d * r2 == d * k;
    assert -d < d * k < d;
  }

  /** `Math.round(total * pct / 100)`. */
  function Percent(total: int, pct: int): (r: int)
    ensures -50 < 100 * r - pct * total <= 50
  {
    RoundHalfUp(pct * total, 100)
  }

  /** `calculateBreakup(totalSalary)`: the five components in their fixed order. */
  function CalculateBreakup(totalSalary: int): (r: seq<Component>)
    ensures |r| == 5
    ensures forall i :: 0 <= i < 5 ==> r[i].name == Names[i] && r[i].color == Colors[i]
    ensures forall i :: 0 <= i < 4 ==> -50 < 100 * r[i].value - Ratios[i] * totalSalary <= 50
    ensures r[0].value + r[1].value + r[2].value + r[3].value + r[4].value == totalSalary
    ensures -200 <= 100 * r[4].value - 25 * totalSalary < 200
  {
    var basic := Percent(totalSalary, 40);
    var hra := Percent(totalSalary, 20);
    var da := Percent(totalSalary, 10);
    var travel := Percent(totalSalary, 5);
    var special := totalSalary - (basic + hra + da + travel);
    [ Component(Names[0], basic, Colors[0]),
      Component(Names[1], hra, Colors[1]),
      Component(Names[2], da, Colors[2]),
      Component(Names[3], travel, Colors[3]),
      Component(Names[4], special, Colors[4]) ]
  }

  /** The first four components are exactly the round-half-up percentages, and no other integers. */
  lemma BreakupIsNearest(totalSalary: int, i: nat, v: int)
    requires i < 4
    requires -50 < 100 * v - Ratios[i] * totalSalary <= 50
    ensures CalculateBreakup(totalSalary)[i].value == v
  {
  }

  /** A non-negative gross amount gives five non-negative components. */
  lemma BreakupNonNegative(totalSalary: int)
    requires totalSalary >= 0
    ensures forall i :: 0 <= i < 5 ==> CalculateBreakup(totalSalary)[i].value >= 0
  {
  }

  lemma BreakupOfZero()
    ensures forall i :: 0 <= i < 5 ==> CalculateBreakup(0)[i].value == 0
  {
  }

  lemma BreakupOfOneLakh()
    ensures var r := CalculateBreakup(100000);
      r[0].value == 40000 && r[1].value == 20000 && r[2].value == 10000 &&
      r[3].value == 5000 && r[4].value == 25000
  {
  }
}
