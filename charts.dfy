/**
 * The data behind the dashboard charts: salary bars per employee, the role
 * distribution counted from the current list, and the palette colours.
 */
module Charts {
  import opened Entities

  datatype SalaryPoint = SalaryPoint(name: string, salary: int)

  /** `salaryData`: one bar per employee, in list order. */
  function SalaryData(list: seq<Employee>): (points: seq<SalaryPoint>)
    ensures |points| == |list|
    ensures forall i :: 0 <= i < |list| ==>
      points[i].name == list[i].name && points[i].salary == list[i].salary
  {
    seq(|list|, i requires 0 <= i < |list| => SalaryPoint(list[i].name, list[i].salary))
  }

  function Roles(list: seq<Employee>): (roles: seq<string>)
    ensures |roles| == |list| && forall i :: 0 <= i < |list| ==> roles[i] == list[i].role
  {
    seq(|list|, i requires 0 <= i < |list| => list[i].role)
  }

  /** How many times `r` occurs in `s`. */
  function Occurrences(s: seq<string>, r: string): nat
  {
    if s == [] then 0 else Occurrences(s[..|s| - 1], r) + (if s[|s| - 1] == r then 1 else 0)
  }

  predicate NoDuplicates(s: seq<string>)
  {
    forall i, j :: 0 <= i < j < |s| ==> s[i] != s[j]
  }

  /** The values of `s` in order of first occurrence: the order in which a tally object gains its keys. */
  function Distinct(s: seq<string>): (d: seq<string>)
    ensures forall x :: x in d <==> x in s
    ensures NoDuplicates(d)
  {
    if s == [] then []
    else
      var d := Distinct(s[..|s| - 1]);
      if s[|s| - 1] in d then d else d + [s[|s| - 1]]
  }

  datatype RoleSlice = RoleSlice(name: string, value: nat)

  /** One slice per key with its number of occurrences in `s`. */
  function Tally(keys: seq<string>, s: seq<string>): (slices: seq<RoleSlice>)
    ensures |slices| == |keys|
    ensures forall i :: 0 <= i < |keys| ==> slices[i] == RoleSlice(keys[i], Occurrences(s, keys[i]))
  {
    seq(|keys|, i requires 0 <= i < |keys| => RoleSlice(keys[i], Occurrences(s, keys[i])))
  }

  /** The role distribution: each role once, in order of first appearance, with its head count. */
  function RoleDistribution(list: seq<Employee>): seq<RoleSlice>
  {
    Tally(Distinct(Roles(list)), Roles(list))
  }

  /**
   * The `roleCount` loop: for each employee in turn, add one to the count of
   * its role, a new role entering with count 1 after the roles already seen.
   */
  method CountRoles(list: seq<Employee>) returns (roleCount: map<string, nat>, keys: seq<string>)
    ensures keys == Distinct(Roles(list))
    ensures forall r :: r in roleCount <==> r in Roles(list)
    ensures forall r :: r in roleCount ==> roleCount[r] == Occurrences(Roles(list), r)
  {
    ghost var roles := Roles(list);
    roleCount := map[];
    keys := [];
    var i := 0;
    while i < |list|
      invariant 0 <= i <= |list|
      invariant keys == Distinct(roles[..i])
      invariant forall r :: r in roleCount <==> r in roles[..i]
      invariant forall r :: r in roleCount ==> roleCount[r] == Occurrences(roles[..i], r)
    {
      var role := list[i].role;
      ghost var seen := roles[..i];
      assert roles[..i + 1] == seen + [role];
      CountStep(seen, role);
      var n := if role in roleCount then roleCount[role] else 0;
      assert n == Occurrences(seen, role) by {
        if role !in roleCount { OccursNot(seen, role); }
      }
      if role !in roleCount {
        keys := keys + [role];
      }
      roleCount := roleCount[role := n + 1];
      i := i + 1;
    }
    assert roles[..i] == roles;
  }

  /** What one more element does to the counts and to the order of first occurrence. */
  lemma CountStep(s: seq<string>, x: string)
    ensures Distinct(s + [x]) == if x in s then Distinct(s) else Distinct(s) + [x]
    ensures forall r :: Occurrences(s + [x], r) == Occurrences(s, r) + (if r == x then 1 else 0)
  {
  }

  /** `roleData`: the counted roles, in key order, with their counts. */
  function RoleData(keys: seq<string>, roleCount: map<string, nat>): (data: seq<RoleSlice>)
    requires forall k :: k in keys ==> k in roleCount
    ensures |data| == |keys|
    ensures forall i :: 0 <= i < |keys| ==> data[i] == RoleSlice(keys[i], roleCount[keys[i]])
  {
    seq(|keys|, i requires 0 <= i < |keys| => RoleSlice(keys[i], roleCount[keys[i]]))
  }

  /** The loop followed by the mapping yields the role distribution of the list. */
  method BuildRoleData(list: seq<Employee>) returns (roleData: seq<RoleSlice>)
    ensures roleData == RoleDistribution(list)
  {
    var roleCount, keys := CountRoles(list);
    roleData := RoleData(keys, roleCount);
  }

  /** The role distribution names each role of the list exactly once, each with at least one employee. */
  lemma DistributionCoversRoles(list: seq<Employee>)
    ensures forall i, j :: 0 <= i < j < |RoleDistribution(list)| ==>
      RoleDistribution(list)[i].name != RoleDistribution(list)[j].name
    ensures forall e :: e in list ==> exists i :: 0 <= i < |RoleDistribution(list)| && RoleDistribution(list)[i].name == e.role
    ensures forall i :: 0 <= i < |RoleDistribution(list)| ==> RoleDistribution(list)[i].value >= 1
  {
    var roles := Roles(list);
    var d := Distinct(roles);
    forall i | 0 <= i < |d| ensures Occurrences(roles, d[i]) >= 1 {
      OccursPositive(roles, d[i]);
    }
    var dist := RoleDistribution(list);
    forall e | e in list ensures exists i :: 0 <= i < |dist| && dist[i].name == e.role {
      var k :| 0 <= k < |list| && list[k] == e;
      assert roles[k] == e.role;
      assert e.role in d;
      var j :| 0 <= j < |d| && d[j] == e.role;
      assert dist[j].name == e.role;
    }
  }

  lemma {:induction false} OccursPositive(s: seq<string>, x: string)
    requires x in s
    ensures Occurrences(s, x) >= 1
  {
    if s[|s| - 1] != x {
      assert x in s[..|s| - 1] by {
        var k :| 0 <= k < |s| && s[k] == x;
        assert s[..|s| - 1][k] == x;
      }
      OccursPositive(s[..|s| - 1], x);
    }
  }

  lemma {:induction false} OccursNot(s: seq<string>, x: string)
    requires x !in s
    ensures Occurrences(s, x) == 0
  {
    if s != [] {
      OccursNot(s[..|s| - 1], x);
    }
  }

  lemma {:induction false} OccursOnce(s: seq<string>, x: string)
    requires NoDuplicates(s) && x in s
    ensures Occurrences(s, x) == 1
  {
    var init := s[..|s| - 1];
    if s[|s| - 1] == x {
      assert x !in init;
      OccursNot(init, x);
    } else {
      assert x in init by {
        var k :| 0 <= k < |s| && s[k] == x;
        assert init[k] == x;
      }
      OccursOnce(init, x);
    }
  }

  function SumValues(slices: seq<RoleSlice>): nat
  {
    if slices == [] then 0 else SumValues(slices[..|slices| - 1]) + slices[|slices| - 1].value
  }

  /** One more element in `s` adds to the total as many times as it occurs among the keys. */
  lemma {:induction false} TallyExtend(keys: seq<string>, s: seq<string>, x: string)
    ensures SumValues(Tally(keys, s + [x])) == SumValues(Tally(keys, s)) + Occurrences(keys, x)
  {
    if keys != [] {
      var init := keys[..|keys| - 1];
      assert Tally(keys, s + [x])[..|keys| - 1] == Tally(init, s + [x]);
      assert Tally(keys, s)[..|keys| - 1] == Tally(init, s);
      assert (s + [x])[..|s|] == s;
      TallyExtend(init, s, x);
    }
  }

  lemma {:induction false} TallyDistinctTotal(s: seq<string>)
    ensures SumValues(Tally(Distinct(s), s)) == |s|
  {
    if s != [] {
      var init, x := s[..|s| - 1], s[|s| - 1];
      var d := Distinct(init);
      assert s == init + [x];
      TallyDistinctTotal(init);
      TallyExtend(d, init, x);
      if x in d {
        OccursOnce(d, x);
      } else {
        OccursNot(d, x);
        OccursNot(init, x);
        var d' := d + [x];
        assert Tally(d', s)[..|d|] == Tally(d, s);
      }
    }
  }

  /** The role counts add up to the number of employees. */
  lemma RoleTotal(list: seq<Employee>)
    ensures SumValues(RoleDistribution(list)) == |list|
  {
    TallyDistinctTotal(Roles(list));
  }

  const ColorsLight: seq<string> := ["#4f46e5", "#10b981", "#f59e0b", "#f43f5e", "#8b5cf6", "#06b6d4"]
  const ColorsDark: seq<string> := ["#6366f1", "#34d399", "#fbbf24", "#fb7185", "#a78bfa", "#22d3ee"]

  /** The dark palette for the dark theme, the light one for any other theme. */
  function Palette(theme: string): (colors: seq<string>)
    ensures |colors| == 6
    ensures theme == "dark" ==> colors == ColorsDark
    ensures theme != "dark" ==> colors == ColorsLight
  {
    if theme == "dark" then ColorsDark else ColorsLight
  }

  /** `COLORS[index % COLORS.length]`: the palette is cycled through, never indexed outside. */
  function CellColor(theme: string, index: nat): (c: string)
    ensures c in Palette(theme)
    ensures c == Palette(theme)[index % 6]
    ensures index >= 6 ==> c == CellColor(theme, index - 6)
  {
    var colors := Palette(theme);
    colors[index % |colors|]
  }
}
