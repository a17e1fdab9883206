/** Name handling shared by the phase: the name-keyed search of OpenSim's
    property arrays (findIndexForName), std::to_string on non-negative
    integers, and the names MucoPhase::initialize gives to Lagrange
    multipliers. */
module Naming {

  /** The names of a collection, in order (the create*Names helpers build this). */
  function Names<T>(items: seq<T>, nameOf: T -> string): (names: seq<string>)
    ensures |names| == |items|
    ensures forall i :: 0 <= i < |items| ==> names[i] == nameOf(items[i])
  {
    seq(|items|, i requires 0 <= i < |items| => nameOf(items[i]))
  }

  /** No name occurs twice. */
  predicate Distinct(names: seq<string>) {
    forall i, j :: 0 <= i < j < |names| ==> names[i] != names[j]
  }

  /** findIndexForName: the index of the first entry called `name`, or -1. */
  function FindIndexForName(names: seq<string>, name: string): (idx: int)
    ensures -1 <= idx < |names|
    ensures idx == -1 <==> name !in names
    ensures idx >= 0 ==> names[idx] == name && name !in names[..idx]
  {
    if |names| == 0 then -1
    else if names[0] == name then 0
    else
      var k := FindIndexForName(names[1..], name);
      assert names == [names[0]] + names[1..];
      if k == -1 then -1
      else
        assert names[..k + 1] == [names[0]] + names[1..][..k];
        k + 1
  }

  /** In a collection with distinct names, the entry found for a name is the
      only one with that name. */
  lemma {:induction false} FindIndexForNameUnique(names: seq<string>, name: string, j: nat)
    requires Distinct(names) && j < |names| && names[j] == name
    ensures FindIndexForName(names, name) == j
  {
    var idx := FindIndexForName(names, name);
    assert idx >= 0;
    assert names[idx] == names[j];
  }

  // ---------------------------------------------------------------------
  // Decimal rendering of natural numbers (std::to_string)
  // ---------------------------------------------------------------------

  predicate IsDigit(c: char) { '0' <= c <= '9' }

  function DigitChar(d: nat): (c: char)
    requires d < 10
    ensures IsDigit(c) && c as int - '0' as int == d
  {
    ('0' as int + d) as char
  }

  /** std::to_string of a non-negative integer: its decimal digits, most
      significant first, without leading zeros. */
  function NatToString(n: nat): (s: string)
    ensures 1 <= |s|
    ensures forall i :: 0 <= i < |s| ==> IsDigit(s[i])
    ensures (|s| == 1) == (n < 10)
  {
    if n < 10 then [DigitChar(n)] else NatToString(n / 10) + [DigitChar(n % 10)]
  }

  /** Different numbers are rendered differently. */
  lemma {:induction false} NatToStringInjective(a: nat, b: nat)
    requires NatToString(a) == NatToString(b)
    ensures a == b
  {
    var sa, sb := NatToString(a), NatToString(b);
    if a < 10 {
      assert b < 10;
      assert DigitChar(a) == sa[0] == sb[0] == DigitChar(b);
    } else {
      assert b >= 10;
      assert sa[..|sa| - 1] == NatToString(a / 10);
      assert sb[..|sb| - 1] == NatToString(b / 10);
      NatToStringInjective(a / 10, b / 10);
      assert DigitChar(a % 10) == sa[|sa| - 1] == sb[|sb| - 1] == DigitChar(b % 10);
    }
  }

  /** A run of digits followed by a non-digit can be split off in only one way. */
  lemma DigitPrefixUnique(a: string, b: string, c: string, d: string)
    requires a + b == c + d
    requires forall i :: 0 <= i < |a| ==> IsDigit(a[i])
    requires forall i :: 0 <= i < |c| ==> IsDigit(c[i])
    requires |b| > 0 && !IsDigit(b[0]) && |d| > 0 && !IsDigit(d[0])
    ensures a == c && b == d
  {
    var s := a + b;
    assert forall i :: 0 <= i < |a| ==> IsDigit(s[i]);
    assert forall i :: 0 <= i < |c| ==> IsDigit(s[i]);
    assert !IsDigit(s[|a|]) && !IsDigit(s[|c|]);
    assert |a| == |c|;
    assert a == s[..|a|] && c == s[..|c|];
    assert b == s[|a|..] && d == s[|c|..];
  }

  // ---------------------------------------------------------------------
  // Lagrange-multiplier names
  // ---------------------------------------------------------------------

  /** The level of a multibody-constraint equation: holonomic (position),
      nonholonomic (velocity) or acceleration-only. */
  datatype Level = Position | Velocity | Acceleration

  function LevelTag(level: Level): char {
    match level
    case Position => 'p'
    case Velocity => 'v'
    case Acceleration => 'a'
  }

  /** "lambda_cid<cid>_<p|v|a><i>", the name of the i-th multiplier of the
      given level for the constraint with index cid. */
  function MultiplierName(cid: nat, level: Level, i: nat): string {
    "lambda_cid" + (NatToString(cid) + LevelSuffix(level, i))
  }

  /** "_<p|v|a><i>", the part of a multiplier name after the constraint index. */
  function LevelSuffix(level: Level, i: nat): string {
    ['_', LevelTag(level)] + NatToString(i)
  }

  /** The multiplier name determines the constraint index, the level and the
      equation index: no two multipliers of a phase share a name. */
  lemma MultiplierNameInjective(c1: nat, l1: Level, i1: nat, c2: nat, l2: Level, i2: nat)
    requires MultiplierName(c1, l1, i1) == MultiplierName(c2, l2, i2)
    ensures c1 == c2 && l1 == l2 && i1 == i2
  {
    var r1, r2 := LevelSuffix(l1, i1), LevelSuffix(l2, i2);
    var n1, n2 := MultiplierName(c1, l1, i1), MultiplierName(c2, l2, i2);
    assert NatToString(c1) + r1 == n1[10..];
    assert NatToString(c2) + r2 == n2[10..];
    DigitPrefixUnique(NatToString(c1), r1, NatToString(c2), r2);
    NatToStringInjective(c1, c2);
    assert LevelTag(l1) == r1[1] == r2[1] == LevelTag(l2);
    assert NatToString(i1) == r1[2..] == r2[2..] == NatToString(i2);
    NatToStringInjective(i1, i2);
  }
}
