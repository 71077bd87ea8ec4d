/** `degreesToDirection` (16-point compass) and `getSky` (sky-cover code lookup). */
module Wind {
  import opened Text

  /** The compass table; the seventeenth entry repeats "North" so that bearings
      just below 360 degrees round up to it. */
  const Directions: seq<string> := [
    "North", "North-Northeast", "Northeast", "East-Northeast",
    "East", "East-Southeast", "Southeast", "South-Southeast",
    "South", "South-Southwest", "Southwest", "West-Southwest",
    "West", "West-Northwest", "Northwest", "North-Northwest",
    "North"
  ]

  /** JavaScript's `a % b` on integers: the remainder takes the sign of `a`. */
  function JsRem(a: int, b: int): (r: int)
    requires b > 0
    ensures -b < r < b
    ensures a >= 0 ==> r == a % b
    ensures a < 0 ==> r == -((-a) % b)
  {
    if a >= 0 then a % b else -((-a) % b)
  }

  /** `Math.round(x)`: the nearest integer, halves rounded up. */
  function JsRound(x: real): (n: int)
    ensures n as real - 0.5 <= x < n as real + 0.5
  {
    (x + 0.5).Floor
  }

  /** A remainder is determined by any decomposition `a == q * 360 + r`. */
  lemma ModOfDecomposition(a: int, q: int, r: int)
    requires a == q * 360 + r && 0 <= r < 360
    ensures a % 360 == r
  {
  }

  /** `((d % 360) + 360) % 360`: the bearing brought into [0, 360); it is the
      mathematical residue of `d`. */
  function NormalizeDegrees(d: int): (n: int)
    ensures 0 <= n < 360
    ensures n == d % 360
  {
    var t := JsRem(d, 360);
    var n := JsRem(t + 360, 360);
    if d >= 0 then
      ModOfDecomposition(d, d / 360, t);
      ModOfDecomposition(t + 360, 1, t);
      n
    else
      var m := (-d) / 360;
      var q := (-d) % 360;
      assert -d == m * 360 + q;
      if q == 0 then
        ModOfDecomposition(t + 360, 1, 0);
        ModOfDecomposition(d, -m, 0);
        n
      else
        ModOfDecomposition(t + 360, 0, 360 - q);
        ModOfDecomposition(d, -m - 1, 360 - q);
        n
  }

  /** The table index `Math.round(n / 22.5)` for a bearing `n` in [0, 360). For
      whole degrees there are no ties and it is `(4n + 45) / 90`, always in 0..16. */
  lemma {:induction false} BucketIndex(n: int)
    requires 0 <= n < 360
    ensures JsRound(n as real / 22.5) == (4 * n + 45) / 90
    ensures 0 <= JsRound(n as real / 22.5) < |Directions|
  {
    var k := (4 * n + 45) / 90;
    assert 90 * k <= 4 * n + 45 < 90 * k + 90;
    var x := n as real / 22.5;
    assert x * 22.5 == n as real;
    assert k as real - 0.5 <= x < k as real + 0.5;
    var r := JsRound(x);
    assert r as real - 0.5 <= x < r as real + 0.5;
    assert r == k;
  }

  /** `degreesToDirection`: the nearest of the 16 compass points, or "-" when the
      index falls outside the table. */
  function DegreesToDirection(degrees: int): (r: string)
    ensures r != "-"
    ensures r == Directions[(4 * (degrees % 360) + 45) / 90]
  {
    var n := NormalizeDegrees(degrees);
    var index := JsRound(n as real / 22.5);
    BucketIndex(n);
    assert index == (4 * (degrees % 360) + 45) / 90;
    if 0 <= index < |Directions| then Directions[index] else "-"
  }

  lemma SameResidue(a: int, b: int)
    requires a % 360 == b % 360
    ensures DegreesToDirection(a) == DegreesToDirection(b)
  {
    var k := (4 * (a % 360) + 45) / 90;
    CompassPoint(a, k, Directions[k]);
    CompassPoint(b, k, Directions[k]);
  }

  /** Adding or removing a full turn does not change the direction. */
  lemma FullTurn(degrees: int)
    ensures DegreesToDirection(degrees + 360) == DegreesToDirection(degrees)
    ensures DegreesToDirection(degrees - 360) == DegreesToDirection(degrees)
  {
    var q, r := degrees / 360, degrees % 360;
    assert degrees == q * 360 + r;
    assert (degrees + 360) % 360 == r by { ModOfDecomposition(degrees + 360, q + 1, r); }
    assert (degrees - 360) % 360 == r by { ModOfDecomposition(degrees - 360, q - 1, r); }
    SameResidue(degrees + 360, degrees);
    SameResidue(degrees - 360, degrees);
  }

  /** A bearing whose table index is `k` reads the `k`-th compass point. */
  lemma CompassPoint(d: int, k: nat, name: string)
    requires k < |Directions| && (4 * (d % 360) + 45) / 90 == k && Directions[k] == name
    ensures DegreesToDirection(d) == name
  {
  }

  /** Every multiple of 90 degrees, negative ones and full turns included,
      names a cardinal point: North, East, South and West in turn. */
  lemma Cardinals(k: int)
    ensures DegreesToDirection(90 * k) == ["North", "East", "South", "West"][k % 4]
  {
    var j := k % 4;
    assert 90 * k == (k / 4) * 360 + 90 * j;
    ModOfDecomposition(90 * k, k / 4, 90 * j);
    assert (4 * (90 * j) + 45) / 90 == 4 * j;
    CompassPoint(90 * k, 4 * j, Directions[4 * j]);
  }

  /** Bearings from 349 to 359 degrees round to the repeated "North" entry. */
  lemma NearlyFullTurn(d: int)
    requires 349 <= d < 360
    ensures DegreesToDirection(d) == "North"
    ensures DegreesToDirection(d - 360) == "North"
  {
    assert d % 360 == d && (4 * d + 45) / 90 == 16;
    CompassPoint(d, 16, "North");
    FullTurn(d);
  }

  /** The "North" sector spans 11 degrees either side of 0. */
  lemma NorthSector(d: int)
    requires -11 <= d <= 11
    ensures DegreesToDirection(d) == "North"
  {
    if d >= 0 {
      assert d % 360 == d && (4 * d + 45) / 90 == 0;
      CompassPoint(d, 0, "North");
    } else {
      assert d % 360 == d + 360 && (4 * (d + 360) + 45) / 90 == 16;
      CompassPoint(d, 16, "North");
    }
  }

  /** 12 degrees either side of 0 already lies in the neighbouring sectors. */
  lemma NorthSectorEdges()
    ensures DegreesToDirection(12) == "North-Northeast"
    ensures DegreesToDirection(-12) == "North-Northwest"
  {
    CompassPoint(12, 1, "North-Northeast");
    CompassPoint(-12, 15, "North-Northwest");
  }

  /** An entry of the sky-condition table. */
  datatype SkyCondition = SkyCondition(code: string, description: string)

  /** `getSky`: the description of the first table entry whose code equals
      `cover` ignoring case, or "-" when none does. */
  function GetSky(table: seq<SkyCondition>, cover: string): (r: string)
    ensures (exists i :: 0 <= i < |table| && Lower(table[i].code) == Lower(cover)) ==>
      exists i :: 0 <= i < |table| && Lower(table[i].code) == Lower(cover) && r == table[i].description
        && forall j :: 0 <= j < i ==> Lower(table[j].code) != Lower(cover)
    ensures (forall i :: 0 <= i < |table| ==> Lower(table[i].code) != Lower(cover)) ==> r == "-"
  {
    if |table| == 0 then "-"
    else if Lower(table[0].code) == Lower(cover) then table[0].description
    else
      var r := GetSky(table[1..], cover);
      assert forall i :: 1 <= i < |table| ==> table[i] == table[1..][i - 1];
      r
  }
}
