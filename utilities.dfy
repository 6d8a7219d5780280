// The static helpers of the runtime: GUI window ids, flattening of vector lists,
// angle normalisation, quaternion conjugation and English ordinals.
module Utilities {
  import opened Wrappers
  import opened Geometry

  /** The fixed-update rate the runtime assumes. */
  const FPS: int := 60

  const MinInt32: int := -0x8000_0000
  const MaxInt32: int := 0x7FFF_FFFF

  /** Two's-complement wrap-around of a C# `int`. */
  function Wrap32(n: int): (r: int)
    ensures MinInt32 <= r <= MaxInt32
    ensures MinInt32 <= n <= MaxInt32 ==> r == n
  {
    (n - MinInt32) % 0x1_0000_0000 + MinInt32
  }

  /** The process-wide GUI window id counter. */
  class WindowIds {
    var next: int

    ghost predicate Valid() reads this { MinInt32 <= next <= MaxInt32 }

    constructor ()
      ensures Valid() && next == 0
    {
      next := 0;
    }

    /** GetWindowId: hands out the current counter value and post-increments it; the
        counter wraps around after MaxInt32 like any unchecked C# int. */
    method GetWindowId() returns (id: int)
      requires Valid()
      modifies this
      ensures Valid()
      ensures id == old(next)
      ensures next == Wrap32(old(next) + 1)
      ensures old(next) < MaxInt32 ==> next == id + 1
    {
      id := next;
      next := Wrap32(next + 1);
    }
  }

  /** The float list [x0, y0, z0, x1, y1, z1, …] of a vector list. */
  function Flat(v: seq<Vec3>): seq<real>
  {
    if v == [] then [] else [v[0].x, v[0].y, v[0].z] + Flat(v[1..])
  }

  /** The vector list read from consecutive float triples; `None` where the source
      indexes past the end of the list (a length that is not a multiple of 3). */
  function Vectors(f: seq<real>): Option<seq<Vec3>>
    decreases |f|
  {
    if f == [] then Some([])
    else if |f| < 3 then Option.None
    else match Vectors(f[3..])
      case None => Option.None
      case Some(rest) => Some([Vec3(f[0], f[1], f[2])] + rest)
  }

  lemma {:induction false} FlatLength(v: seq<Vec3>)
    ensures |Flat(v)| == 3 * |v|
  {
    if v != [] { FlatLength(v[1..]); }
  }

  /** Flattening puts the coordinates of vector i at positions 3i, 3i+1 and 3i+2. */
  lemma {:induction false} FlatAt(v: seq<Vec3>, i: int)
    requires 0 <= i < |v|
    ensures |Flat(v)| == 3 * |v|
    ensures Flat(v)[3 * i] == v[i].x && Flat(v)[3 * i + 1] == v[i].y && Flat(v)[3 * i + 2] == v[i].z
  {
    FlatLength(v);
    if i > 0 { FlatAt(v[1..], i - 1); }
  }

  /** Vectorize3 undoes Flatten. */
  lemma {:induction false} VectorsOfFlat(v: seq<Vec3>)
    ensures Vectors(Flat(v)) == Some(v)
  {
    if v != [] {
      var f := Flat(v);
      FlatLength(v[1..]);
      assert f[3..] == Flat(v[1..]);
      VectorsOfFlat(v[1..]);
      assert [v[0]] + v[1..] == v;
    }
  }

  /** Vectorize3 fails exactly on lists whose length is not a multiple of 3, and
      Flatten undoes it when it succeeds. */
  lemma {:induction false} FlatOfVectors(f: seq<real>)
    ensures Vectors(f).Some? <==> |f| % 3 == 0
    ensures Vectors(f).Some? ==> Flat(Vectors(f).value) == f && 3 * |Vectors(f).value| == |f|
    decreases |f|
  {
    if f != [] && |f| >= 3 {
      FlatOfVectors(f[3..]);
      if Vectors(f).Some? {
        var rest := Vectors(f[3..]).value;
        assert Vectors(f).value[1..] == rest;
        assert f == [f[0], f[1], f[2]] + f[3..];
      }
    }
  }

  /** Flatten, with the loop of the source. */
  method Flatten(v: seq<Vec3>) returns (result: seq<real>)
    ensures result == Flat(v)
  {
    result := [];
    var i := 0;
    while i < |v|
      invariant 0 <= i <= |v|
      invariant result + Flat(v[i..]) == Flat(v)
    {
      assert Flat(v[i..]) == [v[i].x, v[i].y, v[i].z] + Flat(v[i + 1..]);
      result := result + [v[i].x, v[i].y, v[i].z];
      i := i + 1;
    }
    assert v[|v|..] == [];
  }

  function Prepend(acc: seq<Vec3>, r: Option<seq<Vec3>>): Option<seq<Vec3>>
  {
    match r
    case None => Option.None
    case Some(rest) => Some(acc + rest)
  }

  /** Vectorize3, with the loop of the source; `None` where the source reads past the
      end of the list. */
  method Vectorize3(f: seq<real>) returns (result: Option<seq<Vec3>>)
    ensures result == Vectors(f)
  {
    var acc: seq<Vec3> := [];
    var i := 0;
    assert f[0..] == f;
    if Vectors(f).Some? { assert [] + Vectors(f).value == Vectors(f).value; }
    while i < |f|
      invariant 0 <= i <= |f|
      invariant Vectors(f) == Prepend(acc, Vectors(f[i..]))
      decreases |f| - i
    {
      if i + 2 >= |f| {
        assert Vectors(f[i..]) == Option.None;
        return Option.None;
      }
      var rest := f[i..];
      assert rest[3..] == f[i + 3..];
      var v := Vec3(f[i], f[i + 1], f[i + 2]);
      assert Vectors(rest) == Prepend([v], Vectors(f[i + 3..]));
      if Vectors(f[i + 3..]).Some? {
        assert acc + ([v] + Vectors(f[i + 3..]).value) == (acc + [v]) + Vectors(f[i + 3..]).value;
      }
      acc := acc + [v];
      i := i + 3;
    }
    assert f[i..] == [] && Vectors(f[i..]) == Some([]);
    assert acc + [] == acc;
    result := Some(acc);
  }

  function IntReal(k: int): real { k as real }

  /** `a` and `b` differ by a whole number of turns. */
  ghost predicate Turns(a: real, b: real)
  {
    exists k: int {:trigger IntReal(k)} :: a == b + 360.0 * IntReal(k)
  }

  /** Mathf.Repeat(t, 360): t minus the largest multiple of 360 not above it. */
  function RepeatTurn(t: real): (r: real)
    ensures 0.0 <= r < 360.0
    ensures Turns(r, t)
  {
    var f := (t / 360.0).Floor;
    assert r: t - f as real * 360.0 == t + 360.0 * IntReal(-f);
    t - f as real * 360.0
  }

  /** GetCyclicAngle(float): the angle moved into (-180, 180] by whole turns. */
  function CyclicAngle(angle: real): (r: real)
    ensures -180.0 < r <= 180.0
    ensures Turns(r, angle)
  {
    var c := RepeatTurn(angle);
    if 180.0 < c then
      var k :| c == angle + 360.0 * IntReal(k);
      assert c - 360.0 == angle + 360.0 * IntReal(k - 1);
      c - 360.0
    else c
  }

  /** Two angles in the same half-open turn that differ by whole turns are equal. */
  lemma TurnsInOneTurn(a: real, b: real)
    requires -180.0 < a <= 180.0 && -180.0 < b <= 180.0 && Turns(a, b)
    ensures a == b
  {
    var k :| a == b + 360.0 * IntReal(k);
    assert -1 < k < 1;
  }

  /** An angle already in (-180, 180] is returned unchanged, so normalising twice is
      normalising once. */
  lemma CyclicAngleFixes(angle: real)
    requires -180.0 < angle <= 180.0
    ensures CyclicAngle(angle) == angle
  {
    TurnsInOneTurn(CyclicAngle(angle), angle);
  }

  /** Two angles a whole number of turns apart normalise to the same value. */
  lemma CyclicAnglePeriodic(a: real, b: real)
    requires Turns(b, a)
    ensures CyclicAngle(b) == CyclicAngle(a)
  {
    var ra, rb := CyclicAngle(a), CyclicAngle(b);
    var i :| ra == a + 360.0 * IntReal(i);
    var j :| rb == b + 360.0 * IntReal(j);
    var k :| b == a + 360.0 * IntReal(k);
    assert rb == ra + 360.0 * IntReal(j + k - i);
    TurnsInOneTurn(rb, ra);
  }

  lemma CyclicAngleIdempotent(angle: real)
    ensures CyclicAngle(CyclicAngle(angle)) == CyclicAngle(angle)
  {
    CyclicAngleFixes(CyclicAngle(angle));
  }

  /** GetCyclicAngle(Vector3): each coordinate normalised on its own. */
  function CyclicAngles(angles: Vec3): (r: Vec3)
    ensures -180.0 < r.x <= 180.0 && -180.0 < r.y <= 180.0 && -180.0 < r.z <= 180.0
    ensures Turns(r.x, angles.x) && Turns(r.y, angles.y) && Turns(r.z, angles.z)
  {
    Vec3(CyclicAngle(angles.x), CyclicAngle(angles.y), CyclicAngle(angles.z))
  }

  /** Utilities.Multiply(p, q): `p` seen in the frame of `q`, Inverse(q) * p * q. */
  function Multiply(p: Quat, q: Quat): (r: Quat)
    ensures q == Identity ==> r == p
    ensures p == Identity && q != Identity ==> r == Product(Inverse(q), q)
  {
    Mul(Mul(Inv(q), p), q)
  }

  // ---- ordinal words ----

  function DigitChar(d: int): char
    requires 0 <= d < 10
  {
    "0123456789"[d]
  }

  /** The decimal digits of a natural number. */
  function NatToString(n: nat): (s: string)
    ensures |s| >= 1 && '0' <= s[0] <= '9'
    ensures n >= 10 ==> |s| >= 2
  {
    if n < 10 then [DigitChar(n)] else NatToString(n / 10) + [DigitChar(n % 10)]
  }

  /** `$"{num}"`: the decimal form of an int, with a leading minus sign when negative. */
  function IntToString(n: int): (s: string)
    ensures |s| >= 1
    ensures n >= 0 ==> '0' <= s[0] <= '9'
    ensures n < 0 ==> s[0] == '-'
  {
    if n < 0 then "-" + NatToString(-n) else NatToString(n)
  }

  /** GetNumberWord as the source writes it. For a positive number ending in 0–3 whose
      tens digit is not 1 it returns only the suffix part ("1st", "2nd", "3rd") or
      "ERROR", never the number itself. (The source's `%` truncates toward zero; every
      `%` here is reached only with num > 0, where that agrees with Dafny's.) */
  function NumberWordAsWritten(num: int): string
  {
    if num <= 0 then IntToString(num) + "th"
    else if 3 < num % 10 then IntToString(num) + "th"
    else if num % 10 <= 3 && (num % 100) / 10 == 1 then IntToString(num) + "th"
    else if num % 10 == 1 then "1st"
    else if num % 10 == 2 then "2nd"
    else if num % 10 == 3 then "3rd"
    else "ERROR"
  }

  /** The English ordinal suffix of a number. */
  function OrdinalSuffix(num: int): string
  {
    if num <= 0 || (num % 100) / 10 == 1 then "th"
    else if num % 10 == 1 then "st"
    else if num % 10 == 2 then "nd"
    else if num % 10 == 3 then "rd"
    else "th"
  }

  /** GetNumberWord as evidently intended: the number followed by its two-letter
      English ordinal suffix, which is "st", "nd" or "rd" for a positive number whose
      last digit is 1, 2 or 3 respectively and whose last two digits are not 11, 12
      or 13, and "th" for every other number. */
  function GetNumberWord(num: int): (r: string)
    ensures var d := IntToString(num);
            && |r| == |d| + 2 && r[..|d|] == d
            && (r[|d|..] == "st" <==> num > 0 && num % 10 == 1 && num % 100 != 11)
            && (r[|d|..] == "nd" <==> num > 0 && num % 10 == 2 && num % 100 != 12)
            && (r[|d|..] == "rd" <==> num > 0 && num % 10 == 3 && num % 100 != 13)
            && (r[|d|..] == "th" <==> num <= 0 || num % 10 == 0 || 3 < num % 10 || 11 <= num % 100 <= 13)
  {
    IntToString(num) + OrdinalSuffix(num)
  }

  /** The intended ordinals on a few inputs, including those the source gets wrong. */
  lemma NumberWordExamples()
    ensures GetNumberWord(1) == "1st" && GetNumberWord(2) == "2nd" && GetNumberWord(3) == "3rd"
    ensures GetNumberWord(11) == "11th" && GetNumberWord(12) == "12th" && GetNumberWord(13) == "13th"
    ensures GetNumberWord(20) == "20th" && GetNumberWord(21) == "21st" && GetNumberWord(112) == "112th"
    ensures GetNumberWord(0) == "0th" && GetNumberWord(-1) == "-1th"
  {
    SmallOrdinals();
    TeenOrdinals();
    LargerOrdinals();
  }

  /** 1st, 2nd, 3rd, 0th and -1th. */
  lemma SmallOrdinals()
    ensures GetNumberWord(1) == "1st" && GetNumberWord(2) == "2nd" && GetNumberWord(3) == "3rd"
    ensures GetNumberWord(0) == "0th" && GetNumberWord(-1) == "-1th"
  {
    assert IntToString(1) == "1" && IntToString(2) == "2" && IntToString(3) == "3";
    assert IntToString(0) == "0" && IntToString(-1) == "-1";
    assert OrdinalSuffix(1) == "st" && OrdinalSuffix(2) == "nd" && OrdinalSuffix(3) == "rd";
    assert OrdinalSuffix(0) == OrdinalSuffix(-1) == "th";
  }

  /** 11th, 12th and 13th. */
  lemma TeenOrdinals()
    ensures GetNumberWord(11) == "11th" && GetNumberWord(12) == "12th" && GetNumberWord(13) == "13th"
  {
    assert NatToString(11) == "11" && NatToString(12) == "12" && NatToString(13) == "13";
    assert IntToString(11) == "11" && IntToString(12) == "12" && IntToString(13) == "13";
    assert OrdinalSuffix(11) == OrdinalSuffix(12) == OrdinalSuffix(13) == "th";
  }

  /** 20th, 21st and 112th. */
  lemma LargerOrdinals()
    ensures GetNumberWord(20) == "20th" && GetNumberWord(21) == "21st" && GetNumberWord(112) == "112th"
  {
    assert NatToString(20) == "20" && NatToString(21) == "21" && NatToString(112) == "112";
    assert IntToString(20) == "20" && IntToString(21) == "21" && IntToString(112) == "112";
    assert OrdinalSuffix(20) == OrdinalSuffix(112) == "th" && OrdinalSuffix(21) == "st";
  }

  /** The source's GetNumberWord on 20 and 21. */
  lemma NumberWordAsWrittenCounterexample()
    ensures NumberWordAsWritten(20) == "ERROR" && GetNumberWord(20) == "20th"
    ensures NumberWordAsWritten(21) == "1st" && GetNumberWord(21) == "21st"
  {
    assert NatToString(20) == "20";
    assert NatToString(21) == "21";
  }

  /** Exactly where the source's GetNumberWord is right: at 3 and below, at numbers
      ending in 4–9, and in the teens of every hundred. */
  lemma NumberWordAsWrittenAgrees(num: int)
    ensures NumberWordAsWritten(num) == GetNumberWord(num)
        <==> num <= 3 || 3 < num % 10 || (num % 100) / 10 == 1
  {
    if num > 3 && num % 10 <= 3 && (num % 100) / 10 != 1 {
      assert num >= 10;
      var w := GetNumberWord(num);
      assert |w| >= 4;
      assert '0' <= w[0] <= '9';
    }
  }
}
