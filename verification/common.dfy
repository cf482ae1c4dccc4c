/** Shared vocabulary: optional values (Java's nullable references and
    missing JSON fields), 32-bit Java `int` arithmetic, and the
    `String.trim()` notion of a blank string used by the validators. */
module Common {

  /** A value that may be absent: a Java `null`, or a JSON field that
      the response does not carry. */
  datatype Option<+T> = None | Some(value: T)

  const MinInt32: int := -0x8000_0000
  const MaxInt32: int := 0x7fff_ffff

  /** Java `int` / `Integer`. */
  type Int32 = x: int | MinInt32 <= x <= MaxInt32

  /** Two's-complement truncation of an unbounded integer to 32 bits,
      which is what Java's `int` addition does on overflow. */
  function Wrap32(x: int): (r: Int32)
    ensures (r - x) % 0x1_0000_0000 == 0
    ensures MinInt32 <= x <= MaxInt32 ==> r == x
  {
    var m := x % 0x1_0000_0000;
    if m <= MaxInt32 then m else m - 0x1_0000_0000
  }

  /** Java `a + b` on two `int`s. */
  function AddInt32(a: Int32, b: Int32): (r: Int32)
    ensures MinInt32 <= a + b <= MaxInt32 ==> r == a + b
    ensures a + b > MaxInt32 ==> r == a + b - 0x1_0000_0000
    ensures a + b < MinInt32 ==> r == a + b + 0x1_0000_0000
  {
    Wrap32(a + b)
  }

  /** Wrapping an intermediate sum does not change the wrapped total:
      summing `int`s one at a time in Java yields the true sum modulo 2^32. */
  lemma WrapAddAssoc(a: int, b: int)
    ensures Wrap32(Wrap32(a) + b) == Wrap32(a + b)
  {
    var w := Wrap32(a);
    assert (w - a) % 0x1_0000_0000 == 0;
    var k := (w - a) / 0x1_0000_0000;
    assert w + b == (a + b) + k * 0x1_0000_0000;
    ModuloShift(a + b, k);
  }

  lemma ModuloShift(x: int, k: int)
    ensures (x + k * 0x1_0000_0000) % 0x1_0000_0000 == x % 0x1_0000_0000
  {
  }

  /** Java's `String.trim()`: drops every leading and trailing character
      whose code is at most U+0020. */
  function Trim(s: string): string
  {
    TrimEnd(TrimStart(s))
  }

  function TrimStart(s: string): string
  {
    if s != [] && s[0] <= ' ' then TrimStart(s[1..]) else s
  }

  function TrimEnd(s: string): string
  {
    if s != [] && s[|s| - 1] <= ' ' then TrimEnd(s[..|s| - 1]) else s
  }

  /** The blank test of the registration form and of `@NotBlank`: null, or
      no character above U+0020. `BlankIsTrimEmpty` shows it is exactly
      `s == null || s.trim().isEmpty()`. */
  predicate IsBlank(s: Option<string>)
  {
    s.None? || forall i :: 0 <= i < |s.value| ==> s.value[i] <= ' '
  }

  /** TrimStart removes a prefix of blank characters and stops at the
      first other one. */
  lemma {:induction false} TrimStartSpec(s: string)
    ensures var r := TrimStart(s);
      && |r| <= |s| && r == s[|s| - |r|..]
      && (r != [] ==> r[0] > ' ')
      && forall i :: 0 <= i < |s| - |r| ==> s[i] <= ' '
  {
    if s != [] && s[0] <= ' ' {
      TrimStartSpec(s[1..]);
    }
  }

  /** TrimEnd removes a suffix of blank characters and stops at the last
      other one. */
  lemma {:induction false} TrimEndSpec(s: string)
    ensures var r := TrimEnd(s);
      && |r| <= |s| && r == s[..|r|]
      && (r != [] ==> r[|r| - 1] > ' ')
      && forall i :: |r| <= i < |s| ==> s[i] <= ' '
  {
    if s != [] && s[|s| - 1] <= ' ' {
      TrimEndSpec(s[..|s| - 1]);
    }
  }

  /** A string trims to nothing exactly when every character is a control
      character or a space. */
  lemma TrimEmptyIff(s: string)
    ensures Trim(s) == [] <==> forall i :: 0 <= i < |s| ==> s[i] <= ' '
  {
    var t := TrimStart(s);
    TrimStartSpec(s);
    TrimEndSpec(t);
    if Trim(s) == [] {
      // TrimEnd empties t only if every character of t is blank, and a
      // non-empty t starts with a non-blank one, so TrimStart consumed all of s.
      assert t == [];
    } else {
      var r := Trim(s);
      assert r[0] > ' ';
      assert r[0] == t[0] == s[|s| - |t|];
    }
  }

  /** `IsBlank` is `s == null || s.trim().isEmpty()`. */
  lemma BlankIsTrimEmpty(s: Option<string>)
    ensures IsBlank(s) <==> s.None? || Trim(s.value) == []
  {
    if s.Some? {
      TrimEmptyIff(s.value);
    }
  }
}
