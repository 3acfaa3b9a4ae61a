/** The parts of the Java platform the core leans on, with Java's own semantics:
    32-bit `int` narrowing, truncating `/`, `Integer.toString`, `Integer.parseInt`,
    `String.trim`, `String.equalsIgnoreCase`, `String.split` on one literal character,
    and `String.lastIndexOf`. A Java string is a sequence of UTF-16 code units; a string
    here is a sequence of Unicode scalar values, so the two differ on chars outside the
    Basic Multilingual Plane, which a Java string holds as two units. */
module JavaLang {

  datatype Option<+T> = None | Some(value: T)

  const IntMin: int := -0x8000_0000
  const IntMax: int := 0x7FFF_FFFF

  predicate IsInt32(x: int)
  {
    IntMin <= x <= IntMax
  }

  /** The `(int)` cast and `int` arithmetic: keep the low 32 bits, two's complement. */
  function Wrap32(x: int): (r: int)
    ensures IsInt32(r)
    ensures IsInt32(x) ==> r == x
    ensures (x - r) % 0x1_0000_0000 == 0
  {
    var m := x % 0x1_0000_0000;
    if m <= IntMax then m else m - 0x1_0000_0000
  }

  /** Java's integer `/` on `long` and `int`: rounds toward zero (Dafny's `/` is Euclidean). */
  function JavaDiv(a: int, b: int): (q: int)
    requires b > 0
    ensures a >= 0 ==> 0 <= a - q * b < b
    ensures a < 0 ==> -b < a - q * b <= 0
  {
    if a >= 0 then a / b else -((-a) / b)
  }

  // ---------------------------------------------------------------- decimal text

  predicate IsDigit(c: char)
  {
    '0' <= c <= '9'
  }

  predicate AllDigits(s: string)
  {
    forall i :: 0 <= i < |s| ==> IsDigit(s[i])
  }

  function DigitChar(d: int): (c: char)
    requires 0 <= d < 10
    ensures IsDigit(c)
  {
    ('0' as int + d) as char
  }

  /** The value of a string of ASCII decimal digits, most significant first. */
  function DigitsValue(s: string): nat
    requires AllDigits(s)
  {
    if s == [] then 0 else DigitsValue(s[..|s| - 1]) * 10 + (s[|s| - 1] as int - '0' as int)
  }

  /** `Integer.toString` of a non-negative value: shortest decimal form, no sign. */
  function NatToString(n: nat): (s: string)
    ensures |s| >= 1 && AllDigits(s)
    ensures s[0] == '0' <==> n == 0
    ensures DigitsValue(s) == n
  {
    if n < 10 then [DigitChar(n)]
    else
      var s := NatToString(n / 10) + [DigitChar(n % 10)];
      assert s[..|s| - 1] == NatToString(n / 10);
      s
  }

  /** `Integer.toString` / string concatenation of an `int` or `long`. */
  function IntToString(n: int): string
  {
    if n < 0 then "-" + NatToString(-n) else NatToString(n)
  }

  /** `Integer.parseInt(s)`: an optional leading '-' or '+', then at least one digit, and the
      value must fit in an `int`; `None` stands for the `NumberFormatException`. Leading zeros
      are accepted. Only ASCII digits are modelled. */
  function ParseInt(s: string): (r: Option<int>)
    ensures r.Some? ==> IsInt32(r.value)
    ensures r.Some? ==> |s| >= 1
  {
    if |s| == 0 then None
    else
      var digits := if s[0] == '-' || s[0] == '+' then s[1..] else s;
      if |digits| == 0 || !AllDigits(digits) then None
      else
        var v: int := if s[0] == '-' then -(DigitsValue(digits) as int) else DigitsValue(digits);
        if IsInt32(v) then Some(v) else None
  }

  /** Printing an `int` and parsing it back gives the same value. */
  lemma ParseIntToString(n: int)
    requires IsInt32(n)
    ensures ParseInt(IntToString(n)) == Some(n)
  {
    var s := IntToString(n);
    if n < 0 {
      assert s[1..] == NatToString(-n);
    } else {
      assert s == NatToString(n);
    }
  }

  // ---------------------------------------------------------------- trim and blankness

  function TrimStart(s: string): (r: string)
    ensures r == [] || r[0] > ' '
    ensures |r| <= |s| && r == s[|s| - |r|..]
    ensures r == [] ==> forall i :: 0 <= i < |s| ==> s[i] <= ' '
  {
    if |s| > 0 && s[0] <= ' ' then TrimStart(s[1..]) else s
  }

  function TrimEnd(s: string): (r: string)
    ensures r == [] || r[|r| - 1] > ' '
    ensures |r| <= |s| && r == s[..|r|]
    ensures r == [] ==> forall i :: 0 <= i < |s| ==> s[i] <= ' '
  {
    if |s| > 0 && s[|s| - 1] <= ' ' then TrimEnd(s[..|s| - 1]) else s
  }

  /** `String.trim`: strips every leading and trailing char at or below U+0020. */
  function Trim(s: string): (r: string)
  {
    TrimEnd(TrimStart(s))
  }

  /** `s.trim().isEmpty()`. */
  predicate IsBlank(s: string)
  {
    Trim(s) == ""
  }

  /** A string trims to nothing exactly when every char in it is at or below U+0020. */
  lemma BlankIffAllControl(s: string)
    ensures IsBlank(s) <==> forall i :: 0 <= i < |s| ==> s[i] <= ' '
  {
  }

  // ---------------------------------------------------------------- equalsIgnoreCase

  /** The case folding `String.equalsIgnoreCase` applies char by char (upper-case both,
      then lower-case both, as `Character.toUpperCase` and `Character.toLowerCase` do),
      for every char that folds into Latin-1: the ASCII and Latin-1 letters, and the
      non-Latin-1 chars that fold onto one of them (U+0130, U+0131, U+017F, U+0178,
      U+1E9E, U+212A, U+212B). The micro sign U+00B5 folds with the Greek mu, and U+039C
      with it. Every other char is its own fold here. */
  function Fold(c: char): char
  {
    if 'A' <= c <= 'Z' then (c as int + 32) as char
    else if '\U{00C0}' <= c <= '\U{00DE}' && c != '\U{00D7}' then (c as int + 32) as char
    else if c == '\U{0130}' || c == '\U{0131}' then 'i'
    else if c == '\U{017F}' then 's'
    else if c == '\U{212A}' then 'k'
    else if c == '\U{212B}' then '\U{00E5}'
    else if c == '\U{0178}' then '\U{00FF}'
    else if c == '\U{1E9E}' then '\U{00DF}'
    else if c == '\U{00B5}' || c == '\U{039C}' then '\U{03BC}'
    else c
  }

  predicate EqualsIgnoreCase(a: string, b: string)
  {
    |a| == |b| && forall i :: 0 <= i < |a| ==> Fold(a[i]) == Fold(b[i])
  }

  // ---------------------------------------------------------------- split

  /** Every field of `s` between occurrences of `d`, empty fields included
      (`s.split(d, -1)`). */
  function Fields(s: string, d: char): (r: seq<string>)
    ensures |r| >= 1
  {
    if |s| == 0 then [""]
    else
      var rest := Fields(s[1..], d);
      if s[0] == d then [""] + rest else [[s[0]] + rest[0]] + rest[1..]
  }

  function DropTrailingEmpty(fs: seq<string>): (r: seq<string>)
    ensures |r| <= |fs| && r == fs[..|r|]
    ensures r == [] || r[|r| - 1] != ""
    ensures forall i :: |r| <= i < |fs| ==> fs[i] == ""
  {
    if |fs| > 0 && fs[|fs| - 1] == "" then DropTrailingEmpty(fs[..|fs| - 1]) else fs
  }

  /** `s.split(regex)` where the regex matches exactly the one char `d`: with no
      occurrence the string itself; otherwise every field, minus trailing empty ones. */
  function Split(s: string, d: char): seq<string>
  {
    if d !in s then [s] else DropTrailingEmpty(Fields(s, d))
  }

  /** The fields written back with `d` between them. */
  function Join(fs: seq<string>, d: char): string
    requires |fs| >= 1
  {
    if |fs| == 1 then fs[0] else fs[0] + [d] + Join(fs[1..], d)
  }

  /** Joining with a final empty field ends every field with the separator, so one more
      field before the empty one adds that field and a separator at the end. */
  lemma {:induction false} JoinBeforeEmpty(fs: seq<string>, x: string, d: char)
    ensures Join(fs + [x, ""], d) == Join(fs + [""], d) + x + [d]
  {
    if fs != [] {
      JoinBeforeEmpty(fs[1..], x, d);
      assert (fs + [x, ""])[1..] == fs[1..] + [x, ""];
      assert (fs + [""])[1..] == fs[1..] + [""];
    }
  }

  /** A final empty field adds just a separator at the end. */
  lemma {:induction false} JoinEmptyLast(fs: seq<string>, d: char)
    requires |fs| >= 1
    ensures Join(fs + [""], d) == Join(fs, d) + [d]
  {
    if |fs| > 1 {
      JoinEmptyLast(fs[1..], d);
      assert (fs + [""])[1..] == fs[1..] + [""];
    }
  }

  lemma {:induction false} FieldsNoSeparator(w: string, d: char)
    requires d !in w
    ensures Fields(w, d) == [w]
  {
    if |w| > 0 {
      FieldsNoSeparator(w[1..], d);
      assert [w[0]] + w[1..] == w;
    }
  }

  lemma {:induction false} FieldsAfterSeparator(w: string, d: char, t: string)
    requires d !in w
    ensures Fields(w + [d] + t, d) == [w] + Fields(t, d)
  {
    var s := w + [d] + t;
    if |w| == 0 {
      assert s[1..] == t;
    } else {
      assert s[1..] == w[1..] + [d] + t;
      FieldsAfterSeparator(w[1..], d, t);
      assert [w[0]] + w[1..] == w;
    }
  }

  /** Splitting a join gives the fields back. */
  lemma {:induction false} FieldsJoin(fs: seq<string>, d: char)
    requires |fs| >= 1
    requires forall i :: 0 <= i < |fs| ==> d !in fs[i]
    ensures Fields(Join(fs, d), d) == fs
  {
    if |fs| == 1 {
      FieldsNoSeparator(fs[0], d);
    } else {
      FieldsJoin(fs[1..], d);
      FieldsAfterSeparator(fs[0], d, Join(fs[1..], d));
    }
  }

  lemma {:induction false} JoinHasSeparator(fs: seq<string>, d: char)
    requires |fs| >= 2
    ensures d in Join(fs, d)
  {
    assert Join(fs, d)[|fs[0]|] == d;
  }

  lemma {:induction false} NoSeparatorInJoin(fs: seq<string>, d: char)
    requires |fs| == 1
    requires d !in fs[0]
    ensures d !in Join(fs, d)
  {
  }

  /** `split` gives back the fields of a join, as long as none of them contains the
      separator and the last is not empty (Java drops trailing empty fields). */
  lemma SplitJoin(fs: seq<string>, d: char)
    requires |fs| >= 1
    requires forall i :: 0 <= i < |fs| ==> d !in fs[i]
    requires |fs| == 1 || fs[|fs| - 1] != ""
    ensures Split(Join(fs, d), d) == fs
  {
    if |fs| == 1 {
      NoSeparatorInJoin(fs, d);
    } else {
      JoinHasSeparator(fs, d);
      FieldsJoin(fs, d);
    }
  }

  // ---------------------------------------------------------------- lastIndexOf

  /** `s.lastIndexOf(c)`: the highest index holding `c`, or -1. */
  function LastIndexOf(s: string, c: char): (r: int)
    ensures -1 <= r < |s|
    ensures r >= 0 ==> s[r] == c
    ensures forall j :: r < j < |s| ==> s[j] != c
  {
    if |s| == 0 then -1
    else if s[|s| - 1] == c then |s| - 1
    else LastIndexOf(s[..|s| - 1], c)
  }
}
