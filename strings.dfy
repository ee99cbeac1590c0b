/**
 * The parts of java.lang.String that the parking core relies on: `trim`,
 * `toUpperCase`, `replaceAll("\\s+", "")`, `contains`, `split(",")`, and the
 * decimal rendering of integers used by `String.format("%05d", ...)`.
 */
module JavaStrings {

  /** The characters `String.trim()` strips from both ends: every char at or below U+0020. */
  predicate IsTrimmable(c: char) { c <= ' ' }

  /** The characters of the regular-expression class `\s`. */
  predicate IsSpace(c: char)
  {
    c == ' ' || c == '\t' || c == '\n' || c == '\U{000B}' || c == '\U{000C}' || c == '\r'
  }

  predicate IsLower(c: char) { 'a' <= c <= 'z' }

  predicate IsUpper(c: char) { 'A' <= c <= 'Z' }

  predicate IsDigit(c: char) { '0' <= c <= '9' }

  predicate AllDigits(s: string) { forall i :: 0 <= i < |s| ==> IsDigit(s[i]) }

  /** A string that `String.trim()` leaves as it is. */
  predicate IsTrimmed(s: string)
  {
    s == [] || (!IsTrimmable(s[0]) && !IsTrimmable(s[|s| - 1]))
  }

  // ---------------------------------------------------------------- trim

  function TrimStart(s: string): (r: string)
    ensures |r| <= |s| && r == s[|s| - |r|..]
    ensures forall j :: 0 <= j < |s| - |r| ==> IsTrimmable(s[j])
    ensures r == [] || !IsTrimmable(r[0])
    decreases |s|
  {
    if |s| > 0 && IsTrimmable(s[0]) then TrimStart(s[1..]) else s
  }

  function TrimEnd(s: string): (r: string)
    ensures |r| <= |s| && r == s[..|r|]
    ensures forall j :: |r| <= j < |s| ==> IsTrimmable(s[j])
    ensures r == [] || !IsTrimmable(r[|r| - 1])
    decreases |s|
  {
    if |s| > 0 && IsTrimmable(s[|s| - 1]) then TrimEnd(s[..|s| - 1]) else s
  }

  /** `String.trim()`: the result starts and ends with a char above U+0020. */
  function Trim(s: string): (r: string)
    ensures |r| <= |s|
    ensures IsTrimmed(r)
  {
    TrimEnd(TrimStart(s))
  }

  /** A string whose first char is not blank does not trim to "". */
  lemma TrimNotBlank(s: string)
    requires s != [] && !IsTrimmable(s[0])
    ensures Trim(s) != []
  {
    assert TrimStart(s) == s;
  }

  /** Trimming a string that has nothing to trim changes nothing. */
  lemma TrimOfTrimmed(s: string)
    requires IsTrimmed(s)
    ensures Trim(s) == s
  {
    assert TrimStart(s) == s;
    assert TrimEnd(s) == s;
  }

  /** `trim` is idempotent. */
  lemma TrimIdempotent(s: string)
    ensures Trim(Trim(s)) == Trim(s)
  {
    TrimOfTrimmed(Trim(s));
  }

  // ---------------------------------------------------------- toUpperCase

  /** `Character.toUpperCase` on the ASCII letters; every other char is left alone. */
  function UpperChar(c: char): (u: char)
    ensures !IsLower(u)
    ensures IsLower(c) ==> IsUpper(u) && u as int == c as int - 32
    ensures !IsLower(c) ==> u == c
  {
    if IsLower(c) then (c as int - 32) as char else c
  }

  /** `String.toUpperCase()`, char by char. */
  function ToUpperCase(s: string): (r: string)
    ensures |r| == |s|
    ensures forall i :: 0 <= i < |s| ==> r[i] == UpperChar(s[i])
  {
    seq(|s|, i requires 0 <= i < |s| => UpperChar(s[i]))
  }

  /** Upper-casing a string `trim` leaves alone gives such a string again. */
  lemma UpperKeepsTrimmed(s: string)
    requires IsTrimmed(s)
    ensures IsTrimmed(ToUpperCase(s))
  {
  }

  // ------------------------------------------------- replaceAll("\\s+", "")

  /** `replaceAll("\\s+", "")`: every `\s` char is dropped, every other char kept in order. */
  function RemoveSpaces(s: string): (r: string)
    ensures |r| <= |s|
    ensures forall i :: 0 <= i < |r| ==> !IsSpace(r[i])
    decreases |s|
  {
    if s == [] then []
    else if IsSpace(s[0]) then RemoveSpaces(s[1..])
    else [s[0]] + RemoveSpaces(s[1..])
  }

  /** Removing spaces from a string without any is the identity. */
  lemma {:induction false} RemoveSpacesOfSpaceless(s: string)
    requires forall i :: 0 <= i < |s| ==> !IsSpace(s[i])
    ensures RemoveSpaces(s) == s
    decreases |s|
  {
    if s != [] {
      RemoveSpacesOfSpaceless(s[1..]);
    }
  }

  /** Dropping spaces keeps a string free of lower-case letters. */
  lemma {:induction false} RemoveSpacesKeepsNoLower(s: string)
    requires forall i :: 0 <= i < |s| ==> !IsLower(s[i])
    ensures forall i :: 0 <= i < |RemoveSpaces(s)| ==> !IsLower(RemoveSpaces(s)[i])
    decreases |s|
  {
    if s != [] {
      RemoveSpacesKeepsNoLower(s[1..]);
    }
  }

  /** A last char that is not a space survives as the last char. */
  lemma {:induction false} RemoveSpacesKeepsLast(s: string)
    requires s != [] && !IsSpace(s[|s| - 1])
    ensures RemoveSpaces(s) != [] && RemoveSpaces(s)[|RemoveSpaces(s)| - 1] == s[|s| - 1]
    decreases |s|
  {
    if |s| > 1 {
      RemoveSpacesKeepsLast(s[1..]);
    }
  }

  /** Dropping spaces from a string `trim` leaves alone gives such a string again. */
  lemma RemoveSpacesKeepsTrimmed(s: string)
    requires IsTrimmed(s)
    ensures IsTrimmed(RemoveSpaces(s))
  {
    if s != [] {
      assert RemoveSpaces(s) == [s[0]] + RemoveSpaces(s[1..]);
      RemoveSpacesKeepsLast(s);
    }
  }

  // -------------------------------------------------------------- contains

  /** `t` occurs in `s` starting at index `i`. */
  predicate OccursAt(s: string, t: string, i: int)
  {
    0 <= i && i + |t| <= |s| && s[i..i + |t|] == t
  }

  /** `String.contains`: the empty string occurs in every string. */
  function Contains(s: string, t: string): (b: bool)
    ensures b <==> exists i :: OccursAt(s, t, i)
    decreases |s|
  {
    if |t| > |s| then false
    else if s[..|t|] == t then (assert OccursAt(s, t, 0); true)
    else
      var rest := Contains(s[1..], t);
      if rest then
        var i :| OccursAt(s[1..], t, i);
        OccursShift(s, t, i);
        true
      else
        forall i | OccursAt(s, t, i) && i != 0
          ensures OccursAt(s[1..], t, i - 1)
        {
          OccursUnshift(s, t, i);
        }
        false
  }

  /** An occurrence in the tail of `s` is an occurrence in `s`, one place later. */
  lemma OccursShift(s: string, t: string, i: int)
    requires s != [] && OccursAt(s[1..], t, i)
    ensures OccursAt(s, t, i + 1)
  {
    assert s[i + 1..i + 1 + |t|] == s[1..][i..i + |t|];
  }

  /** An occurrence in `s` past its first char is an occurrence in its tail. */
  lemma OccursUnshift(s: string, t: string, i: int)
    requires OccursAt(s, t, i) && i > 0
    ensures OccursAt(s[1..], t, i - 1)
  {
    assert s[1..][i - 1..i - 1 + |t|] == s[i..i + |t|];
  }

  // ----------------------------------------------------------------- split

  /** All pieces of `s` between occurrences of `sep`, empty pieces included. */
  function Fields(s: string, sep: char): (r: seq<string>)
    ensures |r| >= 1
    decreases |s|
  {
    if s == [] then [""]
    else
      var rest := Fields(s[1..], sep);
      if s[0] == sep then [""] + rest
      else [[s[0]] + rest[0]] + rest[1..]
  }

  /** `s.split(String.valueOf(sep))` with limit zero: a string without `sep` splits into
      itself; otherwise the pieces, with trailing empty pieces dropped. */
  function JavaSplit(s: string, sep: char): (r: seq<string>)
  {
    if sep !in s then [s] else DropTrailingEmpty(Fields(s, sep))
  }

  function DropTrailingEmpty(fs: seq<string>): (r: seq<string>)
    ensures |r| <= |fs| && r == fs[..|r|]
    ensures r == [] || r[|r| - 1] != ""
    ensures forall j :: |r| <= j < |fs| ==> fs[j] == ""
  {
    if fs == [] then []
    else if fs[|fs| - 1] == "" then DropTrailingEmpty(fs[..|fs| - 1])
    else fs
  }

  /** The fields joined with `sep` between them, as `String.format("%s,%s,...")` writes them. */
  function Join(fs: seq<string>, sep: char): string
    requires |fs| >= 1
  {
    if |fs| == 1 then fs[0] else fs[0] + [sep] + Join(fs[1..], sep)
  }

  lemma {:induction false} FieldsWithoutSep(s: string, sep: char)
    requires sep !in s
    ensures Fields(s, sep) == [s]
    decreases |s|
  {
    if s != [] {
      FieldsWithoutSep(s[1..], sep);
      assert [s[0]] + s[1..] == s;
    }
  }

  /** Splitting at the first separator. */
  lemma {:induction false} FieldsAppend(a: string, b: string, sep: char)
    requires sep !in a
    ensures Fields(a + [sep] + b, sep) == [a] + Fields(b, sep)
    decreases |a|
  {
    if a == [] {
      assert a + [sep] + b == [sep] + b;
      assert ([sep] + b)[1..] == b;
    } else {
      FieldsAppend(a[1..], b, sep);
      assert (a + [sep] + b)[1..] == a[1..] + [sep] + b;
      assert [a[0]] + a[1..] == a;
    }
  }

  /** `Fields` undoes `Join` when no field holds the separator. */
  lemma {:induction false} FieldsOfJoin(fs: seq<string>, sep: char)
    requires |fs| >= 1
    requires forall i :: 0 <= i < |fs| ==> sep !in fs[i]
    ensures Fields(Join(fs, sep), sep) == fs
    decreases |fs|
  {
    if |fs| == 1 {
      FieldsWithoutSep(fs[0], sep);
    } else {
      FieldsOfJoin(fs[1..], sep);
      FieldsAppend(fs[0], Join(fs[1..], sep), sep);
      assert [fs[0]] + fs[1..] == fs;
    }
  }

  /** A join starts with the first char of its first field. */
  lemma JoinStart(fs: seq<string>, sep: char)
    requires |fs| >= 1 && fs[0] != []
    ensures Join(fs, sep) != [] && Join(fs, sep)[0] == fs[0][0]
  {
    if |fs| > 1 {
      assert Join(fs, sep) == fs[0] + ([sep] + Join(fs[1..], sep));
    }
  }

  lemma {:induction false} JoinHasSep(fs: seq<string>, sep: char)
    requires |fs| >= 2
    ensures sep in Join(fs, sep)
  {
    assert Join(fs, sep)[|fs[0]|] == sep;
  }

  // ------------------------------------------------------- decimal digits

  function DigitChar(d: int): (c: char)
    requires 0 <= d < 10
    ensures IsDigit(c)
  {
    ('0' as int + d) as char
  }

  function DigitValue(c: char): int
    requires IsDigit(c)
  {
    c as int - '0' as int
  }

  /** `Long.toString` of a non-negative number: its decimal digits, no leading zero. */
  function NatToString(n: nat): (r: string)
    ensures |r| >= 1 && AllDigits(r)
    decreases n
  {
    if n < 10 then [DigitChar(n)] else NatToString(n / 10) + [DigitChar(n % 10)]
  }

  /** The number a string of decimal digits denotes. */
  function DigitsValue(s: string): nat
    requires AllDigits(s)
    decreases |s|
  {
    if s == [] then 0 else DigitsValue(s[..|s| - 1]) * 10 + DigitValue(s[|s| - 1])
  }

  lemma {:induction false} DigitsOfNat(n: nat)
    ensures DigitsValue(NatToString(n)) == n
    decreases n
  {
    if n >= 10 {
      DigitsOfNat(n / 10);
      var s := NatToString(n);
      assert s[..|s| - 1] == NatToString(n / 10);
    }
  }

  /** `n` written with at least `width` digits, padded with leading zeros (`%0<width>d`). */
  function ZeroPad(n: nat, width: nat): (r: string)
    ensures AllDigits(r)
    ensures |r| == if |NatToString(n)| < width then width else |NatToString(n)|
  {
    var digits := NatToString(n);
    if |digits| < width then seq(width - |digits|, _ => '0') + digits else digits
  }

  /** Leading zeros do not change the value of a digit string. */
  lemma {:induction false} LeadingZeros(k: nat, s: string)
    requires AllDigits(s)
    ensures AllDigits(seq(k, _ => '0') + s)
    ensures DigitsValue(seq(k, _ => '0') + s) == DigitsValue(s)
    decreases |s|
  {
    var z := seq(k, _ => '0') + s;
    if s == [] {
      assert z == seq(k, _ => '0');
      AllZeros(k);
    } else {
      LeadingZeros(k, s[..|s| - 1]);
      assert z[..|z| - 1] == seq(k, _ => '0') + s[..|s| - 1];
    }
  }

  lemma {:induction false} AllZeros(k: nat)
    ensures AllDigits(seq(k, _ => '0'))
    ensures DigitsValue(seq(k, _ => '0')) == 0
    decreases k
  {
    if k > 0 {
      AllZeros(k - 1);
      assert seq(k, _ => '0')[..k - 1] == seq(k - 1, _ => '0');
    }
  }

  /** Zero padding keeps the value. */
  lemma ZeroPadValue(n: nat, width: nat)
    ensures DigitsValue(ZeroPad(n, width)) == n
  {
    DigitsOfNat(n);
    var digits := NatToString(n);
    if |digits| < width {
      LeadingZeros(width - |digits|, digits);
    }
  }

  /** A number below 10^w fits in w digits. */
  lemma {:induction false} NatToStringLength(n: nat, w: nat)
    requires n < Pow10(w)
    ensures |NatToString(n)| <= if w == 0 then 1 else w
    decreases n
  {
    if n >= 10 {
      assert w != 0 && w != 1 by { assert Pow10(0) == 1 && Pow10(1) == 10; }
      NatToStringLength(n / 10, w - 1);
    }
  }

  function Pow10(w: nat): (p: nat)
    ensures p >= 1
  {
    if w == 0 then 1 else 10 * Pow10(w - 1)
  }
}
