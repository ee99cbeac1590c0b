/**
 * The input rules of the console view (view/ParkingView.java): how a typed plate
 * is normalised, which plates each vehicle type accepts, and the shape of the
 * identifier a bicycle is given. The regular expressions of `validateLicensePlate`
 * are stated twice: as the set of strings they describe (`BikeShape`, `CarShape`)
 * and as a left-to-right matcher over runs of one character class, proved to agree.
 */
module View {
  import opened Wrappers
  import opened JavaStrings
  import opened Vehicles
  import opened Repository

  /** `normalizeInput`: null becomes ""; otherwise trimmed, upper-cased, and stripped
      of every whitespace character. It is the store's plate normalisation, so its
      result holds no blank and no lower-case letter and normalises to itself. */
  function NormalizeInput(input: Option<string>): (r: string)
    ensures r == NormalizePlate(input)
    ensures input.None? ==> r == ""
    ensures forall i :: 0 <= i < |r| ==> !IsSpace(r[i]) && !IsLower(r[i])
    ensures IsTrimmed(r)
    ensures NormalizePlate(Some(r)) == r
  {
    NormalizedShape(input);
    NormalizeIdempotent(input);
    if input.Some? then NormalizedIsTrimmed(input.value); RemoveSpaces(ToUpperCase(Trim(input.value)))
    else ""
  }

  // ------------------------------------------------------ character classes

  /** The classes the two patterns use: `[0-9]` (also `\d`), `[A-Z]`, `[A-Z0-9]`. */
  datatype CharClass = Digit | Upper | UpperOrDigit

  predicate InClass(c: char, k: CharClass)
  {
    match k
    case Digit => IsDigit(c)
    case Upper => IsUpper(c)
    case UpperOrDigit => IsUpper(c) || IsDigit(c)
  }

  predicate AllIn(s: string, k: CharClass)
  {
    forall i :: 0 <= i < |s| ==> InClass(s[i], k)
  }

  /** The length of the longest prefix of `s` whose chars are all in class `k`. */
  function Run(s: string, k: CharClass): (n: nat)
    ensures n <= |s| && AllIn(s[..n], k)
    ensures n < |s| ==> !InClass(s[n], k)
    decreases |s|
  {
    if s == [] || !InClass(s[0], k) then 0
    else
      var n := 1 + Run(s[1..], k);
      assert s[..n] == [s[0]] + s[1..][..n - 1];
      n
  }

  /** A prefix of chars in `k` followed by the end or a char outside `k` is the run. */
  lemma RunIs(s: string, k: CharClass, n: nat)
    requires n <= |s| && AllIn(s[..n], k)
    requires n < |s| ==> !InClass(s[n], k)
    ensures Run(s, k) == n
  {
  }

  /** The run found in a suffix, read back in the whole string. */
  lemma RunOfSuffix(s: string, lo: nat, n: nat, k: CharClass)
    requires lo <= |s| && n == Run(s[lo..], k)
    ensures lo + n <= |s| && AllIn(s[lo..lo + n], k)
  {
    assert s[lo..][..n] == s[lo..lo + n];
  }

  /** A string made of the class's chars is a run of its full length. */
  lemma WholeRun(s: string, k: CharClass)
    requires AllIn(s, k)
    ensures Run(s, k) == |s|
  {
    assert s[..|s|] == s;
    RunIs(s, k, |s|);
  }

  // ---------------------------------------------------------- motorbikes

  /** `[A-Z0-9]{3,4}-[0-9]{4,5}`, matched against the whole string: the prefix before
      the dash at index `n`. */
  predicate BikeWith(s: string, n: nat)
  {
    n < |s| && s[n] == '-' && AllIn(s[..n], UpperOrDigit) &&
    AllIn(s[n + 1..], Digit) && 4 <= |s| - n - 1 <= 5
  }

  ghost predicate BikeShape(s: string)
  {
    exists n: nat :: 3 <= n <= 4 && BikeWith(s, n)
  }

  /** The matcher: the longest upper-case-or-digit prefix, a dash, then digits to the end. */
  function MatchesBikePattern(s: string): bool
  {
    var n := Run(s, UpperOrDigit);
    3 <= n <= 4 && n < |s| && s[n] == '-' &&
    Run(s[n + 1..], Digit) == |s| - n - 1 && 4 <= |s| - n - 1 <= 5
  }

  lemma BikeMatcherCorrect(s: string)
    ensures MatchesBikePattern(s) <==> BikeShape(s)
  {
    var n := Run(s, UpperOrDigit);
    if MatchesBikePattern(s) {
      var t := s[n + 1..];
      assert t[..Run(t, Digit)] == t;
      assert BikeWith(s, n);
    }
    if BikeShape(s) {
      var m: nat :| 3 <= m <= 4 && BikeWith(s, m);
      RunIs(s, UpperOrDigit, m);
      WholeRun(s[m + 1..], Digit);
    }
  }

  /** Every string of the pattern is 8 to 10 chars long, so of the length check that
      follows only its lower bound ever rejects: it turns away exactly the 8-char
      strings, three chars, a dash and four digits. */
  lemma BikeShapeLength(s: string)
    requires BikeShape(s)
    ensures 8 <= |s| <= 10
    ensures |s| == 8 <==> BikeWith(s, 3) && |s| - 4 == 4
  {
  }

  // ---------------------------------------------------------------- cars

  /** The optional `(\.\d{1,2})` at the end. */
  predicate DecimalTail(t: string)
  {
    t == [] || (t[0] == '.' && 1 <= |t| - 1 <= 2 && AllIn(t[1..], Digit))
  }

  /** `\d{2}[A-Z]{1,2}-\d{1,5}(\.\d{1,2})?`, matched against the whole string, with
      `n` letters and `m` digits after the dash. */
  predicate CarWith(s: string, n: nat, m: nat)
  {
    3 + n + m <= |s| && AllIn(s[..2], Digit) && AllIn(s[2..2 + n], Upper) && s[2 + n] == '-' &&
    AllIn(s[3 + n..3 + n + m], Digit) && DecimalTail(s[3 + n + m..])
  }

  ghost predicate CarShape(s: string)
  {
    exists n: nat, m: nat :: 1 <= n <= 2 && 1 <= m <= 5 && CarWith(s, n, m)
  }

  /** The matcher: two digits, the run of letters, a dash, the run of digits, then the
      optional decimal tail. Taking the longest runs loses nothing, since a dash must
      follow the letters and a dot or the end must follow the digits. */
  function MatchesCarPattern(s: string): bool
  {
    |s| >= 2 && AllIn(s[..2], Digit) &&
    var n := Run(s[2..], Upper);
    1 <= n <= 2 && 2 + n < |s| && s[2 + n] == '-' &&
    var m := Run(s[3 + n..], Digit);
    1 <= m <= 5 && DecimalTail(s[3 + n + m..])
  }

  lemma CarMatcherCorrect(s: string)
    ensures MatchesCarPattern(s) <==> CarShape(s)
  {
    if MatchesCarPattern(s) {
      CarMatchIsShape(s);
    }
    if CarShape(s) {
      CarShapeMatches(s);
    }
  }

  /** What has the car shape is accepted by the matcher. */
  lemma CarShapeMatches(s: string)
    requires CarShape(s)
    ensures MatchesCarPattern(s)
  {
    var n: nat, m: nat :| 1 <= n <= 2 && 1 <= m <= 5 && CarWith(s, n, m);
    CarRuns(s, n, m);
  }

  /** What the matcher accepts has the car shape, with the runs it found. */
  lemma CarMatchIsShape(s: string)
    requires MatchesCarPattern(s)
    ensures CarShape(s)
  {
    var n := Run(s[2..], Upper);
    var m := Run(s[3 + n..], Digit);
    RunOfSuffix(s, 2, n, Upper);
    RunOfSuffix(s, 3 + n, m, Digit);
    assert CarWith(s, n, m);
  }

  /** The letters and the digits of a car plate are the longest runs at their places. */
  lemma CarRuns(s: string, n: nat, m: nat)
    requires CarWith(s, n, m)
    ensures Run(s[2..], Upper) == n && Run(s[3 + n..], Digit) == m
  {
    assert s[2..][..n] == s[2..2 + n];
    RunIs(s[2..], Upper, n);
    var t := s[3 + n..];
    assert t[..m] == s[3 + n..3 + n + m];
    assert m < |t| ==> t[m] == s[3 + n + m..][0];
    RunIs(t, Digit, m);
  }

  // ---------------------------------------------------------- validation

  /** `validateLicensePlate`: a motorbike plate must match its pattern and be 9 or 10
      chars long; a car plate must match its pattern; any other type is refused. */
  function ValidateLicensePlate(plate: string, vtype: VehicleType): (ok: bool)
    ensures vtype == BIKE ==> (ok <==> BikeShape(plate) && 9 <= |plate| <= 10)
    ensures vtype == CAR ==> (ok <==> CarShape(plate))
    ensures vtype == BICYCLE ==> !ok
  {
    BikeMatcherCorrect(plate);
    CarMatcherCorrect(plate);
    if vtype == BIKE then
      MatchesBikePattern(plate) && !(|plate| < 9 || |plate| > 10)
    else if vtype == CAR then
      MatchesCarPattern(plate)
    else
      false
  }

  /** A string of the motorbike pattern with 9 or 10 chars is accepted. */
  lemma BikeAccepted(s: string, n: nat)
    requires 3 <= n <= 4 && BikeWith(s, n) && 9 <= |s| <= 10
    ensures ValidateLicensePlate(s, BIKE)
  {
  }

  /** A string of the car pattern is accepted. */
  lemma CarAccepted(s: string, n: nat, m: nat)
    requires 1 <= n <= 2 && 1 <= m <= 5 && CarWith(s, n, m)
    ensures ValidateLicensePlate(s, CAR)
  {
  }

  /** The motorbike plates the comments of `validateLicensePlate` give as examples
      are accepted. */
  lemma BikeExamplesAccepted(s: string)
    requires s == "29S6-62360" || s == "26S-62353" || s == "29H1-1234"
    ensures ValidateLicensePlate(s, BIKE)
  {
    var n := if s == "26S-62353" then 3 else 4;
    assert BikeWith(s, n);
    BikeAccepted(s, n);
  }

  /** A plate the motorbike pattern alone would take is refused for its length. */
  lemma ShortBikeRefused()
    ensures BikeShape("26S-6235") && !ValidateLicensePlate("26S-6235", BIKE)
  {
    assert BikeWith("26S-6235", 3);
  }

  /** The car plates the comments give as examples are accepted. */
  lemma CarExamplesAccepted(s: string)
    requires s == "30A-123.45" || s == "30A-12345"
    ensures ValidateLicensePlate(s, CAR)
  {
    var m := if s == "30A-123.45" then 3 else 5;
    assert CarWith(s, 1, m);
    CarAccepted(s, 1, m);
  }

  /** A car plate without the dash is refused. */
  lemma UndashedCarRefused()
    ensures !ValidateLicensePlate("30A12345", CAR)
  {
    assert "30A12345"[3] != '-' && "30A12345"[4] != '-';
  }

  /** The chars of a string made of one class contain no dash. */
  lemma NoDashIn(s: string, k: CharClass)
    requires AllIn(s, k)
    ensures multiset(s)['-'] == 0
  {
  }

  /** Every accepted plate holds exactly one dash, the separator both patterns require. */
  lemma AcceptedPlateHasOneDash(plate: string, vtype: VehicleType)
    requires ValidateLicensePlate(plate, vtype)
    ensures multiset(plate)['-'] == 1
  {
    if vtype == BIKE {
      var n: nat :| 3 <= n <= 4 && BikeWith(plate, n);
      BikeDashes(plate, n);
    } else {
      var n: nat, m: nat :| 1 <= n <= 2 && 1 <= m <= 5 && CarWith(plate, n, m);
      CarDashes(plate, n, m);
    }
  }

  lemma BikeDashes(plate: string, n: nat)
    requires BikeWith(plate, n)
    ensures multiset(plate)['-'] == 1
  {
    assert plate == plate[..n] + [plate[n]] + plate[n + 1..];
    NoDashIn(plate[..n], UpperOrDigit);
    NoDashIn(plate[n + 1..], Digit);
  }

  lemma CarDashes(plate: string, n: nat, m: nat)
    requires CarWith(plate, n, m)
    ensures multiset(plate)['-'] == 1
  {
    var tail := plate[3 + n + m..];
    assert plate == plate[..2] + plate[2..2 + n] + [plate[2 + n]] + plate[3 + n..3 + n + m] + tail;
    NoDashIn(plate[..2], Digit);
    NoDashIn(plate[2..2 + n], Upper);
    NoDashIn(plate[3 + n..3 + n + m], Digit);
    if tail != [] {
      assert tail == [tail[0]] + tail[1..];
      NoDashIn(tail[1..], Digit);
    }
  }

  /** Only capital letters, digits, dashes and dots. */
  predicate PlainChars(s: string)
  {
    forall i :: 0 <= i < |s| ==> IsUpper(s[i]) || IsDigit(s[i]) || s[i] == '-' || s[i] == '.'
  }

  /** A string of letters, digits, dashes and dots normalises to itself. */
  lemma PlainPlateIsNormal(s: string)
    requires PlainChars(s)
    ensures NormalizePlate(Some(s)) == s
  {
    TrimOfTrimmed(s);
    assert ToUpperCase(s) == s;
    RemoveSpacesOfSpaceless(s);
  }

  lemma BikePlateChars(plate: string, n: nat)
    requires BikeWith(plate, n)
    ensures PlainChars(plate)
  {
    forall i | 0 <= i < |plate|
      ensures IsUpper(plate[i]) || IsDigit(plate[i]) || plate[i] == '-'
    {
      if i < n {
        assert plate[..n][i] == plate[i];
      } else if i > n {
        assert plate[n + 1..][i - n - 1] == plate[i];
      }
    }
  }

  lemma CarPlateChars(plate: string, n: nat, m: nat)
    requires CarWith(plate, n, m)
    ensures PlainChars(plate)
  {
    forall i | 0 <= i < |plate|
      ensures IsUpper(plate[i]) || IsDigit(plate[i]) || plate[i] == '-' || plate[i] == '.'
    {
      if i < 2 {
        assert plate[..2][i] == plate[i];
      } else if i < 2 + n {
        assert plate[2..2 + n][i - 2] == plate[i];
      } else if 2 + n < i < 3 + n + m {
        assert plate[3 + n..3 + n + m][i - 3 - n] == plate[i];
      } else if 3 + n + m < i {
        assert plate[3 + n + m..][1..][i - 4 - n - m] == plate[i];
      }
    }
  }

  /** An accepted plate is its own normal form: the store keys it as typed. */
  lemma AcceptedPlateIsNormal(plate: string, vtype: VehicleType)
    requires ValidateLicensePlate(plate, vtype)
    ensures NormalizePlate(Some(plate)) == plate
  {
    if vtype == BIKE {
      var n: nat :| 3 <= n <= 4 && BikeWith(plate, n);
      BikePlateChars(plate, n);
    } else {
      var n: nat, m: nat :| 1 <= n <= 2 && 1 <= m <= 5 && CarWith(plate, n, m);
      CarPlateChars(plate, n, m);
    }
    PlainPlateIsNormal(plate);
  }

  // ------------------------------------------------------------ bicycles

  /** `generateBicyclePlate`, given the draw `n` of `Random.nextInt(99999)`:
      "BIKE-" and `n` in five digits. */
  function GenerateBicyclePlate(n: int): (plate: string)
    requires 0 <= n < 99999
    ensures |plate| == 10 && plate[..5] == "BIKE-"
    ensures AllDigits(plate[5..]) && DigitsValue(plate[5..]) == n
  {
    assert Pow10(5) == 100000;
    NatToStringLength(n, 5);
    ZeroPadValue(n, 5);
    var plate := "BIKE-" + ZeroPad(n, 5);
    assert plate[5..] == ZeroPad(n, 5);
    plate
  }

  /** Different draws give different identifiers. */
  lemma BicyclePlatesDiffer(n1: int, n2: int)
    requires 0 <= n1 < 99999 && 0 <= n2 < 99999
    requires n1 != n2
    ensures GenerateBicyclePlate(n1) != GenerateBicyclePlate(n2)
  {
  }

  lemma BicyclePlateIsBikeWith(p: string)
    requires |p| == 10 && p[..5] == "BIKE-" && AllDigits(p[5..])
    ensures BikeWith(p, 4)
  {
    assert p[..4] == "BIKE" && p[4] == '-';
    assert AllIn(p[..4], UpperOrDigit);
  }

  /** A bicycle identifier is shaped like a motorbike plate, "BIKE", a dash and five
      digits, and is its own normal form. */
  lemma BicyclePlateShape(n: int)
    requires 0 <= n < 99999
    ensures ValidateLicensePlate(GenerateBicyclePlate(n), BIKE)
    ensures NormalizePlate(Some(GenerateBicyclePlate(n))) == GenerateBicyclePlate(n)
  {
    var p := GenerateBicyclePlate(n);
    BicyclePlateIsBikeWith(p);
    BikeAccepted(p, 4);
    AcceptedPlateIsNormal(p, BIKE);
  }
}
