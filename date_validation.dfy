/**
 * The date-format check `isDateValid` (validation/date_validation.ts).
 *
 * The source tests its argument against the JavaScript regular expression
 * `/^\d\d-\d\d-\d\d$/`. `IsDateValid` below is that test written out
 * character by character; the lemmas relate it to two independent
 * definitions: an anchored match of the regular expression's atoms, and the
 * MM-DD-YY shape the doc comment promises.
 */
module DateValidation {

  /** `\d` in a JavaScript regular expression without the `u` flag: the ASCII digits only. */
  predicate IsDigit(c: char) {
    '0' <= c <= '9'
  }

  /** isDateValid: eight characters, digits at 0, 1, 3, 4, 6, 7 and '-' at 2 and 5. */
  predicate IsDateValid(date: string) {
    && |date| == 8
    && IsDigit(date[0]) && IsDigit(date[1])
    && date[2] == '-'
    && IsDigit(date[3]) && IsDigit(date[4])
    && date[5] == '-'
    && IsDigit(date[6]) && IsDigit(date[7])
  }

  // ---------------------------------------------------------------------
  // Reference 1: the regular expression as written.

  /** One single-character item of a regular expression: the class `\d` or a literal character. */
  datatype Atom = Digit | Literal(c: char)

  predicate AtomMatches(a: Atom, c: char) {
    match a
    case Digit => IsDigit(c)
    case Literal(l) => c == l
  }

  /** The body of `/^\d\d-\d\d-\d\d$/`, between its anchors. */
  const DatePattern: seq<Atom> :=
    [Digit, Digit, Literal('-'), Digit, Digit, Literal('-'), Digit, Digit]

  /**
   * `/^p$/.test(s)` for a concatenation `p` of atoms and no flags: `^` matches
   * only at the start of `s` and `$` only at its very end (without the `m`
   * flag a trailing line break is not skipped), so the atoms must consume
   * the whole string, one character each.
   */
  predicate AnchoredMatch(p: seq<Atom>, s: string)
    decreases |p|
  {
    if p == [] then s == []
    else s != [] && AtomMatches(p[0], s[0]) && AnchoredMatch(p[1..], s[1..])
  }

  /** An anchored match of atoms, stated position by position. */
  lemma {:induction false} AnchoredMatchPointwise(p: seq<Atom>, s: string)
    ensures AnchoredMatch(p, s) <==>
              |s| == |p| && forall i :: 0 <= i < |s| ==> AtomMatches(p[i], s[i])
    decreases |p|
  {
    if p != [] && s != [] {
      AnchoredMatchPointwise(p[1..], s[1..]);
      if |s| == |p| && forall i :: 0 <= i < |s| ==> AtomMatches(p[i], s[i]) {
        forall i | 0 <= i < |s[1..]| ensures AtomMatches(p[1..][i], s[1..][i]) {
          assert AtomMatches(p[i + 1], s[i + 1]);
        }
      }
      if AnchoredMatch(p, s) {
        forall i | 0 <= i < |s| ensures AtomMatches(p[i], s[i]) {
          if i > 0 {
            assert AtomMatches(p[1..][i - 1], s[1..][i - 1]);
          }
        }
      }
    }
  }

  /** isDateValid is exactly the regular-expression test of line 9, in both directions. */
  lemma DateValidIsRegexTest(date: string)
    ensures IsDateValid(date) <==> AnchoredMatch(DatePattern, date)
  {
    AnchoredMatchPointwise(DatePattern, date);
    if AnchoredMatch(DatePattern, date) {
      assert AtomMatches(DatePattern[0], date[0]);
      assert AtomMatches(DatePattern[1], date[1]);
      assert AtomMatches(DatePattern[2], date[2]);
      assert AtomMatches(DatePattern[3], date[3]);
      assert AtomMatches(DatePattern[4], date[4]);
      assert AtomMatches(DatePattern[5], date[5]);
      assert AtomMatches(DatePattern[6], date[6]);
      assert AtomMatches(DatePattern[7], date[7]);
    }
  }

  // ---------------------------------------------------------------------
  // Reference 2: the promise of the doc comment, MM-DD-YY of 2-digit integers.

  predicate TwoDigits(f: string) {
    |f| == 2 && IsDigit(f[0]) && IsDigit(f[1])
  }

  /** The date is some MM, DD and YY of two digits each, joined by hyphens. */
  ghost predicate IsMmDdYy(date: string) {
    exists mm: string, dd: string, yy: string ::
      TwoDigits(mm) && TwoDigits(dd) && TwoDigits(yy) && date == mm + "-" + dd + "-" + yy
  }

  /** isDateValid accepts exactly the MM-DD-YY strings: sound and complete. */
  lemma DateValidIsMmDdYy(date: string)
    ensures IsDateValid(date) <==> IsMmDdYy(date)
  {
    if IsDateValid(date) {
      var mm, dd, yy := date[..2], date[3..5], date[6..];
      assert date == mm + "-" + dd + "-" + yy;
      assert TwoDigits(mm) && TwoDigits(dd) && TwoDigits(yy);
    }
    if IsMmDdYy(date) {
      var mm: string, dd: string, yy: string :|
        TwoDigits(mm) && TwoDigits(dd) && TwoDigits(yy) && date == mm + "-" + dd + "-" + yy;
      assert date[0] == mm[0] && date[1] == mm[1] && date[2] == '-';
      assert date[3] == dd[0] && date[4] == dd[1] && date[5] == '-';
      assert date[6] == yy[0] && date[7] == yy[1];
    }
  }

  // ---------------------------------------------------------------------
  // Consequences.

  /** What an accepted date looks like: its length, its separators and its digits. */
  lemma DateValidShape(date: string)
    requires IsDateValid(date)
    ensures |date| == 8
    ensures date[2] == '-' && date[5] == '-'
    ensures forall i :: 0 <= i < 8 && i != 2 && i != 5 ==> IsDigit(date[i])
  {
  }

  /** There is no range check: months, days and years beyond the calendar are accepted. */
  lemma NoCalendarCheck()
    ensures IsDateValid("99-99-99")
    ensures IsDateValid("00-00-00")
    ensures IsDateValid("13-32-00")
  {
  }

  /** The example of the doc comment is accepted; other date spellings are not. */
  lemma DateExamples()
    ensures IsDateValid("04-05-23")
    ensures !IsDateValid("4-5-23")
    ensures !IsDateValid("2023-04-05")
    ensures !IsDateValid("04/05/23")
    ensures !IsDateValid("04-05-23\n")
    ensures !IsDateValid(" 04-05-23")
    ensures !IsDateValid("")
  {
  }
}
