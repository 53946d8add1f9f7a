/** The shape check applied to the `date` query parameter: the regular
    expression `^\d{4}-\d{2}-\d{2}$`, tested with JavaScript semantics
    (`\d` is an ASCII digit, `^` and `$` anchor the whole input), guarded
    by JavaScript truthiness (`!date` rejects a missing or empty value). */
module DateShape {
  import opened Wrappers

  /** One position of a regular expression without alternation or
      variable repetition. */
  datatype Atom = AnyDigit | Literal(c: char)

  predicate IsDigit(c: char) {
    '0' <= c <= '9'
  }

  predicate AtomMatches(a: Atom, c: char) {
    match a
    case AnyDigit => IsDigit(c)
    case Literal(l) => c == l
  }

  /** `a{n}` — the atom repeated n times. */
  function Repeat(a: Atom, n: nat): (p: seq<Atom>)
    ensures |p| == n
    ensures forall i :: 0 <= i < n ==> p[i] == a
  {
    if n == 0 then [] else [a] + Repeat(a, n - 1)
  }

  /** `\d{4}-\d{2}-\d{2}` */
  function DatePattern(): (p: seq<Atom>)
    ensures |p| == 10
  {
    Repeat(AnyDigit, 4) + [Literal('-')] + Repeat(AnyDigit, 2) + [Literal('-')] + Repeat(AnyDigit, 2)
  }

  /** An anchored match (`^p$`): the pattern consumes the whole string. */
  predicate FullMatch(p: seq<Atom>, s: string)
    decreases |p|
  {
    if p == [] then s == []
    else s != [] && AtomMatches(p[0], s[0]) && FullMatch(p[1..], s[1..])
  }

  /** The regular expression test of the handler. */
  predicate MatchesDateRegex(s: string) {
    FullMatch(DatePattern(), s)
  }

  /** The reference reading of the shape: ten characters, digits except
      for a dash at positions 4 and 7. */
  predicate HasDateShape(s: string) {
    && |s| == 10
    && s[4] == '-' && s[7] == '-'
    && forall i :: 0 <= i < 10 && i != 4 && i != 7 ==> IsDigit(s[i])
  }

  /** `!date || !regex.test(date)` negated: the parameter is present,
      non-empty and matches the expression. */
  predicate IsValidDateParam(date: Option<string>) {
    date.Some? && date.value != "" && MatchesDateRegex(date.value)
  }

  /** The anchored matcher accepts exactly the strings of the pattern's
      length whose every character matches the atom at its position. */
  lemma {:induction false} FullMatchPointwise(p: seq<Atom>, s: string)
    ensures FullMatch(p, s) <==> |p| == |s| && forall i :: 0 <= i < |p| ==> AtomMatches(p[i], s[i])
    decreases |p|
  {
    if p != [] && s != [] {
      FullMatchPointwise(p[1..], s[1..]);
      if |p| == |s| && forall i :: 0 <= i < |p| ==> AtomMatches(p[i], s[i]) {
        forall i | 0 <= i < |p| - 1 ensures AtomMatches(p[1..][i], s[1..][i]) {
          assert AtomMatches(p[i + 1], s[i + 1]);
        }
      }
      if FullMatch(p, s) {
        forall i | 0 <= i < |p| ensures AtomMatches(p[i], s[i]) {
          if i > 0 {
            assert AtomMatches(p[1..][i - 1], s[1..][i - 1]);
          }
        }
      }
    }
  }

  /** The regular expression accepts exactly the strings of date shape. */
  lemma RegexIsDateShape(s: string)
    ensures MatchesDateRegex(s) <==> HasDateShape(s)
  {
    var p := DatePattern();
    FullMatchPointwise(p, s);
    assert forall i :: 0 <= i < 10 ==>
      p[i] == (if i == 4 || i == 7 then Literal('-') else AnyDigit);
  }

  /** The handler proceeds exactly when the value is present and of date
      shape; the empty string is covered by the shape's length. */
  lemma ValidDateParamIsShape(date: Option<string>)
    ensures IsValidDateParam(date) <==> date.Some? && HasDateShape(date.value)
  {
    if date.Some? {
      RegexIsDateShape(date.value);
    }
  }

  /** The check is about shape only: a month and a day outside the
      calendar pass. */
  lemma CalendarInvalidDatePasses()
    ensures IsValidDateParam(Some("2024-13-40"))
  {
    var s := "2024-13-40";
    ValidDateParamIsShape(Some(s));
    assert forall i :: 0 <= i < 10 && i != 4 && i != 7 ==> IsDigit(s[i]);
  }

  /** Words, the empty string, a trailing newline and a one-digit month
      are turned away. */
  lemma MalformedDatesRejected()
    ensures !IsValidDateParam(Some("not-a-date"))
    ensures !IsValidDateParam(Some(""))
    ensures !IsValidDateParam(Some("2024-01-15\n"))
    ensures !IsValidDateParam(Some("2024-1-15"))
    ensures !IsValidDateParam(None)
  {
    ValidDateParamIsShape(Some("not-a-date"));
    assert "not-a-date"[4] == 'a';
    ValidDateParamIsShape(Some("2024-01-15\n"));
    assert |"2024-01-15\n"| == 11;
    ValidDateParamIsShape(Some("2024-1-15"));
    assert |"2024-1-15"| == 9;
  }
}
