/** Which counter a severity goes to, told letter by letter and without the functions that compute it. */
module Severities {
  import opened Reports

  const SMALL := "abcdefghijklmnopqrstuvwxyz"
  const CAPITAL := "ABCDEFGHIJKLMNOPQRSTUVWXYZ"

  /** The two characters are the same, or the small and the capital form of one letter. */
  predicate SameLetter(a: char, b: char) {
    || a == b
    || exists i :: 0 <= i < 26 && ((a == SMALL[i] && b == CAPITAL[i]) || (a == CAPITAL[i] && b == SMALL[i]))
  }

  /** The two strings differ in the case of their letters at most. */
  predicate SameButCase(a: string, b: string) {
    |a| == |b| && forall i | 0 <= i < |a| :: SameLetter(a[i], b[i])
  }

  lemma Alphabet(i: int)
    requires 0 <= i < 26
    ensures SMALL[i] as int == 97 + i && CAPITAL[i] as int == 65 + i
  {
  }

  /** Where a small letter stands in the alphabet. */
  lemma PlaceOf(c: char) returns (i: int)
    requires 'a' <= c <= 'z'
    ensures 0 <= i < 26 && c == SMALL[i] && UpperChar(c) == CAPITAL[i]
  {
    i := c as int - 97;
    Alphabet(i);
  }

  lemma SmallIsBetween(c: char)
    ensures c in SMALL <==> 'a' <= c <= 'z'
  {
    if 'a' <= c <= 'z' {
      var i := PlaceOf(c);
    }
    if c in SMALL {
      var i :| 0 <= i < 26 && SMALL[i] == c;
      Alphabet(i);
    }
  }

  lemma UpperIsSameLetter(c: char)
    ensures SameLetter(c, UpperChar(c)) && UpperChar(c) !in SMALL
  {
    SmallIsBetween(UpperChar(c));
    if 'a' <= c <= 'z' {
      var i := PlaceOf(c);
    }
  }

  lemma UpperIgnoresCase(a: char, b: char)
    ensures SameLetter(a, b) <==> UpperChar(a) == UpperChar(b)
  {
    if SameLetter(a, b) && a != b {
      var i :| 0 <= i < 26 && ((a == SMALL[i] && b == CAPITAL[i]) || (a == CAPITAL[i] && b == SMALL[i]));
      Alphabet(i);
    }
    if UpperChar(a) == UpperChar(b) && a != b {
      if 'a' <= a <= 'z' {
        var i := PlaceOf(a);
      } else {
        var i := PlaceOf(b);
      }
    }
  }

  /** The capitals of a string differ from it in case only, and have no small letter. */
  lemma CapitalsOf(s: string)
    ensures SameButCase(s, ToUpper(s)) && forall c | c in ToUpper(s) :: c !in SMALL
  {
    forall i | 0 <= i < |s|
      ensures SameLetter(s[i], ToUpper(s)[i]) && ToUpper(s)[i] !in SMALL
    {
      UpperIsSameLetter(s[i]);
    }
  }

  lemma CapitalsIgnoreCase(a: string, b: string)
    ensures SameButCase(a, b) <==> ToUpper(a) == ToUpper(b)
  {
    if |a| == |b| {
      forall i | 0 <= i < |a|
        ensures SameLetter(a[i], b[i]) <==> ToUpper(a)[i] == ToUpper(b)[i]
      {
        UpperIgnoresCase(a[i], b[i]);
      }
    }
  }

  lemma NamesAreCapitals(name: string)
    requires name in KUBESCAPE_SEVERITIES
    ensures ToUpper(name) == name
  {
    forall i | 0 <= i < |name|
      ensures !('a' <= name[i] <= 'z')
    {
    }
  }

  /** A severity goes to the counter whose name it spells in whatever case, and to UNKNOWN if it spells none. */
  lemma CounterOfSeverity(severity: string, name: string)
    requires name in KUBESCAPE_SEVERITIES
    ensures name != "UNKNOWN" ==> (Normalise(severity) == name <==> SameButCase(severity, name))
    ensures Normalise(severity) == "UNKNOWN" <==>
              forall other | other in KUBESCAPE_SEVERITIES && other != "UNKNOWN" :: !SameButCase(severity, other)
  {
    NamesAreCapitals(name);
    CapitalsIgnoreCase(severity, name);
    forall other | other in KUBESCAPE_SEVERITIES
      ensures SameButCase(severity, other) <==> ToUpper(severity) == other
    {
      NamesAreCapitals(other);
      CapitalsIgnoreCase(severity, other);
    }
  }

  /** Each of the six names is its own counter, in capitals or not. */
  lemma NamesCountThemselves(name: string, severity: string)
    requires name in KUBESCAPE_SEVERITIES && SameButCase(severity, name)
    ensures Normalise(severity) == name && Normalise(name) == name
  {
    NamesAreCapitals(name);
    CapitalsIgnoreCase(severity, name);
  }

  /** Two severities that differ in case only go to the same counter and are shown alike. */
  lemma CaseDoesNotCount(a: string, b: string)
    requires SameButCase(a, b)
    ensures Normalise(a) == Normalise(b) && ToUpper(a) == ToUpper(b)
  {
    CapitalsIgnoreCase(a, b);
  }

  /** The matches that spell a severity, in whatever case. */
  function Spelling(matches: seq<Match>, name: string): seq<Match> {
    if matches == [] then []
    else Spelling(matches[..|matches| - 1], name)
         + (if SameButCase(matches[|matches| - 1].severity, name) then [matches[|matches| - 1]] else [])
  }

  /** A counter other than UNKNOWN holds the number of matches that spell its name. */
  lemma {:induction false} CountIsOfSpellings(matches: seq<Match>, name: string)
    requires name in KUBESCAPE_SEVERITIES && name != "UNKNOWN"
    ensures CountOf(matches, name) == |Spelling(matches, name)|
  {
    if matches != [] {
      CountIsOfSpellings(matches[..|matches| - 1], name);
      CounterOfSeverity(matches[|matches| - 1].severity, name);
    }
  }
}
