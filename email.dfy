/**
  The e-mail syntax check shared by the registration and contact forms:
  the regular expression  ^[^\s@]+@[^\s@]+\.[^\s@]+$  tested against the
  field's value.

  `MatchesEmailPattern` is the language of that expression, read literally:
  the string splits as A + "@" + B + "." + C with three non-empty runs of
  characters that are neither white space nor '@'.  `EmailRegexTest` is a
  direct test (locate the only '@', then look for a dot inside the domain),
  proved to accept exactly that language.
*/
module Email {

  /** The characters the class \s matches in an ECMAScript regular expression
      (WhiteSpace and LineTerminator), by code point. */
  predicate IsRegexSpace(c: char) {
    var n := c as int;
    (0x09 <= n <= 0x0D) || n == 0x20 || n == 0xA0 || n == 0x1680
    || (0x2000 <= n <= 0x200A) || n == 0x2028 || n == 0x2029
    || n == 0x202F || n == 0x205F || n == 0x3000 || n == 0xFEFF
  }

  /** One character of the class [^\s@]. */
  predicate IsAtomChar(c: char) {
    !IsRegexSpace(c) && c != '@'
  }

  /** Every character of `s` is in [^\s@]. */
  predicate AllAtom(s: string) {
    forall k :: 0 <= k < |s| ==> IsAtomChar(s[k])
  }

  /** `s` is matched by [^\s@]+ . */
  predicate IsAtomRun(s: string) {
    |s| > 0 && AllAtom(s)
  }

  /** `s` is A + "@" + B + "." + C for these three runs of [^\s@]+ . */
  predicate SplitsAs(s: string, a: string, b: string, c: string) {
    IsAtomRun(a) && IsAtomRun(b) && IsAtomRun(c) && s == a + "@" + b + "." + c
  }

  /** The language of ^[^\s@]+@[^\s@]+\.[^\s@]+$ . */
  ghost predicate MatchesEmailPattern(s: string) {
    exists a, b, c :: SplitsAs(s, a, b, c)
  }

  /** The index of the first '@' in `s`, or |s| when there is none. */
  function IndexOfAt(s: string): (i: nat)
    ensures i <= |s|
    ensures i < |s| ==> s[i] == '@'
    ensures forall k :: 0 <= k < i ==> s[k] != '@'
  {
    if s == [] then 0
    else if s[0] == '@' then 0
    else 1 + IndexOfAt(s[1..])
  }

  /** The domain part has a '.' that is neither its first nor its last character. */
  predicate HasInnerDot(d: string) {
    exists k :: 0 < k < |d| - 1 && d[k] == '.'
  }

  /** emailRegex.test(s) at script.js:405-406 and script.js:528-529. */
  function EmailRegexTest(s: string): (ok: bool)
    ensures ok <==> MatchesEmailPattern(s)
  {
    var i := IndexOfAt(s);
    var ok := 0 < i < |s| && AllAtom(s[..i]) && AllAtom(s[i + 1..]) && HasInnerDot(s[i + 1..]);
    if ok then TestSound(s, i); true
    else TestComplete(s, i); false
  }

  /** A string the test accepts splits as the pattern demands. */
  lemma TestSound(s: string, i: nat)
    requires 0 < i < |s| && s[i] == '@'
    requires AllAtom(s[..i]) && AllAtom(s[i + 1..]) && HasInnerDot(s[i + 1..])
    ensures MatchesEmailPattern(s)
  {
    var d := s[i + 1..];
    var k :| 0 < k < |d| - 1 && d[k] == '.';
    var a, b, c := s[..i], d[..k], d[k + 1..];
    assert IsAtomRun(a);
    assert IsAtomRun(b) by { assert forall j :: 0 <= j < |b| ==> b[j] == d[j]; }
    assert IsAtomRun(c) by { assert forall j :: 0 <= j < |c| ==> c[j] == d[k + 1 + j]; }
    assert d == b + "." + c;
    assert s == a + "@" + d;
    assert SplitsAs(s, a, b, c);
  }

  /** A string that splits as the pattern demands passes the test at its first '@'. */
  lemma TestComplete(s: string, i: nat)
    requires i == IndexOfAt(s)
    ensures MatchesEmailPattern(s) ==>
      0 < i < |s| && AllAtom(s[..i]) && AllAtom(s[i + 1..]) && HasInnerDot(s[i + 1..])
  {
    if MatchesEmailPattern(s) {
      var a, b, c :| SplitsAs(s, a, b, c);
      var d := b + "." + c;
      Regroup(s, a, b, c);
      SplitAtFirstAt(s, a, d);
      DomainOfSplit(b, c);
    }
  }

  /** The split A + "@" + B + "." + C read as A + "@" + (the domain part). */
  lemma Regroup(s: string, a: string, b: string, c: string)
    requires SplitsAs(s, a, b, c)
    ensures s == a + "@" + (b + "." + c)
  {
    assert a + "@" + b + "." + c == a + "@" + (b + "." + c);
  }

  /** When `s` is a + "@" + d with no '@' in `a`, its first '@' is at |a|. */
  lemma SplitAtFirstAt(s: string, a: string, d: string)
    requires s == a + "@" + d && IsAtomRun(a)
    ensures IndexOfAt(s) == |a| && s[..|a|] == a && s[|a| + 1..] == d
  {
    assert s[|a|] == '@';
    assert forall k :: 0 <= k < |a| ==> s[k] == a[k];
  }

  /** The domain part B + "." + C is a run of [^\s@] with an inner dot. */
  lemma DomainOfSplit(b: string, c: string)
    requires IsAtomRun(b) && IsAtomRun(c)
    ensures AllAtom(b + "." + c) && HasInnerDot(b + "." + c)
  {
    var d := b + "." + c;
    assert d[|b|] == '.';
    forall k | 0 <= k < |d| ensures IsAtomChar(d[k]) {
      if k < |b| { assert d[k] == b[k]; }
      else if k > |b| { assert d[k] == c[k - |b| - 1]; }
    }
  }

  /** Typical inputs: "a@b.co" passes, "foo@bar" (no dot after the '@') and
      "foo.com" (no '@') fail. */
  lemma SpecifiedExamples()
    ensures MatchesEmailPattern("a@b.co")
    ensures !MatchesEmailPattern("foo@bar")
    ensures !MatchesEmailPattern("foo.com")
  {
    assert SplitsAs("a@b.co", "a", "b", "co");
    NoInnerDot("foo@bar", 3);
    NoAt("foo.com");
  }

  /** Edge cases of the class [^\s@]: a second '@' or any white space fails,
      while the domain part may itself begin with or hold further dots. */
  lemma EdgeExamples()
    ensures !MatchesEmailPattern("a@@b.co")
    ensures !MatchesEmailPattern("a b@c.de")
    ensures MatchesEmailPattern("a@.b.c")
    ensures MatchesEmailPattern("a@b..")
  {
    TestComplete("a@@b.co", 1);
    assert "a@@b.co"[2..][0] == '@';
    TestComplete("a b@c.de", 3);
    assert "a b@c.de"[..3][1] == ' ';
    assert SplitsAs("a@.b.c", "a", ".b", "c");
    assert SplitsAs("a@b..", "a", "b", ".");
  }

  /** A string whose first '@' is at `i` and whose domain part has no inner dot fails. */
  lemma NoInnerDot(s: string, i: nat)
    requires i == IndexOfAt(s) && i < |s|
    requires forall k :: i + 1 < k < |s| - 1 ==> s[k] != '.'
    ensures !MatchesEmailPattern(s)
  {
    TestComplete(s, i);
  }

  /** A string without '@' fails. */
  lemma NoAt(s: string)
    requires forall k :: 0 <= k < |s| ==> s[k] != '@'
    ensures !MatchesEmailPattern(s)
  {
    TestComplete(s, IndexOfAt(s));
  }

  /** What the pattern means character by character: exactly one '@', not
      first; no white space; and after the '@' a dot with at least one
      character on each side of it. */
  lemma PatternCharacterisation(s: string)
    ensures MatchesEmailPattern(s) <==>
      (exists i :: 0 < i < |s| && s[i] == '@'
         && (forall k :: 0 <= k < |s| && k != i ==> IsAtomChar(s[k]))
         && (exists j :: i + 1 < j < |s| - 1 && s[j] == '.'))
  {
    var i := IndexOfAt(s);
    if MatchesEmailPattern(s) {
      TestComplete(s, i);
      var d := s[i + 1..];
      var k :| 0 < k < |d| - 1 && d[k] == '.';
      assert s[i + 1 + k] == '.';
      forall k' | 0 <= k' < |s| && k' != i ensures IsAtomChar(s[k'])
      {
        if k' < i { assert s[k'] == s[..i][k']; } else { assert s[k'] == d[k' - i - 1]; }
      }
    } else {
      forall i' | 0 < i' < |s| && s[i'] == '@'
          && (forall k :: 0 <= k < |s| && k != i' ==> IsAtomChar(s[k]))
        ensures !(exists j :: i' + 1 < j < |s| - 1 && s[j] == '.')
      {
        if j :| i' + 1 < j < |s| - 1 && s[j] == '.' {
          var d := s[i' + 1..];
          assert d[j - i' - 1] == '.';
          assert AllAtom(s[..i']) by {
            forall k | 0 <= k < i' ensures IsAtomChar(s[..i'][k]) { assert s[..i'][k] == s[k]; }
          }
          assert AllAtom(d) by {
            forall k | 0 <= k < |d| ensures IsAtomChar(d[k]) { assert d[k] == s[i' + 1 + k]; }
          }
          TestSound(s, i');
          assert false;
        }
      }
    }
  }
}
