/**
 * The candidate e-mail check: the pattern ^[^\s@]+@[^\s@]+\.[^\s@]+$ read two
 * ways, as the shape the pattern matches and as a left-to-right scan, proven
 * to agree.
 */
module EmailFormat {

  /** The characters the pattern's `\s` class matches (ECMAScript white space and line terminators). */
  predicate IsWhitespace(c: char) {
    var n := c as int;
    n == 0x09 || n == 0x0A || n == 0x0B || n == 0x0C || n == 0x0D || n == 0x20
    || n == 0xA0 || n == 0x1680 || (0x2000 <= n <= 0x200A)
    || n == 0x2028 || n == 0x2029 || n == 0x202F || n == 0x205F
    || n == 0x3000 || n == 0xFEFF
  }

  /** A character of the class `[^\s@]`. */
  predicate Plain(c: char) {
    !IsWhitespace(c) && c != '@'
  }

  /**
   * The pattern matches `s` with its `@` at index `at` and the chosen `.` at
   * index `dot`: every other character is plain, and the three runs
   * (before `@`, between `@` and `.`, after `.`) are non-empty.
   */
  ghost predicate EmailSplit(s: string, at: int, dot: int) {
    && 0 < at && at + 1 < dot && dot + 1 < |s|
    && s[at] == '@' && s[dot] == '.'
    && (forall i | 0 <= i < |s| && i != at :: Plain(s[i]))
  }

  /** `s` matches ^[^\s@]+@[^\s@]+\.[^\s@]+$. */
  ghost predicate MatchesEmailPattern(s: string) {
    exists at, dot :: EmailSplit(s, at, dot)
  }

  /** The index of the first `c` in `s`, or |s| when there is none. */
  function IndexOf(s: string, c: char): (i: nat)
    ensures i <= |s|
    ensures i < |s| ==> s[i] == c
    ensures forall j :: 0 <= j < i ==> s[j] != c
  {
    if s == [] then 0
    else if s[0] == c then 0
    else 1 + IndexOf(s[1..], c)
  }

  /** Some `.` in `d` is neither its first nor its last character. */
  predicate HasInnerDot(d: string) {
    exists i | 0 < i < |d| - 1 :: d[i] == '.'
  }

  /**
   * The scan: no white space, exactly one `@`, a non-empty part before it,
   * and a domain after it with an inner dot.
   */
  predicate IsValidEmail(s: string)
    ensures IsValidEmail(s) ==> 5 <= |s| && s[0] != '@' && s[|s| - 1] != '@' && '@' in s
  {
    var at := IndexOf(s, '@');
    && 0 < at < |s|
    && (forall i | 0 <= i < |s| :: !IsWhitespace(s[i]))
    && (forall i | at < i < |s| :: s[i] != '@')
    && HasInnerDot(s[at + 1..])
  }

  /** The scan accepts exactly the strings the pattern matches. */
  lemma IsValidEmailMatchesPattern(s: string)
    ensures IsValidEmail(s) <==> MatchesEmailPattern(s)
  {
    if IsValidEmail(s) {
      var at := IndexOf(s, '@');
      var d := s[at + 1..];
      var i :| 0 < i < |d| - 1 && d[i] == '.';
      assert EmailSplit(s, at, at + 1 + i);
    }
    if MatchesEmailPattern(s) {
      var at, dot :| EmailSplit(s, at, dot);
      assert s[at] == '@';
      assert forall j :: 0 <= j < at ==> s[j] != '@' by {
        forall j | 0 <= j < at ensures s[j] != '@' { assert Plain(s[j]); }
      }
      assert IndexOf(s, '@') == at;
      var d := s[at + 1..];
      assert d[dot - at - 1] == '.';
      assert HasInnerDot(d);
      assert forall i | 0 <= i < |s| :: !IsWhitespace(s[i]) by {
        forall i | 0 <= i < |s| ensures !IsWhitespace(s[i]) {
          if i != at { assert Plain(s[i]); }
        }
      }
      assert forall i | at < i < |s| :: s[i] != '@' by {
        forall i | at < i < |s| ensures s[i] != '@' { assert Plain(s[i]); }
      }
    }
  }

  /** A well-formed address passes the scan. */
  lemma AcceptsPlainAddress()
    ensures IsValidEmail("jo@x.io")
  {
    var s := "jo@x.io";
    assert s[0] != '@' && s[1] != '@' && s[2] == '@';
    assert IndexOf(s, '@') == 2;
    var d := s[3..];
    assert d == "x.io" && d[1] == '.';
    assert forall i | 0 <= i < |s| :: !IsWhitespace(s[i]) by {
      forall i | 0 <= i < |s| ensures !IsWhitespace(s[i]) {
        assert i == 0 || i == 1 || i == 2 || i == 3 || i == 4 || i == 5 || i == 6;
      }
    }
  }

  /** A string with no `@` fails the scan. */
  lemma RejectsMissingAt()
    ensures !IsValidEmail("not-an-email")
  {
    var s := "not-an-email";
    assert forall j | 0 <= j < |s| :: s[j] != '@';
  }

  /** An empty part before the `@` fails the scan. */
  lemma RejectsEmptyLocalPart()
    ensures !IsValidEmail("@example.com")
  {}

  /** A second `@` fails the scan. */
  lemma RejectsTwoAts()
    ensures !IsValidEmail("jane@@example.com")
  {
    var s := "jane@@example.com";
    assert s[0] != '@' && s[1] != '@' && s[2] != '@' && s[3] != '@' && s[4] == '@';
    assert IndexOf(s, '@') == 4;
    assert s[5] == '@';
  }
}
