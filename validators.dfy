/**
  The request-input validators: the e-mail pattern check, the ordered
  password-strength rules and the strip-and-truncate sanitiser. All three are
  pure functions of their arguments.
 */
module Validators {
  import opened Values

  // ---------------------------------------------------------------- e-mail

  predicate AsciiLetter(c: char)
  {
    'a' <= c <= 'z' || 'A' <= c <= 'Z'
  }

  predicate AsciiDigit(c: char)
  {
    '0' <= c <= '9'
  }

  /** `[a-zA-Z0-9._%+-]`, the local-part class. */
  predicate LocalChar(c: char)
  {
    AsciiLetter(c) || AsciiDigit(c) || c == '.' || c == '_' || c == '%' || c == '+' || c == '-'
  }

  /** `[a-zA-Z0-9.-]`, the domain class. */
  predicate DomainChar(c: char)
  {
    AsciiLetter(c) || AsciiDigit(c) || c == '.' || c == '-'
  }

  predicate AllLocal(s: string)
  {
    forall i :: 0 <= i < |s| ==> LocalChar(s[i])
  }

  predicate AllDomain(s: string)
  {
    forall i :: 0 <= i < |s| ==> DomainChar(s[i])
  }

  predicate AllLetters(s: string)
  {
    forall i :: 0 <= i < |s| ==> AsciiLetter(s[i])
  }

  /** `s` splits at `at` and `dot` into a non-empty local part, `@`, a
      non-empty run of domain characters, `.`, and at least two ASCII letters. */
  predicate ShapeAt(s: string, at: int, dot: int)
  {
    0 < at && at + 1 < dot && dot + 2 < |s| &&
    s[at] == '@' && s[dot] == '.' &&
    AllLocal(s[..at]) && AllDomain(s[at + 1..dot]) && AllLetters(s[dot + 1..])
  }

  /** The strings the body of the pattern describes when it must consume the
      whole input. */
  ghost predicate EmailShape(s: string)
  {
    exists at, dot :: ShapeAt(s, at, dot)
  }

  /** The first index of `c` in `s`, if any. */
  function IndexOf(s: string, c: char): (r: Option<nat>)
    ensures r.None? ==> forall i :: 0 <= i < |s| ==> s[i] != c
    ensures r.Some? ==> r.value < |s| && s[r.value] == c && forall i :: 0 <= i < r.value ==> s[i] != c
  {
    if s == [] then None
    else if s[0] == c then Some(0)
    else match IndexOf(s[1..], c)
      case None => None
      case Some(i) => Some(i + 1)
  }

  /** The last index of `c` in `s`, if any. */
  function LastIndexOf(s: string, c: char): (r: Option<nat>)
    ensures r.None? ==> forall i :: 0 <= i < |s| ==> s[i] != c
    ensures r.Some? ==> r.value < |s| && s[r.value] == c && forall i :: r.value < i < |s| ==> s[i] != c
  {
    if s == [] then None
    else if s[|s| - 1] == c then Some(|s| - 1)
    else LastIndexOf(s[..|s| - 1], c)
  }

  /** The pattern body matched against all of `s`. Both classes exclude `@`,
      so the `@` must be the first one; the final letters exclude `.`, so the
      separating dot must be the last one after the `@`. */
  function MatchesWhole(s: string): bool
  {
    match IndexOf(s, '@')
    case None => false
    case Some(at) =>
      var rest := s[at + 1..];
      match LastIndexOf(rest, '.')
      case None => false
      case Some(dot) =>
        0 < at && AllLocal(s[..at]) && AllDomain(rest) && 1 <= dot && dot + 2 < |rest| && AllLetters(rest[dot + 1..])
  }

  lemma MatchesWholeHasShape(s: string)
    requires MatchesWhole(s)
    ensures EmailShape(s)
  {
    var at := IndexOf(s, '@').value;
    var rest := s[at + 1..];
    var dot := LastIndexOf(rest, '.').value;
    var d := at + 1 + dot;
    assert s[at + 1..d] == rest[..dot];
    assert s[d + 1..] == rest[dot + 1..];
    assert ShapeAt(s, at, d);
  }

  lemma ShapeMatchesWhole(s: string, at: int, d: int)
    requires ShapeAt(s, at, d)
    ensures MatchesWhole(s)
  {
    AtIsFirst(s, at);
    var rest := s[at + 1..];
    var dot := d - at - 1;
    assert rest[dot + 1..] == s[d + 1..];
    DotIsLast(rest, dot);
    DomainAfterAt(s, at, d);
  }

  /** Before the `@` of a shaped address there is no other `@`. */
  lemma AtIsFirst(s: string, at: int)
    requires 0 <= at < |s| && s[at] == '@' && AllLocal(s[..at])
    ensures IndexOf(s, '@') == Some(at)
  {
    assert forall i :: 0 <= i < at ==> s[..at][i] == s[i];
  }

  /** After the last dot of a shaped domain come only letters. */
  lemma DotIsLast(rest: string, dot: int)
    requires 0 <= dot < |rest| && rest[dot] == '.' && AllLetters(rest[dot + 1..])
    ensures LastIndexOf(rest, '.') == Some(dot)
  {
    assert forall i :: dot < i < |rest| ==> rest[i] == rest[dot + 1..][i - dot - 1];
  }

  /** Everything after the `@` of a shaped address is a domain character. */
  lemma DomainAfterAt(s: string, at: int, d: int)
    requires ShapeAt(s, at, d)
    ensures AllDomain(s[at + 1..])
  {
    var rest := s[at + 1..];
    var dot := d - at - 1;
    forall i | 0 <= i < |rest|
      ensures DomainChar(rest[i])
    {
      if i < dot {
        assert rest[i] == s[at + 1..d][i];
      } else if i > dot {
        assert rest[i] == s[d + 1..][i - dot - 1];
      }
    }
  }

  lemma MatchesWholeIsShape(s: string)
    ensures MatchesWhole(s) <==> EmailShape(s)
  {
    if MatchesWhole(s) {
      MatchesWholeHasShape(s);
    }
    if EmailShape(s) {
      var at, d :| ShapeAt(s, at, d);
      ShapeMatchesWhole(s, at, d);
    }
  }

  /** `validate_email`: `re.match` anchors the pattern at the start, and `$`
      (without MULTILINE) matches at the end or just before a final newline. */
  function ValidateEmail(email: string): (ok: bool)
    ensures ok <==>
      EmailShape(email) ||
      (|email| > 0 && email[|email| - 1] == '\n' && EmailShape(email[..|email| - 1]))
  {
    MatchesWholeIsShape(email);
    MatchesWholeIsShape(if |email| > 0 then email[..|email| - 1] else email);
    MatchesWhole(email) ||
    (|email| > 0 && email[|email| - 1] == '\n' && MatchesWhole(email[..|email| - 1]))
  }

  /** Neither character class admits `@`, so an accepted address has exactly one. */
  lemma OnlyAtOfShape(s: string, at: int, d: int)
    requires ShapeAt(s, at, d)
    ensures forall j :: 0 <= j < |s| && s[j] == '@' ==> j == at
  {
    forall j | 0 <= j < |s| && j != at
      ensures s[j] != '@'
    {
      if j < at {
        assert LocalChar(s[..at][j]);
      } else if j < d {
        assert DomainChar(s[at + 1..d][j - at - 1]);
      } else if j > d {
        assert AsciiLetter(s[d + 1..][j - d - 1]);
      }
    }
  }

  lemma AcceptedEmailHasOneAt(email: string)
    requires ValidateEmail(email)
    ensures exists i ::
      0 <= i < |email| && email[i] == '@' && forall j :: 0 <= j < |email| && email[j] == '@' ==> j == i
  {
    var n := if EmailShape(email) then |email| else |email| - 1;
    var s := email[..n];
    assert email[..|email|] == email;
    assert EmailShape(s);
    var at, d :| ShapeAt(s, at, d);
    OnlyAtOfShape(s, at, d);
    forall j | 0 <= j < |email| && email[j] == '@'
      ensures j == at
    {
      if j < n {
        assert s[j] == email[j];
      }
    }
    assert 0 <= at < |email| && email[at] == '@' by {
      assert s[at] == email[at];
    }
  }

  /** A valid address followed by one newline is still accepted. */
  lemma TrailingNewlineAccepted(email: string)
    requires EmailShape(email)
    ensures ValidateEmail(email + "\n")
  {
    assert (email + "\n")[..|email|] == email;
  }

  // ---------------------------------------------------------------- password

  /** `re.search('[lo-hi]', s)`: some character of `s` lies in the range. */
  function ContainsInRange(s: string, lo: char, hi: char): (found: bool)
    ensures found <==> exists i :: 0 <= i < |s| && lo <= s[i] <= hi
  {
    if s == [] then false
    else if lo <= s[0] <= hi then true
    else
      assert forall i :: 0 < i < |s| ==> s[i] == s[1..][i - 1];
      ContainsInRange(s[1..], lo, hi)
  }

  /** The password rules, in the order the validator checks them. */
  datatype Rule = MinLength | Uppercase | Lowercase | Digit

  const PasswordRules: seq<Rule> := [MinLength, Uppercase, Lowercase, Digit]

  predicate Satisfies(password: string, rule: Rule)
  {
    match rule
    case MinLength => |password| >= 8
    case Uppercase => exists i :: 0 <= i < |password| && 'A' <= password[i] <= 'Z'
    case Lowercase => exists i :: 0 <= i < |password| && 'a' <= password[i] <= 'z'
    case Digit => exists i :: 0 <= i < |password| && '0' <= password[i] <= '9'
  }

  function RuleMessage(rule: Rule): string
  {
    match rule
    case MinLength => "Password must be at least 8 characters long"
    case Uppercase => "Password must contain at least one uppercase letter"
    case Lowercase => "Password must contain at least one lowercase letter"
    case Digit => "Password must contain at least one number"
  }

  /** The first rule of `rules` that the password breaks. */
  function FirstBroken(password: string, rules: seq<Rule>): Option<Rule>
  {
    if rules == [] then None
    else if !Satisfies(password, rules[0]) then Some(rules[0])
    else FirstBroken(password, rules[1..])
  }

  lemma FirstBrokenOfPasswordRules(password: string)
    ensures FirstBroken(password, PasswordRules) ==
      if !Satisfies(password, MinLength) then Some(MinLength)
      else if !Satisfies(password, Uppercase) then Some(Uppercase)
      else if !Satisfies(password, Lowercase) then Some(Lowercase)
      else if !Satisfies(password, Digit) then Some(Digit)
      else None
  {
    assert [MinLength, Uppercase, Lowercase, Digit][1..] == [Uppercase, Lowercase, Digit];
    assert [Uppercase, Lowercase, Digit][1..] == [Lowercase, Digit];
    assert [Lowercase, Digit][1..] == [Digit];
    assert [Digit][1..] == [];
    assert FirstBroken(password, [Digit]) ==
      if !Satisfies(password, Digit) then Some(Digit) else FirstBroken(password, []);
    assert FirstBroken(password, [Lowercase, Digit]) ==
      if !Satisfies(password, Lowercase) then Some(Lowercase) else FirstBroken(password, [Digit]);
    assert FirstBroken(password, [Uppercase, Lowercase, Digit]) ==
      if !Satisfies(password, Uppercase) then Some(Uppercase) else FirstBroken(password, [Lowercase, Digit]);
  }

  /** `validate_password`: the message is that of the first broken rule, and
      the password passes exactly when it breaks none. */
  function ValidatePassword(password: string): (r: (bool, Option<string>))
    ensures r.0 <==> r.1.None?
    ensures r.0 <==>
      |password| >= 8 &&
      (exists i :: 0 <= i < |password| && 'A' <= password[i] <= 'Z') &&
      (exists i :: 0 <= i < |password| && 'a' <= password[i] <= 'z') &&
      (exists i :: 0 <= i < |password| && '0' <= password[i] <= '9')
    ensures match FirstBroken(password, PasswordRules)
      case None => r == (true, None)
      case Some(rule) => r == (false, Some(RuleMessage(rule)))
  {
    FirstBrokenOfPasswordRules(password);
    if |password| < 8 then (false, Some(RuleMessage(MinLength)))
    else if !ContainsInRange(password, 'A', 'Z') then (false, Some(RuleMessage(Uppercase)))
    else if !ContainsInRange(password, 'a', 'z') then (false, Some(RuleMessage(Lowercase)))
    else if !ContainsInRange(password, '0', '9') then (false, Some(RuleMessage(Digit)))
    else (true, None)
  }

  // ---------------------------------------------------------------- sanitiser

  /** `str.isspace()` for one character: the characters Python's `str.strip()`
      removes when called without arguments. */
  predicate IsSpace(c: char)
  {
    var n := c as int;
    (9 <= n <= 13) || (28 <= n <= 32) || n == 0x85 || n == 0xA0 || n == 0x1680 ||
    (0x2000 <= n <= 0x200A) || n == 0x2028 || n == 0x2029 || n == 0x202F ||
    n == 0x205F || n == 0x3000
  }

  /** `r` is `s` with its leading and trailing whitespace removed, and nothing else. */
  ghost predicate StrippedOf(s: string, r: string)
  {
    exists i, j :: StrippedAt(s, r, i, j)
  }

  /** `r` is `s[i..j]`, everything outside it is whitespace, and it neither
      starts nor ends with whitespace. */
  predicate StrippedAt(s: string, r: string, i: int, j: int)
  {
    0 <= i <= j <= |s| && r == s[i..j] &&
    (forall k :: 0 <= k < i ==> IsSpace(s[k])) &&
    (forall k :: j <= k < |s| ==> IsSpace(s[k])) &&
    (r != [] ==> !IsSpace(r[0]) && !IsSpace(r[|r| - 1]))
  }

  /** How many whitespace characters `s` starts with. */
  function LeadingSpaces(s: string): (n: nat)
    ensures n <= |s|
    ensures forall k :: 0 <= k < n ==> IsSpace(s[k])
    ensures n < |s| ==> !IsSpace(s[n])
  {
    if s != [] && IsSpace(s[0]) then
      var n := 1 + LeadingSpaces(s[1..]);
      assert forall k :: 1 <= k < n ==> s[k] == s[1..][k - 1];
      n
    else 0
  }

  /** Where the whitespace that `s` ends with begins. */
  function TrailingStart(s: string): (n: nat)
    ensures n <= |s|
    ensures forall k :: n <= k < |s| ==> IsSpace(s[k])
    ensures n > 0 ==> !IsSpace(s[n - 1])
  {
    if s != [] && IsSpace(s[|s| - 1]) then
      var n := TrailingStart(s[..|s| - 1]);
      assert forall k :: n <= k < |s| - 1 ==> s[k] == s[..|s| - 1][k];
      n
    else |s|
  }

  /** `str.strip()`. */
  function Strip(s: string): (r: string)
    ensures StrippedOf(s, r)
  {
    var i := LeadingSpaces(s);
    var n := TrailingStart(s[i..]);
    StripBounds(s, i, n);
    s[i..i + n]
  }

  /** Cutting the `i` leading spaces, then the spaces after the first `n`
      characters of what is left, strips `s`. */
  lemma StripBounds(s: string, i: nat, n: nat)
    requires i + n <= |s|
    requires (forall k :: 0 <= k < i ==> IsSpace(s[k])) && (i < |s| ==> !IsSpace(s[i]))
    requires (forall k :: n <= k < |s[i..]| ==> IsSpace(s[i..][k])) && (n > 0 ==> !IsSpace(s[i..][n - 1]))
    ensures StrippedOf(s, s[i..i + n])
  {
    SpacesAfter(s, i, n);
    var r := s[i..i + n];
    if r != [] {
      assert r[0] == s[i];
      assert r[|r| - 1] == s[i..][n - 1];
    }
    assert StrippedAt(s, r, i, i + n);
  }

  /** The spaces that end `s[i..]` end `s`. */
  lemma SpacesAfter(s: string, i: nat, n: nat)
    requires i + n <= |s| && forall k :: n <= k < |s[i..]| ==> IsSpace(s[i..][k])
    ensures forall k :: i + n <= k < |s| ==> IsSpace(s[k])
  {
    forall k | i + n <= k < |s|
      ensures IsSpace(s[k])
    {
      assert s[k] == s[i..][k - i];
    }
  }

  /** Where Python's `s[:n]` ends on a string of length `len`: a negative `n`
      counts from the end, and the result is clamped to the string. */
  function SliceEnd(n: int, len: nat): (e: nat)
    ensures e <= len
    ensures n >= 0 ==> e == if n < len then n else len
    ensures n < 0 ==> e == if len + n > 0 then len + n else 0
  {
    if n >= 0 then (if n < len then n else len)
    else if len + n > 0 then len + n else 0
  }

  /** `sanitize_string`: `text.strip()[:max_length] if text else ""`. */
  function SanitizeString(text: Option<string>, maxLength: int): (r: string)
    ensures text.None? || text.value == "" ==> r == ""
    ensures text.Some? && text.value != "" ==>
      var stripped := Strip(text.value);
      r <= stripped &&
      (maxLength >= 0 ==> |r| == if maxLength < |stripped| then maxLength else |stripped|) &&
      (maxLength < 0 ==> |r| == if |stripped| + maxLength > 0 then |stripped| + maxLength else 0)
  {
    if text.None? || text.value == "" then ""
    else
      var stripped := Strip(text.value);
      stripped[..SliceEnd(maxLength, |stripped|)]
  }

  /** `sanitize_string`'s default bound. */
  const DefaultMaxLength: int := 1000
}
