/** The cell formats the validator recognises: the e-mail and project-key
    regular expressions (matched with `re.match`, whose `$` also accepts one
    trailing newline), the four layouts tried with `datetime.strptime`, and
    the "special character" class of the text-quality check. Character
    classes are ASCII, as written in the patterns. */
module Formats {
  import opened Basics

  predicate IsAsciiDigit(c: char) {
    '0' <= c <= '9'
  }

  predicate IsAsciiLetter(c: char) {
    'a' <= c <= 'z' || 'A' <= c <= 'Z'
  }

  predicate IsAsciiAlnum(c: char) {
    IsAsciiDigit(c) || IsAsciiLetter(c)
  }

  /** `\s` on the ASCII range: space, \t, \n, \v, \f, \r and \x1c-\x1f. */
  predicate IsSpace(c: char) {
    c == ' ' || '\t' <= c <= '\r' || '\U{1C}' <= c <= '\U{1F}'
  }

  // ------------------------------------------------------------------ e-mail

  /** `[a-zA-Z0-9._%+-]` */
  predicate IsLocalChar(c: char) {
    IsAsciiAlnum(c) || c == '.' || c == '_' || c == '%' || c == '+' || c == '-'
  }

  /** `[a-zA-Z0-9.-]` */
  predicate IsDomainChar(c: char) {
    IsAsciiAlnum(c) || c == '.' || c == '-'
  }

  /** `s[lo..hi]` is all local-part characters. */
  predicate LocalRun(s: string, lo: nat, hi: nat) {
    forall k :: lo <= k < hi && k < |s| ==> IsLocalChar(s[k])
  }

  /** `s[lo..hi]` is all domain characters. */
  predicate DomainRun(s: string, lo: nat, hi: nat) {
    forall k :: lo <= k < hi && k < |s| ==> IsDomainChar(s[k])
  }

  /** `s[lo..]` is all letters. */
  predicate LetterRun(s: string, lo: nat) {
    forall k :: lo <= k < |s| ==> IsAsciiLetter(s[k])
  }

  /** `[a-zA-Z0-9.-]+\.[a-zA-Z]{2,}` matches `s[b..]`. */
  predicate DomainFrom(s: string, b: nat) {
    exists dot :: b + 1 <= dot && dot + 3 <= |s| && s[dot] == '.' && DomainRun(s, b, dot) && LetterRun(s, dot + 1)
  }

  /** `[a-zA-Z0-9._%+-]+@[a-zA-Z0-9.-]+\.[a-zA-Z]{2,}` matches all of `s`. */
  predicate EmailBody(s: string) {
    exists at :: 1 <= at < |s| && s[at] == '@' && LocalRun(s, 0, at) && DomainFrom(s, at + 1)
  }

  /** `re.match(email_pattern, s)` succeeds. */
  predicate IsEmail(s: string) {
    EmailBody(s) || (|s| > 0 && s[|s| - 1] == '\n' && EmailBody(s[..|s| - 1]))
  }

  /** An address the pattern accepts has exactly one "@". */
  lemma EmailHasOneAt(s: string)
    requires EmailBody(s)
    ensures Occurrences(s, '@') == 1
  {
    var at :| 1 <= at < |s| && s[at] == '@' && LocalRun(s, 0, at) && DomainFrom(s, at + 1);
    var dot :| at + 2 <= dot && dot + 3 <= |s| && s[dot] == '.' && DomainRun(s, at + 1, dot) && LetterRun(s, dot + 1);
    forall k | 0 <= k < |s| && k != at
      ensures s[k] != '@'
    {
      if k < at {
        assert IsLocalChar(s[k]);
      } else if k < dot {
        assert IsDomainChar(s[k]);
      } else if k > dot {
        assert IsAsciiLetter(s[k]);
      }
    }
    OccursOnlyAt(s, at, '@');
  }

  /** When `s` has its only "@" at `i`, the domain is what follows it. */
  lemma EmailSplit(s: string, i: nat)
    requires i < |s| && s[i] == '@'
    requires forall k :: 0 <= k < |s| && k != i ==> s[k] != '@'
    ensures EmailBody(s) ==> DomainFrom(s, i + 1)
  {
  }

  /** When the domain from `b` on has its only "." at `i`, two letters follow it. */
  lemma DomainSplit(s: string, b: nat, i: nat)
    requires b <= i < |s| && s[i] == '.'
    requires forall k :: b <= k < |s| && k != i ==> s[k] != '.'
    ensures DomainFrom(s, b) ==> i + 3 <= |s|
  {
  }

  lemma EmailAccepted()
    ensures IsEmail("ann@example.com")
    ensures IsEmail("ann@example.com\n")
  {
    var s := "ann@example.com";
    assert DomainFrom(s, 4) by {
      assert s[11] == '.' && DomainRun(s, 4, 11) && LetterRun(s, 12);
    }
    assert s[3] == '@' && LocalRun(s, 0, 3);
    assert "ann@example.com\n"[..15] == s;
  }

  lemma EmailRejected()
    ensures !IsEmail("ann@example")
    ensures !IsEmail("ann@example.c")
  {
    var s := "ann@example";
    EmailSplit(s, 3);
    var t := "ann@example.c";
    EmailSplit(t, 3);
    DomainSplit(t, 4, 11);
  }

  // ------------------------------------------------------------- project key

  /** `[A-Z][A-Z0-9_]*`, spanning all of `s`. */
  predicate ProjectKeyBody(s: string) {
    && |s| >= 1
    && 'A' <= s[0] <= 'Z'
    && forall k :: 1 <= k < |s| ==> 'A' <= s[k] <= 'Z' || IsAsciiDigit(s[k]) || s[k] == '_'
  }

  /** `re.match(r'^[A-Z][A-Z0-9_]*$', key)` succeeds. */
  predicate IsProjectKey(s: string) {
    ProjectKeyBody(s) || (|s| > 0 && s[|s| - 1] == '\n' && ProjectKeyBody(s[..|s| - 1]))
  }

  lemma ProjectKeyExamples()
    ensures IsProjectKey("PROJ")
    ensures IsProjectKey("QA_2")
    ensures IsProjectKey("PROJ\n")
    ensures !IsProjectKey("proj")
    ensures !IsProjectKey("")
    ensures !IsProjectKey("2QA")
    ensures !IsProjectKey("PR-1")
  {
    assert "PROJ\n"[..4] == "PROJ";
    assert "PR-1"[2] == '-';
  }

  // -------------------------------------------------------------------- dates

  /** A directive or literal of a `strptime` format. `Blank` is a space in
      the format, which matches one or more whitespace characters. */
  datatype Token = Year | Month | Day | Hour | Minute | Second | Sep(c: char) | Blank

  /** The fields a successful match has set; unset ones keep `strptime`'s defaults. */
  datatype Stamp = Stamp(year: int, month: int, day: int, hour: int, minute: int, second: int)

  const DefaultStamp := Stamp(1900, 1, 1, 0, 0, 0)

  /** '%Y-%m-%d', '%m/%d/%Y', '%d/%m/%Y', '%Y-%m-%d %H:%M:%S', in the order tried. */
  const DateLayouts: seq<seq<Token>> := [
    [Year, Sep('-'), Month, Sep('-'), Day],
    [Month, Sep('/'), Day, Sep('/'), Year],
    [Day, Sep('/'), Month, Sep('/'), Year],
    [Year, Sep('-'), Month, Sep('-'), Day, Blank, Hour, Sep(':'), Minute, Sep(':'), Second]]

  function DigitValue(c: char): int {
    c as int - '0' as int
  }

  /** The value of the `w` characters of `s` from `j` on, when they match
      the directive's regular expression: %Y `\d\d\d\d`; %m `1[0-2]|0[1-9]|[1-9]`;
      %d `3[01]|[12]\d|0[1-9]|[1-9]| [1-9]`; %H `2[0-3]|[0-1]\d|\d`;
      %M `[0-5]\d|\d`; %S `6[0-1]|[0-5]\d|\d`. */
  function FieldValue(tok: Token, s: string, j: nat, w: nat): (r: Option<int>)
    requires !tok.Sep? && !tok.Blank? && j + w <= |s|
    ensures r.Some? ==> (w == 1 || w == 2 || w == 4) && 0 <= r.value
  {
    if w == 4 then
      if tok == Year && IsAsciiDigit(s[j]) && IsAsciiDigit(s[j + 1]) && IsAsciiDigit(s[j + 2]) && IsAsciiDigit(s[j + 3])
      then Some(1000 * DigitValue(s[j]) + 100 * DigitValue(s[j + 1]) + 10 * DigitValue(s[j + 2]) + DigitValue(s[j + 3]))
      else None
    else if w == 2 then
      var hi, lo := s[j], s[j + 1];
      var two := 10 * DigitValue(hi) + DigitValue(lo);
      match tok
      case Month =>
        if (hi == '1' && '0' <= lo <= '2') || (hi == '0' && '1' <= lo <= '9') then Some(two) else None
      case Day =>
        if (hi == '3' && '0' <= lo <= '1') || ('1' <= hi <= '2' && IsAsciiDigit(lo))
           || (hi == '0' && '1' <= lo <= '9') then Some(two)
        else if hi == ' ' && '1' <= lo <= '9' then Some(DigitValue(lo))
        else None
      case Hour =>
        if (hi == '2' && '0' <= lo <= '3') || ('0' <= hi <= '1' && IsAsciiDigit(lo)) then Some(two) else None
      case Minute =>
        if '0' <= hi <= '5' && IsAsciiDigit(lo) then Some(two) else None
      case Second =>
        if (hi == '6' && '0' <= lo <= '1') || ('0' <= hi <= '5' && IsAsciiDigit(lo)) then Some(two) else None
      case Year => None
    else if w == 1 then
      if tok != Year && IsAsciiDigit(s[j]) && (s[j] != '0' || tok == Hour || tok == Minute || tok == Second)
      then Some(DigitValue(s[j]))
      else None
    else None
  }

  function SetField(st: Stamp, tok: Token, v: int): Stamp {
    match tok
    case Year => st.(year := v)
    case Month => st.(month := v)
    case Day => st.(day := v)
    case Hour => st.(hour := v)
    case Minute => st.(minute := v)
    case Second => st.(second := v)
    case _ => st
  }

  predicate IsLeapYear(y: int) {
    y % 4 == 0 && (y % 100 != 0 || y % 400 == 0)
  }

  function DaysInMonth(y: int, m: int): int {
    if m == 2 then (if IsLeapYear(y) then 29 else 28)
    else if m == 4 || m == 6 || m == 9 || m == 11 then 30
    else 31
  }

  /** The checks `datetime` makes on the matched fields. */
  predicate ValidStamp(st: Stamp) {
    && 1 <= st.year <= 9999
    && 1 <= st.month <= 12
    && 1 <= st.day <= DaysInMonth(st.year, st.month)
    && 0 <= st.hour <= 23 && 0 <= st.minute <= 59 && 0 <= st.second <= 59
  }

  /** The rest of `s`, from `j` on, matches the rest of `layout`, from `i`
      on, in full, and the fields set along the way make a real date. */
  predicate ParsesFrom(layout: seq<Token>, s: string, i: nat, j: nat, st: Stamp)
    requires i <= |layout| && j <= |s|
    decreases |layout| - i, |s| - j
  {
    if i == |layout| then j == |s| && ValidStamp(st)
    else
      match layout[i]
      case Sep(c) => j < |s| && s[j] == c && ParsesFrom(layout, s, i + 1, j + 1, st)
      case Blank =>
        j < |s| && IsSpace(s[j]) && (ParsesFrom(layout, s, i + 1, j + 1, st) || ParsesFrom(layout, s, i, j + 1, st))
      case tok =>
        FieldAdvance(layout, s, i, j, st, tok, 1) || FieldAdvance(layout, s, i, j, st, tok, 2)
        || FieldAdvance(layout, s, i, j, st, tok, 4)
  }

  /** The field `tok` at `layout[i]` takes `w` characters and the rest matches. */
  predicate FieldAdvance(layout: seq<Token>, s: string, i: nat, j: nat, st: Stamp, tok: Token, w: nat)
    requires i < |layout| && j <= |s| && layout[i] == tok && !tok.Sep? && !tok.Blank?
    decreases |layout| - i, |s| - j, 0
  {
    && j + w <= |s|
    && FieldValue(tok, s, j, w).Some?
    && ParsesFrom(layout, s, i + 1, j + w, SetField(st, tok, FieldValue(tok, s, j, w).value))
  }

  /** `datetime.strptime(s, fmt)` succeeds for the given layout. */
  predicate ParsesAs(layout: seq<Token>, s: string) {
    ParsesFrom(layout, s, 0, 0, DefaultStamp)
  }

  /** Year, month and day in that order. */
  lemma IsoDateAccepted()
    ensures ParsesAs(DateLayouts[0], "2024-01-15")
  {
  }

  /** Month and day may take one digit. */
  lemma IsoDateShortFields()
    ensures ParsesAs(DateLayouts[0], "2024-1-5")
  {
  }

  /** Month first. */
  lemma UsDateAccepted()
    ensures ParsesAs(DateLayouts[1], "01/15/2024")
  {
  }

  /** There is no month 15. */
  lemma UsDateNotDayFirst()
    ensures !ParsesAs(DateLayouts[2], "01/15/2024")
  {
  }

  /** Day first. */
  lemma DayFirstDateAccepted()
    ensures ParsesAs(DateLayouts[2], "15/01/2024")
  {
  }

  /** There is no month 15. */
  lemma DayFirstNotUs()
    ensures !ParsesAs(DateLayouts[1], "15/01/2024")
  {
  }

  /** The day must exist in that month. */
  lemma NoLeapDayIn2023()
    ensures !ParsesAs(DateLayouts[0], "2023-02-29")
  {
  }

  /** The whole string must be consumed. */
  lemma DateRejectsTrailingTime()
    ensures !ParsesAs(DateLayouts[0], "2024-01-15 10:30:00")
  {
  }

  // ------------------------------------------------------ special characters

  /** Matches `[^\w\s\-.,;:()!?]`. Outside ASCII every character counts as
      a word character. */
  predicate IsSpecialChar(c: char) {
    && c < '\U{80}'
    && !IsAsciiAlnum(c) && c != '_' && !IsSpace(c)
    && c != '-' && c != '.' && c != ',' && c != ';' && c != ':'
    && c != '(' && c != ')' && c != '!' && c != '?'
  }

  /** `s.str.contains(r'[^\w\s\-.,;:()!?]')` */
  predicate HasSpecialChar(s: string) {
    exists k :: 0 <= k < |s| && IsSpecialChar(s[k])
  }
}
