/**
 * The character classes, `String.prototype.trim` and the three regular
 * expressions the reservation form validates with, written out as string
 * predicates.
 */
module ReservationPatterns {

  /**
   * ECMAScript white space and line terminators: the characters `\s`
   * matches and `trim` removes.
   */
  predicate IsJsSpace(c: char) {
    || '\U{0009}' <= c <= '\U{000D}'
    || c == ' ' || c == '\U{00A0}' || c == '\U{1680}'
    || '\U{2000}' <= c <= '\U{200A}'
    || c == '\U{2028}' || c == '\U{2029}' || c == '\U{202F}' || c == '\U{205F}'
    || c == '\U{3000}' || c == '\U{FEFF}'
  }

  /** `\d`: an ASCII digit. */
  predicate IsDigit(c: char) {
    '0' <= c <= '9'
  }

  /** The letter class of the name pattern: ASCII letters and Spanish accented letters. */
  predicate IsNameLetter(c: char) {
    || 'A' <= c <= 'Z' || 'a' <= c <= 'z'
    || c == 'Á' || c == 'É' || c == 'Í' || c == 'Ó' || c == 'Ú' || c == 'Ü' || c == 'Ñ'
    || c == 'á' || c == 'é' || c == 'í' || c == 'ó' || c == 'ú' || c == 'ü' || c == 'ñ'
  }

  /** Drops leading white space. */
  function TrimStart(s: string): string {
    if s != [] && IsJsSpace(s[0]) then TrimStart(s[1..]) else s
  }

  /** Drops trailing white space. */
  function TrimEnd(s: string): string {
    if s != [] && IsJsSpace(s[|s| - 1]) then TrimEnd(s[..|s| - 1]) else s
  }

  /** `String.prototype.trim`. */
  function Trim(s: string): string {
    TrimEnd(TrimStart(s))
  }

  /** `TrimStart` keeps a suffix, drops only white space, and stops at a non-space. */
  lemma {:induction false} TrimStartFacts(s: string)
    ensures |TrimStart(s)| <= |s| && TrimStart(s) == s[|s| - |TrimStart(s)|..]
    ensures TrimStart(s) == [] || !IsJsSpace(TrimStart(s)[0])
    ensures forall k :: 0 <= k < |s| - |TrimStart(s)| ==> IsJsSpace(s[k])
    decreases |s|
  {
    if s != [] && IsJsSpace(s[0]) {
      TrimStartFacts(s[1..]);
    }
  }

  /** `TrimEnd` keeps a prefix, drops only white space, and stops at a non-space. */
  lemma {:induction false} TrimEndFacts(s: string)
    ensures |TrimEnd(s)| <= |s| && TrimEnd(s) == s[..|TrimEnd(s)|]
    ensures TrimEnd(s) == [] || !IsJsSpace(TrimEnd(s)[|TrimEnd(s)| - 1])
    ensures forall k :: |TrimEnd(s)| <= k < |s| ==> IsJsSpace(s[k])
    decreases |s|
  {
    if s != [] && IsJsSpace(s[|s| - 1]) {
      TrimEndFacts(s[..|s| - 1]);
    }
  }

  /** How many leading characters `trim` drops. */
  function TrimOffset(s: string): int {
    |s| - |TrimStart(s)|
  }

  /**
   * `trim` removes white space from both ends and nothing else: the result
   * is the slice of `s` starting at `TrimOffset(s)`, everything outside it
   * is white space, and it neither starts nor ends with white space.
   */
  lemma TrimFacts(s: string)
    ensures 0 <= TrimOffset(s) <= TrimOffset(s) + |Trim(s)| <= |s|
    ensures Trim(s) == s[TrimOffset(s)..TrimOffset(s) + |Trim(s)|]
    ensures forall k :: 0 <= k < TrimOffset(s) ==> IsJsSpace(s[k])
    ensures forall k :: TrimOffset(s) + |Trim(s)| <= k < |s| ==> IsJsSpace(s[k])
    ensures Trim(s) == [] || (!IsJsSpace(Trim(s)[0]) && !IsJsSpace(Trim(s)[|Trim(s)| - 1]))
  {
    var t := TrimStart(s);
    TrimStartFacts(s);
    TrimEndFacts(t);
    var r := TrimEnd(t);
    var i := |s| - |t|;
    assert forall k :: i + |r| <= k < |s| ==> s[k] == t[k - i];
    if r != [] {
      assert r[0] == t[0];
    }
  }

  /** Trimming twice is trimming once. */
  lemma TrimIdempotent(s: string)
    ensures Trim(Trim(s)) == Trim(s)
  {
    TrimFacts(s);
    var r := Trim(s);
    assert TrimStart(r) == r;
    assert TrimEnd(r) == r;
  }

  // ----- NAME_PATTERN: ^L+(?:\s+L+)+$ with L the letter class -----

  /** States of the automaton that recognises the name pattern. */
  datatype NameState = Start | FirstWord | Gap | LaterWord | Reject

  function NameStep(st: NameState, c: char): NameState {
    match st
    case Start => if IsNameLetter(c) then FirstWord else Reject
    case FirstWord => if IsNameLetter(c) then FirstWord else if IsJsSpace(c) then Gap else Reject
    case Gap => if IsNameLetter(c) then LaterWord else if IsJsSpace(c) then Gap else Reject
    case LaterWord => if IsNameLetter(c) then LaterWord else if IsJsSpace(c) then Gap else Reject
    case Reject => Reject
  }

  function NameRun(st: NameState, s: string): NameState
    decreases |s|
  {
    if s == [] then st else NameRun(NameStep(st, s[0]), s[1..])
  }

  /** The name pattern: a first word, then at least one more word after white space. */
  predicate NameMatches(s: string) {
    NameRun(Start, s) == LaterWord
  }

  /**
   * The strings the name pattern describes: letters and white space only,
   * a letter at both ends, and at least one white-space character, that is,
   * at least two letter-only words.
   */
  predicate NameShape(s: string) {
    && s != []
    && IsNameLetter(s[0]) && IsNameLetter(s[|s| - 1])
    && (forall k :: 0 <= k < |s| ==> IsNameLetter(s[k]) || IsJsSpace(s[k]))
    && (exists k :: 0 <= k < |s| && IsJsSpace(s[k]))
  }

  predicate LettersAndSpaces(s: string) {
    forall k :: 0 <= k < |s| ==> IsNameLetter(s[k]) || IsJsSpace(s[k])
  }

  predicate HasSpace(s: string) {
    exists k :: 0 <= k < |s| && IsJsSpace(s[k])
  }

  predicate EndsWithLetter(s: string) {
    s != [] && IsNameLetter(s[|s| - 1])
  }

  lemma LetterIsNotSpace(c: char)
    ensures IsNameLetter(c) ==> !IsJsSpace(c)
  {
  }

  /** What the automaton accepts from each state. */
  lemma {:induction false} NameRunAccepts(st: NameState, s: string)
    ensures st == LaterWord ==>
      (NameRun(st, s) == LaterWord <==> LettersAndSpaces(s) && (s == [] || EndsWithLetter(s)))
    ensures st == Gap ==>
      (NameRun(st, s) == LaterWord <==> LettersAndSpaces(s) && EndsWithLetter(s))
    ensures st == FirstWord ==>
      (NameRun(st, s) == LaterWord <==> LettersAndSpaces(s) && EndsWithLetter(s) && HasSpace(s))
    ensures st == Reject ==> NameRun(st, s) == Reject
    decreases |s|
  {
    if s == [] {
      return;
    }
    var c, t := s[0], s[1..];
    LetterIsNotSpace(c);
    NameRunAccepts(NameStep(st, c), t);
    NameRunAccepts(Gap, t);
    NameRunAccepts(LaterWord, t);
    NameRunAccepts(FirstWord, t);
    assert LettersAndSpaces(s) <==> (IsNameLetter(c) || IsJsSpace(c)) && LettersAndSpaces(t) by {
      assert forall k :: 1 <= k < |s| ==> s[k] == t[k - 1];
    }
    assert t != [] ==> (EndsWithLetter(s) <==> EndsWithLetter(t));
    assert HasSpace(s) <==> IsJsSpace(c) || HasSpace(t) by {
      if HasSpace(t) {
        var k :| 0 <= k < |t| && IsJsSpace(t[k]);
        assert IsJsSpace(s[k + 1]);
      }
      if HasSpace(s) && !IsJsSpace(c) {
        var k :| 0 <= k < |s| && IsJsSpace(s[k]);
        assert k != 0 && IsJsSpace(t[k - 1]);
      }
    }
  }

  /** The automaton recognises exactly the strings of `NameShape`. */
  lemma NameMatchesIff(s: string)
    ensures NameMatches(s) <==> NameShape(s)
  {
    if s == [] {
      return;
    }
    var t := s[1..];
    NameRunAccepts(NameStep(Start, s[0]), t);
    assert LettersAndSpaces(s) <==> (IsNameLetter(s[0]) || IsJsSpace(s[0])) && LettersAndSpaces(t) by {
      assert forall k :: 1 <= k < |s| ==> s[k] == t[k - 1];
    }
    if IsNameLetter(s[0]) {
      LetterIsNotSpace(s[0]);
      assert HasSpace(s) <==> HasSpace(t) by {
        if HasSpace(t) {
          var k :| 0 <= k < |t| && IsJsSpace(t[k]);
          assert IsJsSpace(s[k + 1]);
        }
        if HasSpace(s) {
          var k :| 0 <= k < |s| && IsJsSpace(s[k]);
          assert k != 0 && IsJsSpace(t[k - 1]);
        }
      }
      assert t == [] ==> !HasSpace(s);
      assert t != [] ==> (EndsWithLetter(s) <==> EndsWithLetter(t));
    }
  }

  // ----- EMAIL_PATTERN: ^[^\s@]+@[^\s@]+\.[^\s@]+$ -----

  predicate IsEmailChar(c: char) {
    !IsJsSpace(c) && c != '@'
  }

  /**
   * The email pattern read directly: an `@` at position `at` and a `.` at
   * position `dot` with non-empty runs before the `@`, between the two and
   * after the `.`, and no white space or other `@` anywhere.
   */
  predicate EmailMatches(s: string) {
    exists at, dot ::
      && 0 < at && at + 1 < dot && dot + 1 < |s|
      && s[at] == '@' && s[dot] == '.'
      && forall k :: 0 <= k < |s| && k != at ==> IsEmailChar(s[k])
  }

  /** The email pattern as local part, one `@`, and a dotted domain. */
  lemma EmailMatchesIff(s: string)
    ensures EmailMatches(s) <==>
      && (forall k :: 0 <= k < |s| ==> !IsJsSpace(s[k]))
      && (exists at :: 0 < at < |s| && s[at] == '@'
            && (forall k :: 0 <= k < |s| && k != at ==> s[k] != '@')
            && (exists dot :: at + 1 < dot < |s| - 1 && s[dot] == '.'))
  {
  }

  // ----- PHONE_PATTERN: ^[+]?[-\d\s()]{8,18}$ -----

  predicate IsPhoneChar(c: char) {
    c == '-' || IsDigit(c) || IsJsSpace(c) || c == '(' || c == ')'
  }

  /** Eight to eighteen characters of the phone class. */
  predicate PhoneBody(s: string) {
    8 <= |s| <= 18 && forall k :: 0 <= k < |s| ==> IsPhoneChar(s[k])
  }

  /** The phone pattern: an optional leading `+`, then a phone body. */
  predicate PhoneMatches(s: string) {
    if s != [] && s[0] == '+' then PhoneBody(s[1..]) else PhoneBody(s)
  }

  /**
   * The regular expression may or may not consume the optional `+`; since
   * `+` is not in the phone class, taking it whenever it is there loses no
   * match.
   */
  lemma PhoneMatchesIff(s: string)
    ensures PhoneMatches(s) <==> PhoneBody(s) || (s != [] && s[0] == '+' && PhoneBody(s[1..]))
  {
    if s != [] && s[0] == '+' {
      assert !IsPhoneChar(s[0]);
    }
  }
}
