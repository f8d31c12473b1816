/**
 * The tracking-number format check of the `/track` handler: the anchored
 * pattern `^[A-Za-z]{2}\d{9}[A-Za-z]{2}$` (server.js line 24).
 *
 * The regular expression is modelled as what it compiles to: a sequence of
 * character classes, one per input character, matched against the whole
 * string (`^` and `$` without the multi-line flag anchor at the very start and
 * the very end of the input in JavaScript).
 */
module TrackingFormat {

  /** `[A-Za-z]`: an ASCII letter, either case. */
  predicate IsAsciiLetter(c: char) {
    ('A' <= c <= 'Z') || ('a' <= c <= 'z')
  }

  /** `\d`: an ASCII digit. */
  predicate IsAsciiDigit(c: char) {
    '0' <= c <= '9'
  }

  datatype CharClass = Letter | Digit

  predicate InClass(c: char, k: CharClass) {
    match k
    case Letter => IsAsciiLetter(c)
    case Digit => IsAsciiDigit(c)
  }

  /** The pattern `k{n}`: the class `k` repeated exactly `n` times. */
  function Repeat(k: CharClass, n: nat): (p: seq<CharClass>)
    ensures |p| == n
    ensures forall i :: 0 <= i < n ==> p[i] == k
  {
    if n == 0 then [] else [k] + Repeat(k, n - 1)
  }

  /** `[A-Za-z]{2}\d{9}[A-Za-z]{2}` */
  function NumberPattern(): seq<CharClass> {
    Repeat(Letter, 2) + Repeat(Digit, 9) + Repeat(Letter, 2)
  }

  /**
   * Anchored match of the class sequence `p` against the whole of `s`, from
   * position `i` on: every remaining class consumes one character, and the
   * input must end exactly where the pattern does.
   */
  predicate MatchesFrom(p: seq<CharClass>, s: string, i: nat)
    requires i <= |p|
    decreases |p| - i
  {
    if i == |p| then |s| == |p|
    else i < |s| && InClass(s[i], p[i]) && MatchesFrom(p, s, i + 1)
  }

  /** The validator: `/^[A-Za-z]{2}\d{9}[A-Za-z]{2}$/.test(number)`. */
  predicate IsValidNumber(s: string)
    ensures IsValidNumber(s) ==> |s| == 13 && IsAsciiLetter(s[0]) && IsAsciiDigit(s[2])
  {
    MatchesFrom(NumberPattern(), s, 0)
  }

  /** An anchored match succeeds exactly when the lengths agree and every character is in its class. */
  lemma {:induction false} MatchesFromIff(p: seq<CharClass>, s: string, i: nat)
    requires i <= |p|
    ensures MatchesFrom(p, s, i) <==> |s| == |p| && forall j :: i <= j < |p| ==> InClass(s[j], p[j])
    decreases |p| - i
  {
    if i < |p| {
      MatchesFromIff(p, s, i + 1);
    }
  }

  /**
   * The validator accepts exactly the 13-character strings with ASCII letters
   * at positions 0, 1, 11 and 12 and ASCII digits at positions 2 to 10.
   */
  lemma ValidNumberIff(s: string)
    ensures IsValidNumber(s) <==>
      && |s| == 13
      && IsAsciiLetter(s[0]) && IsAsciiLetter(s[1])
      && (forall i :: 2 <= i < 11 ==> IsAsciiDigit(s[i]))
      && IsAsciiLetter(s[11]) && IsAsciiLetter(s[12])
  {
    var p := NumberPattern();
    MatchesFromIff(p, s, 0);
    assert |p| == 13;
    assert forall i :: 0 <= i < 2 ==> p[i] == Letter;
    assert forall i :: 2 <= i < 11 ==> p[i] == Repeat(Digit, 9)[i - 2] == Digit;
    assert forall i :: 11 <= i < 13 ==> p[i] == Repeat(Letter, 2)[i - 11] == Letter;
  }

  /** The empty string, which `!number` already rejects, is rejected by the pattern as well. */
  lemma EmptyRejected()
    ensures !IsValidNumber("")
  {
    ValidNumberIff("");
  }

  /** The example the 400 response offers as valid (server.js line 27), as written. */
  const DOCUMENTED_EXAMPLE: string := "ENE083992448MY"

  /** The example the model offers instead: the documented one without its third letter. */
  const VALID_EXAMPLE: string := "EN083992448MY"

  /** As written, the documented example is rejected by the validator: it has 14 characters. */
  lemma DocumentedExampleRejected()
    ensures !IsValidNumber(DOCUMENTED_EXAMPLE)
  {
    ValidNumberIff(DOCUMENTED_EXAMPLE);
    assert |DOCUMENTED_EXAMPLE| == 14;
  }

  /** The example the model's 400 response offers is accepted by the validator. */
  lemma ValidExampleAccepted()
    ensures IsValidNumber(VALID_EXAMPLE)
  {
    ValidNumberIff(VALID_EXAMPLE);
    var s := VALID_EXAMPLE;
    assert |s| == 13;
    assert s[2] == '0' && s[3] == '8' && s[4] == '3' && s[5] == '9' && s[6] == '9';
    assert s[7] == '2' && s[8] == '4' && s[9] == '4' && s[10] == '8';
  }
}
