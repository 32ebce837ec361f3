/** The server's side of the second factor: `verify_totp` with its drift window and
    replay rule, and the user row that remembers the last step accepted. */
module SecondFactor {
  import opened Wrappers
  import opened Text
  import opened Numerals
  import opened Base32
  import opened Totp

  const DIGITS := 6
  const STEP_SECONDS := 30
  const DRIFT := 1

  predicate IsBlank(c: char) {
    c == ' '
  }

  /** `code.strip().replace(" ", "")`. */
  function Candidate(code: string): string {
    Remove(TrimBy(code, IsPySpace), IsBlank)
  }

  predicate IsAscii(c: char) {
    c < '\U{80}'
  }

  /** `str.isdigit` per character; beyond ASCII, whatever Unicode says. */
  predicate IsPyDigit(c: char, beyond: char -> bool) {
    if IsAscii(c) then IsDigit(c) else beyond(c)
  }

  predicate SixDigits(candidate: string, beyond: char -> bool) {
    |candidate| == DIGITS && forall c <- candidate :: IsPyDigit(c, beyond)
  }

  /** The step matched; refused; or the TypeError `compare_digest` raises on
      characters beyond ASCII. */
  datatype Verdict = Accepted(step: int) | Refused | TypeError

  function Current(now: int): int {
    now / STEP_SECONDS
  }

  /** The first of the steps from `from` up to `limit` whose code is the candidate. */
  function FirstMatch(codes: int -> string, candidate: string, from: int, limit: int): Option<int>
    decreases limit - from
  {
    if from >= limit then None
    else if codes(from) == candidate then Some(from)
    else FirstMatch(codes, candidate, from + 1, limit)
  }

  function Matched(codes: int -> string, candidate: string, now: int): Option<int> {
    FirstMatch(codes, candidate, Current(now) - DRIFT, Current(now) + DRIFT + 1)
  }

  predicate Fresh(step: int, notBefore: Option<int>) {
    notBefore.None? || step > notBefore.value
  }

  function Verified(codes: int -> string, beyond: char -> bool, code: string, now: int, notBefore: Option<int>): Verdict
  {
    var candidate := Candidate(code);
    if !SixDigits(candidate, beyond) then Refused
    else if exists c <- candidate :: !IsAscii(c) then TypeError
    else
      var matched := Matched(codes, candidate, now);
      if matched.Some? && Fresh(matched.value, notBefore) then Accepted(matched.value) else Refused
  }

  /** `codes(step)` is what `totp.at` gives for the step; the clock is past the first step. */
  method VerifyTotp(codes: int -> string, beyond: char -> bool, code: string, now: int, notBefore: Option<int>)
    returns (verdict: Verdict)
    requires now >= STEP_SECONDS
    ensures verdict == Verified(codes, beyond, code, now, notBefore)
  {
    var candidate := Candidate(code);
    if !SixDigits(candidate, beyond) {
      return Refused;
    }
    if exists c <- candidate :: !IsAscii(c) {
      return TypeError;
    }
    var current := Current(now);
    var offset := -DRIFT;
    while offset < DRIFT + 1
      invariant -DRIFT <= offset <= DRIFT + 1
      invariant Matched(codes, candidate, now) == FirstMatch(codes, candidate, current + offset, current + DRIFT + 1)
    {
      var step := current + offset;
      if codes(step) == candidate {
        return if notBefore.Some? && step <= notBefore.value then Refused else Accepted(step);
      }
      offset := offset + 1;
    }
    return Refused;
  }

  lemma {:induction false} FirstMatchIsFirst(codes: int -> string, candidate: string, from: int, limit: int)
    ensures var m := FirstMatch(codes, candidate, from, limit);
            && (m.Some? ==> from <= m.value < limit && codes(m.value) == candidate)
            && forall step :: from <= step < limit && codes(step) == candidate ==> m.Some? && m.value <= step
    decreases limit - from
  {
    if from < limit && codes(from) != candidate {
      FirstMatchIsFirst(codes, candidate, from + 1, limit);
    }
  }

  /** From thirty seconds before the step opens until thirty after it closes. */
  predicate InWindow(step: int, now: int) {
    30 * (step - 1) <= now < 30 * (step + 2)
  }

  lemma WindowIsSearched(step: int, now: int)
    ensures InWindow(step, now) <==> Current(now) - DRIFT <= step < Current(now) + DRIFT + 1
  {
  }

  /** A code is accepted for a step exactly when it is six ASCII digits, the clock is
      from thirty seconds before the step opens until thirty after it closes, the step
      is the earliest of those with that code, and no such step was used before. */
  lemma AcceptedExactly(codes: int -> string, beyond: char -> bool, code: string, now: int, notBefore: Option<int>,
                        step: int)
    ensures Verified(codes, beyond, code, now, notBefore) == Accepted(step) <==>
              && |Candidate(code)| == 6 && AllDigits(Candidate(code))
              && 30 * (step - 1) <= now < 30 * (step + 2) && codes(step) == Candidate(code)
              && (forall earlier :: InWindow(earlier, now) && codes(earlier) == Candidate(code) ==> step <= earlier)
              && (notBefore.Some? ==> notBefore.value < step)
  {
    var candidate := Candidate(code);
    FirstMatchIsFirst(codes, candidate, Current(now) - DRIFT, Current(now) + DRIFT + 1);
    forall s ensures InWindow(s, now) <==> Current(now) - DRIFT <= s < Current(now) + DRIFT + 1 {
      WindowIsSearched(s, now);
    }
    if AllDigits(candidate) {
      assert forall c <- candidate :: IsAscii(c) && IsPyDigit(c, beyond);
    }
  }

  /** The comparison raises exactly for six characters that `isdigit` takes for digits
      and that are not all ASCII. */
  lemma RaisesExactly(codes: int -> string, beyond: char -> bool, code: string, now: int, notBefore: Option<int>)
    ensures Verified(codes, beyond, code, now, notBefore) == TypeError <==>
              && |Candidate(code)| == 6
              && (forall c <- Candidate(code) :: '0' <= c <= '9' || (c >= '\U{80}' && beyond(c)))
              && (exists c <- Candidate(code) :: c >= '\U{80}')
  {
    hide Candidate, Matched;
  }

  lemma BlankIsRemoved()
    ensures Remove(" ", IsBlank) == ""
  {
  }

  lemma SpaceBefore(b1: string, b2: string, core: string, after: string)
    requires AllBlank(b1 + b2, IsPySpace) && AllBlank(after, IsPySpace) && TrimmedBy(core, IsPySpace)
    ensures Candidate(b1 + " " + (b2 + core + after)) == Remove(core, IsBlank)
  {
    var wider := b1 + " " + b2;
    assert forall c <- wider :: c in b1 + b2 || c == ' ';
    assert AllBlank(wider, IsPySpace);
    hide IsPySpace, Remove, TrimBy, AllBlank, TrimmedBy;
    TrimAround(wider, core, after, IsPySpace);
    assert b1 + " " + (b2 + core + after) == wider + core + after;
  }

  lemma SpaceAfter(before: string, core: string, a1: string, a2: string)
    requires AllBlank(before, IsPySpace) && AllBlank(a1 + a2, IsPySpace) && TrimmedBy(core, IsPySpace)
    ensures Candidate(before + core + a1 + " " + a2) == Remove(core, IsBlank)
  {
    var wider := a1 + " " + a2;
    assert forall c <- wider :: c in a1 + a2 || c == ' ';
    assert AllBlank(wider, IsPySpace);
    hide IsPySpace, Remove, TrimBy, AllBlank, TrimmedBy;
    TrimAround(before, core, wider, IsPySpace);
    assert before + core + a1 + " " + a2 == before + core + wider;
  }

  lemma SpaceWithin(before: string, left: string, right: string, after: string)
    requires AllBlank(before, IsPySpace) && AllBlank(after, IsPySpace)
    requires left != "" && right != "" && TrimmedBy(left + right, IsPySpace)
    ensures Candidate(before + left + " " + (right + after)) == Remove(left + right, IsBlank)
  {
    var core := left + " " + right;
    assert core[0] == (left + right)[0] && Last(core) == Last(left + right);
    assert TrimmedBy(core, IsPySpace);
    hide IsPySpace, Remove, TrimBy, AllBlank, TrimmedBy;
    TrimAround(before, core, after, IsPySpace);
    assert before + left + " " + (right + after) == before + core + after;
    RemoveAppend(left + " ", right, IsBlank);
    RemoveAppend(left, " ", IsBlank);
    RemoveAppend(left, right, IsBlank);
    BlankIsRemoved();
  }

  /** A text cut in two falls apart in its first piece, its middle or its last. */
  lemma CutInThree(a: string, b: string, x: string, y: string, z: string) returns (n: nat)
    requires a + b == x + y + z
    ensures || (n <= |x| && a == x[..n] && b == x[n..] + y + z)
            || (0 < n < |y| && a == x + y[..n] && b == y[n..] + z)
            || (n <= |z| && a == x + y + z[..n] && b == z[n..])
  {
    assert a == (a + b)[..|a|] && b == (a + b)[|a|..];
    if |a| <= |x| {
      n := |a|;
    } else if |a| < |x| + |y| {
      n := |a| - |x|;
    } else {
      n := |a| - |x| - |y|;
    }
  }

  /** Spaces anywhere in what is typed make no difference. */
  lemma SpacesDoNotMatter(a: string, b: string)
    ensures Candidate(a + " " + b) == Candidate(a + b)
  {
    var before, after := TrimTakesBlanks(a + b, IsPySpace);
    var core := TrimBy(a + b, IsPySpace);
    TrimIsTrimmed(a + b, IsPySpace);
    hide IsPySpace, Remove, TrimBy, AllBlank, TrimmedBy;
    var n := CutInThree(a, b, before, core, after);
    if n <= |before| && a == before[..n] && b == before[n..] + core + after {
      assert before == before[..n] + before[n..];
      SpaceBefore(before[..n], before[n..], core, after);
    } else if 0 < n < |core| && a == before + core[..n] && b == core[n..] + after {
      assert core == core[..n] + core[n..];
      SpaceWithin(before, core[..n], core[n..], after);
    } else {
      assert after == after[..n] + after[n..];
      SpaceAfter(before, core, after[..n], after[n..]);
    }
  }

  /** Six digits typed with spaces among them, or with blanks around them, are those digits. */
  lemma BlanksAroundDoNotMatter(before: string, code: string, after: string)
    requires AllBlank(before, IsPySpace) && AllBlank(after, IsPySpace) && AllDigits(code)
    ensures Candidate(before + code + after) == code
  {
    assert forall c <- code :: IsDigit(c) && !IsPySpace(c) && !IsBlank(c);
    TrimAround(before, code, after, IsPySpace);
    RemoveNothing(code, IsBlank);
  }

  // -------------------------------------------------------------------------- runs

  datatype Attempt = Attempt(code: string, now: int)

  function NextUsed(codes: int -> string, beyond: char -> bool, attempt: Attempt, last: Option<int>): Option<int> {
    var verdict := Verified(codes, beyond, attempt.code, attempt.now, last);
    if verdict.Accepted? then Some(verdict.step) else last
  }

  /** The user row; `confirm_mfa_enrolment` and `verify_mfa_challenge` store the
      step they accept. Attempts on one row follow one another. */
  class UserRow {
    var lastUsedStep: Option<int>

    constructor ()
      ensures lastUsedStep == None
    {
      lastUsedStep := None;
    }

    method Submit(codes: int -> string, beyond: char -> bool, attempt: Attempt) returns (verdict: Verdict)
      requires attempt.now >= STEP_SECONDS
      modifies this
      ensures verdict == Verified(codes, beyond, attempt.code, attempt.now, old(lastUsedStep))
      ensures lastUsedStep == NextUsed(codes, beyond, attempt, old(lastUsedStep))
    {
      verdict := VerifyTotp(codes, beyond, attempt.code, attempt.now, lastUsedStep);
      if verdict.Accepted? {
        lastUsedStep := Some(verdict.step);
      }
    }
  }

  datatype Use = Use(step: int, now: int)

  /** The steps a run of attempts uses up, with the clock at each. */
  function Uses(codes: int -> string, beyond: char -> bool, attempts: seq<Attempt>, last: Option<int>): seq<Use> {
    if attempts == [] then []
    else
      var verdict := Verified(codes, beyond, attempts[0].code, attempts[0].now, last);
      var later := Uses(codes, beyond, attempts[1..], NextUsed(codes, beyond, attempts[0], last));
      if verdict.Accepted? then [Use(verdict.step, attempts[0].now)] + later else later
  }

  predicate OnceEach(uses: seq<Use>, last: Option<int>) {
    && (forall i :: 0 <= i < |uses| ==> Fresh(uses[i].step, last) && InWindow(uses[i].step, uses[i].now))
    && (forall i, j :: 0 <= i < j < |uses| ==> uses[i].step < uses[j].step)
  }

  lemma OnceEachFirst(use: Use, later: seq<Use>, last: Option<int>)
    requires Fresh(use.step, last) && InWindow(use.step, use.now) && OnceEach(later, Some(use.step))
    ensures OnceEach([use] + later, last)
  {
    var uses := [use] + later;
    assert forall i :: 1 <= i < |uses| ==> uses[i] == later[i - 1];
  }

  /** Whatever the clock does, the steps accepted strictly increase and each is
      within thirty seconds of the clock, so no step is ever accepted twice. */
  lemma {:induction false} StepsStrictlyIncrease(codes: int -> string, beyond: char -> bool, attempts: seq<Attempt>,
                                                 last: Option<int>)
    ensures OnceEach(Uses(codes, beyond, attempts, last), last)
  {
    if attempts != [] {
      var verdict := Verified(codes, beyond, attempts[0].code, attempts[0].now, last);
      var next := NextUsed(codes, beyond, attempts[0], last);
      StepsStrictlyIncrease(codes, beyond, attempts[1..], next);
      if verdict.Accepted? {
        AcceptedExactly(codes, beyond, attempts[0].code, attempts[0].now, last, verdict.step);
        OnceEachFirst(Use(verdict.step, attempts[0].now), Uses(codes, beyond, attempts[1..], next), last);
      }
    }
  }

  // ------------------------------------------------------------- the two sides meet

  ghost predicate CodesOf(codes: int -> string, hmac: Hmac, key: seq<Byte>) {
    forall step: nat :: codes(step) == Hotp(hmac, key, step)
  }

  lemma AsciiDigitsAreTheirOwnCandidate(code: string)
    requires AllDigits(code)
    ensures Candidate(code) == code
  {
    assert forall c <- code :: IsDigit(c) && !IsPySpace(c) && !IsBlank(c);
    TrimOfTrimmed(code, IsPySpace);
    RemoveNothing(code, IsBlank);
  }

  lemma StepCodeIsAccepted(codes: int -> string, beyond: char -> bool, code: string, now: int,
                           notBefore: Option<int>, step: int)
    requires |code| == 6 && AllDigits(code) && codes(step) == code && InWindow(step, now)
    requires notBefore.Some? ==> 30 * (notBefore.value + 2) <= now
    ensures var verdict := Verified(codes, beyond, code, now, notBefore);
            verdict.Accepted? && InWindow(verdict.step, now)
  {
    hide Verified, FirstMatch;
    AsciiDigitsAreTheirOwnCandidate(code);
    FirstMatchIsFirst(codes, code, Current(now) - DRIFT, Current(now) + DRIFT + 1);
    WindowIsSearched(step, now);
    WindowIsSearched(Matched(codes, code, now).value, now);
    forall s ensures InWindow(s, now) <==> Current(now) - DRIFT <= s < Current(now) + DRIFT + 1 {
      WindowIsSearched(s, now);
    }
    AcceptedExactly(codes, beyond, code, now, notBefore, Matched(codes, code, now).value);
  }

  /** A code the browser makes within thirty seconds of the server's clock is
      accepted, when no step of the window has been used; clocks in milliseconds. */
  lemma BrowserCodeIsAccepted(hmac: Hmac, key: seq<Byte>, secret: string, at: nat, serverMs: nat,
                              codes: int -> string, beyond: char -> bool, notBefore: Option<int>)
    requires Decorates(secret, Encode(key)) && CodesOf(codes, hmac, key)
    requires -30_000 <= at - serverMs <= 30_000 <= serverMs && at / 30_000 < Int32.TWO32
    requires notBefore.Some? ==> 30 * (notBefore.value + 2) <= serverMs / 1000
    ensures var verdict := Verified(codes, beyond, BrowserCode(hmac, secret, at), serverMs / 1000, notBefore);
            verdict.Accepted? && InWindow(verdict.step, serverMs / 1000)
  {
    hide BrowserCode, Decorates, Hotp, Verified, FirstMatch;
    var step, now := at / STEP_MS, serverMs / 1000;
    BrowserCodeIsRfc6238(hmac, key, secret, at);
    HotpIsSixDigits(hmac, key, step);
    StepCodeIsAccepted(codes, beyond, codes(step), now, notBefore, step);
  }

  /** Not every code of an unused step is accepted: when the step before it has the
      same code and is used, the search stops there and refuses. */
  lemma CollisionRefusesAnUnusedStep(codes: int -> string, beyond: char -> bool, code: string, now: int)
    requires |code| == 6 && AllDigits(code)
    requires codes(Current(now)) == code && codes(Current(now) - 1) == code
    ensures Verified(codes, beyond, code, now, Some(Current(now) - 1)) == Refused
  {
    AsciiDigitsAreTheirOwnCandidate(code);
    assert forall c <- code :: IsAscii(c) && IsPyDigit(c, beyond);
  }
}
