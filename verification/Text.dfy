/** String operations shared by the codecs: search, split, join, trim and filter,
    in the form the JavaScript and Python built-ins give them. */
module Text {
  import opened Wrappers

  // ---------------------------------------------------------------- searching

  predicate OccursAt(s: string, p: string, i: int) {
    0 <= i <= |s| - |p| && s[i..i + |p|] == p
  }

  /** The first position of `p` in `s`, or -1. */
  function IndexOf(s: string, p: string): (i: int)
    ensures -1 <= i <= |s| - |p| || i == -1
  {
    if |s| < |p| then -1
    else if s[..|p|] == p then 0
    else if s == [] then -1
    else
      var rest := IndexOf(s[1..], p);
      if rest == -1 then -1 else rest + 1
  }

  lemma OccursShift(s: string, p: string, j: int)
    requires s != [] && j >= 1
    ensures OccursAt(s, p, j) <==> OccursAt(s[1..], p, j - 1)
  {
    if j <= |s| - |p| {
      var here, there := s[j..j + |p|], s[1..][j - 1..j - 1 + |p|];
      assert forall k :: 0 <= k < |p| ==> here[k] == s[j + k] == there[k];
      assert here == there;
    }
  }

  lemma OccursChar(s: string, c: char, i: int)
    ensures OccursAt(s, [c], i) <==> 0 <= i < |s| && s[i] == c
  {
    if 0 <= i < |s| {
      assert s[i..i + 1] == [s[i]];
    }
  }

  /** `IndexOf` finds an occurrence, the leftmost one, and misses none. */
  lemma {:induction false} IndexOfFirst(s: string, p: string)
    ensures var i := IndexOf(s, p);
            && (i != -1 ==> OccursAt(s, p, i))
            && forall j :: OccursAt(s, p, j) ==> 0 <= i <= j
  {
    if |s| >= |p| && s[..|p|] != p && s != [] {
      IndexOfFirst(s[1..], p);
      var i := IndexOf(s, p);
      if i != -1 {
        OccursShift(s, p, i);
      }
      forall j | OccursAt(s, p, j) ensures 0 <= i <= j {
        assert j != 0;
        OccursShift(s, p, j);
      }
    }
  }

  predicate Contains(s: string, p: string) {
    IndexOf(s, p) != -1
  }

  lemma FirstOccurrence(s: string, p: string, i: int)
    requires OccursAt(s, p, i)
    requires forall j :: 0 <= j < i ==> !OccursAt(s, p, j)
    ensures IndexOf(s, p) == i
  {
    IndexOfFirst(s, p);
  }

  lemma IndexOfPrefix(a: string, b: string, p: string)
    requires Contains(a, p)
    ensures IndexOf(a + b, p) == IndexOf(a, p)
  {
    IndexOfFirst(a, p);
    var i := IndexOf(a, p);
    assert (a + b)[i..i + |p|] == a[i..i + |p|];
    forall j | 0 <= j < i ensures !OccursAt(a + b, p, j) {
      assert !OccursAt(a, p, j);
      assert (a + b)[j..j + |p|] == a[j..j + |p|];
    }
    FirstOccurrence(a + b, p, i);
  }

  // ------------------------------------------------------ splitting and joining

  /** `s.split(sep)`: cut at every leftmost, non-overlapping separator. */
  function Split(s: string, sep: string): (parts: seq<string>)
    requires sep != ""
    ensures |parts| >= 1
    decreases |s|
  {
    var i := IndexOf(s, sep);
    if i == -1 then [s] else [s[..i]] + Split(s[i + |sep|..], sep)
  }

  lemma SplitStep(s: string, sep: string)
    requires sep != "" && Contains(s, sep)
    ensures var i := IndexOf(s, sep);
            && Split(s, sep) == [s[..i]] + Split(s[i + |sep|..], sep)
            && s == s[..i] + sep + s[i + |sep|..]
  {
    IndexOfFirst(s, sep);
    var i := IndexOf(s, sep);
    assert s == s[..i] + s[i..i + |sep|] + s[i + |sep|..];
  }

  lemma SplitWhole(s: string, sep: string)
    requires sep != "" && !Contains(s, sep)
    ensures Split(s, sep) == [s]
  {
  }

  function Join(parts: seq<string>, sep: string): string {
    if |parts| == 0 then ""
    else if |parts| == 1 then parts[0]
    else parts[0] + sep + Join(parts[1..], sep)
  }

  function Concat(parts: seq<string>): string {
    if parts == [] then "" else parts[0] + Concat(parts[1..])
  }

  lemma {:induction false} ConcatSnoc(parts: seq<string>, last: string)
    ensures Concat(parts + [last]) == Concat(parts) + last
  {
    if parts == [] {
      assert [last][1..] == [];
    } else {
      assert (parts + [last])[1..] == parts[1..] + [last];
      ConcatSnoc(parts[1..], last);
    }
  }

  lemma PrependToCut<T>(x: T, xs: seq<T>, ys: seq<T>)
    requires xs != []
    ensures [x] + (Init(xs) + ys) == Init([x] + xs) + ys
    ensures Last([x] + xs) == Last(xs)
  {
  }

  /** Splitting is incremental: text that arrives later only ever extends the
      last piece, so the pieces already cut off never change. */
  lemma {:induction false} SplitAppend(a: string, b: string, sep: string)
    requires sep != ""
    ensures Split(a + b, sep) == Init(Split(a, sep)) + Split(Last(Split(a, sep)) + b, sep)
    decreases |a|
  {
    hide Split, IndexOf;
    if !Contains(a, sep) {
      SplitWhole(a, sep);
    } else {
      SplitStep(a, sep);
      IndexOfPrefix(a, b, sep);
      SplitStep(a + b, sep);
      var i := IndexOf(a, sep);
      var head, rest := a[..i], a[i + |sep|..];
      assert (a + b)[..i] == head && (a + b)[i + |sep|..] == rest + b;
      SplitAppend(rest, b, sep);
      PrependToCut(head, Split(rest, sep), Split(Last(Split(rest, sep)) + b, sep));
    }
  }

  /** A piece that neither contains the separator nor can straddle it is cut off whole. */
  lemma SplitFirst(piece: string, sep: string, rest: string)
    requires sep != "" && OccursAt(piece + sep + rest, sep, |piece|)
    requires forall j :: 0 <= j < |piece| ==> !OccursAt(piece + sep + rest, sep, j)
    ensures Split(piece + sep + rest, sep) == [piece] + Split(rest, sep)
  {
    var s := piece + sep + rest;
    hide IndexOf;
    FirstOccurrence(s, sep, |piece|);
    assert s[..|piece|] == piece && s[|piece| + |sep|..] == rest;
  }

  /** With a one-character separator it is enough that the piece lacks the character. */
  lemma SplitFirstChar(piece: string, c: char, rest: string)
    requires c !in piece
    ensures Split(piece + [c] + rest, [c]) == [piece] + Split(rest, [c])
  {
    var s := piece + [c] + rest;
    hide Split;
    OccursChar(s, c, |piece|);
    forall j | 0 <= j < |piece| ensures !OccursAt(s, [c], j) {
      OccursChar(s, c, j);
    }
    SplitFirst(piece, [c], rest);
  }

  lemma SplitNone(s: string, c: char)
    requires c !in s
    ensures Split(s, [c]) == [s]
  {
    IndexOfFirst(s, [c]);
    forall i ensures !OccursAt(s, [c], i) {
      OccursChar(s, c, i);
    }
  }

  lemma {:induction false} JoinSplit(s: string, sep: string)
    requires sep != ""
    ensures Join(Split(s, sep), sep) == s
    decreases |s|
  {
    if Contains(s, sep) {
      SplitStep(s, sep);
      hide Split, IndexOf;
      var rest := s[IndexOf(s, sep) + |sep|..];
      JoinSplit(rest, sep);
      assert Split(s, sep)[1..] == Split(rest, sep);
    }
  }

  lemma {:induction false} SplitJoin(parts: seq<string>, c: char)
    requires parts != [] && forall p <- parts :: c !in p
    ensures Split(Join(parts, [c]), [c]) == parts
  {
    if |parts| == 1 {
      SplitNone(parts[0], c);
    } else {
      SplitJoin(parts[1..], c);
      SplitFirstChar(parts[0], c, Join(parts[1..], [c]));
    }
  }

  lemma {:induction false} SplitPiecesLack(s: string, c: char)
    ensures forall p <- Split(s, [c]) :: c !in p
    decreases |s|
  {
    IndexOfFirst(s, [c]);
    var i := IndexOf(s, [c]);
    forall k | 0 <= k < (if i == -1 then |s| else i) ensures s[k] != c {
      OccursChar(s, c, k);
    }
    if i != -1 {
      SplitStep(s, [c]);
      SplitPiecesLack(s[i + 1..], c);
    }
  }

  // ---------------------------------------------------------------- letter case

  function Upper(c: char): char {
    if 'a' <= c <= 'z' then (c as int - 32) as char else c
  }

  function Lower(c: char): char {
    if 'A' <= c <= 'Z' then (c as int + 32) as char else c
  }

  /** The letters in order, and nothing else, change their case. */
  lemma LettersChangeCase(i: nat, c: char)
    requires i < 26
    ensures Upper("abcdefghijklmnopqrstuvwxyz"[i]) == "ABCDEFGHIJKLMNOPQRSTUVWXYZ"[i]
    ensures Lower("ABCDEFGHIJKLMNOPQRSTUVWXYZ"[i]) == "abcdefghijklmnopqrstuvwxyz"[i]
    ensures c < 'a' || c > 'z' ==> Upper(c) == c
    ensures c < 'A' || c > 'Z' ==> Lower(c) == c
  {
  }

  /** `toUpperCase` as far as it writes ASCII: besides the ASCII letters, every
      character whose full upper-case mapping holds an ASCII letter. Any other
      character stands for its own capital, which is as little ASCII as it is. */
  function Uppercased(c: char): string {
    if c < '\U{80}' then [Upper(c)]
    else if c == '\U{DF}' then "SS"
    else if c == '\U{131}' then "I"
    else if c == '\U{149}' then "\U{2BC}N"
    else if c == '\U{17F}' then "S"
    else if c == '\U{1F0}' then "J\U{30C}"
    else if c == '\U{1E96}' then "H\U{331}"
    else if c == '\U{1E97}' then "T\U{308}"
    else if c == '\U{1E98}' then "W\U{30A}"
    else if c == '\U{1E99}' then "Y\U{30A}"
    else if c == '\U{1E9A}' then "A\U{2BE}"
    else if c == '\U{FB00}' then "FF"
    else if c == '\U{FB01}' then "FI"
    else if c == '\U{FB02}' then "FL"
    else if c == '\U{FB03}' then "FFI"
    else if c == '\U{FB04}' then "FFL"
    else if c == '\U{FB05}' || c == '\U{FB06}' then "ST"
    else [c]
  }

  /** `toLowerCase` and `str.lower` in the same way: a dotted capital I and the
      Kelvin sign are the two characters beyond ASCII that give an ASCII letter. */
  function Lowercased(c: char): string {
    if c == '\U{130}' then "i\U{307}" else if c == '\U{212A}' then "k" else [Lower(c)]
  }

  /** The two characters beyond ASCII whose lower case holds an ASCII letter. */
  lemma LowersToAscii(c: char)
    requires c >= '\U{80}'
    ensures (exists l <- Lowercased(c) :: l < '\U{80}') <==> c == '\U{130}' || c == '\U{212A}'
    ensures Lowercased('\U{130}')[0] == 'i' && Lowercased('\U{212A}') == "k"
  {
    if c == '\U{130}' {
      assert 'i' in Lowercased(c);
    } else if c == '\U{212A}' {
      assert 'k' in Lowercased(c);
    }
  }

  function UpperCase(s: string): string {
    if s == "" then "" else Uppercased(s[0]) + UpperCase(s[1..])
  }

  function LowerCase(s: string): string {
    if s == "" then "" else Lowercased(s[0]) + LowerCase(s[1..])
  }

  lemma {:induction false} UpperCaseAppend(a: string, b: string)
    ensures UpperCase(a + b) == UpperCase(a) + UpperCase(b)
  {
    hide Uppercased;
    if a == "" {
      assert a + b == b;
    } else {
      assert (a + b)[1..] == a[1..] + b;
      UpperCaseAppend(a[1..], b);
    }
  }

  lemma {:induction false} LowerCaseAppend(a: string, b: string)
    ensures LowerCase(a + b) == LowerCase(a) + LowerCase(b)
  {
    hide Lowercased;
    if a == "" {
      assert a + b == b;
    } else {
      assert (a + b)[1..] == a[1..] + b;
      LowerCaseAppend(a[1..], b);
    }
  }

  /** Characters that stand for their own lower case. */
  predicate IsLower(s: string) {
    forall c <- s :: Lowercased(c) == [c]
  }

  lemma LowercasedIsLower(c: char)
    ensures IsLower(Lowercased(c))
  {
  }

  lemma {:induction false} LowerCaseIsLower(s: string)
    ensures IsLower(LowerCase(s))
  {
    if s != "" {
      LowercasedIsLower(s[0]);
      hide Lowercased;
      LowerCaseIsLower(s[1..]);
    }
  }

  lemma {:induction false} LowerCaseOfLower(s: string)
    requires IsLower(s)
    ensures LowerCase(s) == s
  {
    if s != "" {
      hide Lowercased;
      assert s[0] in s;
      LowerCaseOfLower(s[1..]);
    }
  }

  // ------------------------------------------------------------------ trimming

  /** The code points `String.prototype.trim` and `\s` remove: ECMAScript
      WhiteSpace and LineTerminator. */
  predicate IsJsSpace(c: char) {
    || '\t' <= c <= '\r'
    || c == ' '
    || c == '\U{A0}'
    || c == '\U{1680}'
    || '\U{2000}' <= c <= '\U{200A}'
    || c == '\U{2028}' || c == '\U{2029}' || c == '\U{202F}' || c == '\U{205F}' || c == '\U{3000}'
    || c == '\U{FEFF}'
  }

  /** The code points `str.strip` removes (`str.isspace`). */
  predicate IsPySpace(c: char) {
    || '\t' <= c <= '\r'
    || '\U{1C}' <= c <= ' '
    || c == '\U{85}' || c == '\U{A0}'
    || c == '\U{1680}'
    || '\U{2000}' <= c <= '\U{200A}'
    || c == '\U{2028}' || c == '\U{2029}' || c == '\U{202F}' || c == '\U{205F}' || c == '\U{3000}'
  }

  function DropLeading(s: string, space: char -> bool): string {
    if s != [] && space(s[0]) then DropLeading(s[1..], space) else s
  }

  function DropTrailing(s: string, space: char -> bool): string {
    if s != [] && space(Last(s)) then DropTrailing(Init(s), space) else s
  }

  function TrimBy(s: string, space: char -> bool): string {
    DropTrailing(DropLeading(s, space), space)
  }

  predicate TrimmedBy(s: string, space: char -> bool) {
    s != [] ==> !space(s[0]) && !space(Last(s))
  }

  function Trim(s: string): string { TrimBy(s, IsJsSpace) }

  predicate Trimmed(s: string) { TrimmedBy(s, IsJsSpace) }

  lemma {:induction false} DropTrailingKeepsFirst(s: string, space: char -> bool)
    requires s != [] && !space(s[0])
    ensures var r := DropTrailing(s, space); r != [] && r[0] == s[0] && !space(Last(r))
  {
    if space(Last(s)) {
      assert |s| > 1;
      DropTrailingKeepsFirst(Init(s), space);
    }
  }

  lemma {:induction false} DropLeadingFirst(s: string, space: char -> bool)
    ensures var r := DropLeading(s, space); r != [] ==> !space(r[0])
  {
    if s != [] && space(s[0]) {
      DropLeadingFirst(s[1..], space);
    }
  }

  lemma TrimIsTrimmed(s: string, space: char -> bool)
    ensures TrimmedBy(TrimBy(s, space), space)
  {
    DropLeadingFirst(s, space);
    if DropLeading(s, space) != [] {
      DropTrailingKeepsFirst(DropLeading(s, space), space);
    }
  }

  lemma TrimOfTrimmed(s: string, space: char -> bool)
    requires TrimmedBy(s, space)
    ensures TrimBy(s, space) == s
  {
  }

  lemma {:induction false} DropLeadingSubset(s: string, space: char -> bool)
    ensures forall c <- DropLeading(s, space) :: c in s
  {
    if s != [] && space(s[0]) {
      DropLeadingSubset(s[1..], space);
    }
  }

  lemma {:induction false} DropTrailingSubset(s: string, space: char -> bool)
    ensures forall c <- DropTrailing(s, space) :: c in s
  {
    if s != [] && space(Last(s)) {
      DropTrailingSubset(Init(s), space);
    }
  }

  lemma TrimSubset(s: string, space: char -> bool)
    ensures forall c <- TrimBy(s, space) :: c in s
  {
    DropLeadingSubset(s, space);
    DropTrailingSubset(DropLeading(s, space), space);
  }

  predicate AllBlank(s: string, space: char -> bool) {
    forall c <- s :: space(c)
  }

  /** Blanks around a trimmed text are what trimming takes off, and nothing else. */
  lemma {:induction false} TrimAround(before: string, core: string, after: string, space: char -> bool)
    requires AllBlank(before, space) && AllBlank(after, space) && TrimmedBy(core, space)
    ensures TrimBy(before + core + after, space) == core
    decreases |before| + |after|
  {
    if before != "" {
      assert before[0] in before;
      assert (before + core + after)[1..] == before[1..] + core + after;
      TrimAround(before[1..], core, after, space);
    } else if after == "" {
      assert before + core + after == core;
      TrimOfTrimmed(core, space);
    } else if core == "" {
      assert before + core + after == after + core + "";
      TrimAround(after[1..], core, "", space);
      assert after[0] in after;
      assert (after + core + "")[1..] == after[1..] + core + "";
    } else {
      assert Last(after) in after && (before + core + after)[0] == core[0];
      assert Init(before + core + after) == before + core + Init(after);
      TrimAround(before, core, Init(after), space);
    }
  }

  /** Every text is its trimmed part with blanks around it. */
  lemma {:induction false} TrimTakesBlanks(s: string, space: char -> bool) returns (before: string, after: string)
    ensures s == before + TrimBy(s, space) + after && AllBlank(before, space) && AllBlank(after, space)
    decreases |s|
  {
    if s == "" {
      before, after := "", "";
    } else if space(s[0]) {
      before, after := TrimTakesBlanks(s[1..], space);
      before := [s[0]] + before;
    } else if space(Last(s)) {
      before, after := TrimTakesBlanks(Init(s), space);
      after := after + [Last(s)];
      assert s == Init(s) + [Last(s)];
    } else {
      before, after := "", "";
      TrimOfTrimmed(s, space);
    }
  }

  /** The characters blank to JavaScript or to Python but not to both. */
  lemma BlanksDiffer(c: char)
    ensures IsJsSpace(c) != IsPySpace(c) <==> '\U{1C}' <= c <= '\U{1F}' || c == '\U{85}' || c == '\U{FEFF}'
  {
  }

  // ----------------------------------------------------------------- filtering

  /** `s` without the characters `drop` selects. */
  function Remove(s: string, drop: char -> bool): (r: string)
    ensures forall c <- r :: c in s && !drop(c)
  {
    if s == [] then []
    else if drop(s[0]) then Remove(s[1..], drop)
    else [s[0]] + Remove(s[1..], drop)
  }

  lemma {:induction false} RemoveNothing(s: string, drop: char -> bool)
    requires forall c <- s :: !drop(c)
    ensures Remove(s, drop) == s
  {
    if s != [] {
      RemoveNothing(s[1..], drop);
    }
  }

  lemma {:induction false} RemoveAppend(a: string, b: string, drop: char -> bool)
    ensures Remove(a + b, drop) == Remove(a, drop) + Remove(b, drop)
  {
    if a == [] {
      assert a + b == b;
    } else {
      assert (a + b)[1..] == a[1..] + b;
      RemoveAppend(a[1..], b, drop);
    }
  }
}
