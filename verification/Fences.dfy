/** Fenced prompt text: `guards.fence`, `guards.fence_all` and `caching.join_untrusted`,
    and a reader that takes the joined message apart again. */
module Fences {
  import opened Wrappers
  import opened Text

  // ------------------------------------------------------------------ sanitising

  /** C0 and C1 control characters other than tab, newline and carriage return. */
  predicate IsControl(c: char) {
    c <= '\U{08}' || '\U{0B}' <= c <= '\U{0C}' || '\U{0E}' <= c <= '\U{1F}' || '\U{7F}' <= c <= '\U{9F}'
  }

  predicate IsCloser(c: char) {
    c == '>'
  }

  function SafeContent(content: string): string {
    Remove(content, IsControl)
  }

  function SafeLabel(name: string): string {
    var stripped := TrimBy(Remove(Remove(name, IsControl), IsCloser), IsPySpace);
    if stripped == "" then "document" else stripped
  }

  /** What sanitising leaves is clean. */
  lemma LabelIsClean(name: string)
    ensures var safe := SafeLabel(name);
            safe != "" && TrimmedBy(safe, IsPySpace) && forall c <- safe :: !IsControl(c) && !IsCloser(c)
  {
    var inner := Remove(Remove(name, IsControl), IsCloser);
    TrimIsTrimmed(inner, IsPySpace);
    TrimSubset(inner, IsPySpace);
  }

  /** Sanitising twice is sanitising once, for labels and for contents. */
  lemma SanitisingIsIdempotent(name: string, content: string)
    ensures SafeLabel(SafeLabel(name)) == SafeLabel(name)
    ensures SafeContent(SafeContent(content)) == SafeContent(content)
  {
    LabelIsClean(name);
    hide Remove, TrimBy;
    var safe := SafeLabel(name);
    RemoveNothing(safe, IsControl);
    RemoveNothing(safe, IsCloser);
    TrimOfTrimmed(safe, IsPySpace);
    RemoveNothing(SafeContent(content), IsControl);
  }

  lemma RemoveFirst(c: char, s: string, drop: char -> bool)
    ensures Remove([c] + s, drop) == (if drop(c) then "" else [c]) + Remove(s, drop)
  {
    assert ([c] + s)[1..] == s;
  }

  /** A tab, a line feed, a carriage return, printable ASCII, or anything from the
      no-break space on. */
  predicate IsOrdinary(c: char) {
    c == '\t' || c == '\n' || c == '\r' || ' ' <= c <= '~' || c >= '\U{A0}'
  }

  /** Sanitising a content takes out, wherever they stand, the characters that are not
      ordinary, and keeps every other in its place. */
  lemma OrdinaryCharactersStay(a: string, c: char, b: string)
    ensures SafeContent(a + [c] + b) == SafeContent(a) + (if IsOrdinary(c) then [c] else "") + SafeContent(b)
    ensures SafeContent("") == ""
  {
    RemoveAppend(a, [c] + b, IsControl);
    assert a + [c] + b == a + ([c] + b);
    RemoveFirst(c, b, IsControl);
  }

  /** A label is kept as it is exactly when it is not empty, has no blanks around it and
      no closing bracket, and is ordinary; a label with nothing to keep is "document". */
  lemma LabelIsKeptExactly(name: string)
    ensures SafeLabel(name) == name <==>
              name != "" && TrimmedBy(name, IsPySpace) && forall c <- name :: IsOrdinary(c) && c != '>'
    ensures (forall c <- name :: IsPySpace(c) || !IsOrdinary(c) || c == '>') ==> SafeLabel(name) == "document"
  {
    LabelIsClean(name);
    assert forall c :: IsOrdinary(c) <==> !IsControl(c);
    var bare := Remove(Remove(name, IsControl), IsCloser);
    if name != "" && TrimmedBy(name, IsPySpace) && forall c <- name :: IsOrdinary(c) && c != '>' {
      RemoveNothing(name, IsControl);
      RemoveNothing(name, IsCloser);
      TrimOfTrimmed(name, IsPySpace);
    }
    if forall c <- name :: IsPySpace(c) || !IsOrdinary(c) || c == '>' {
      assert forall c <- bare :: c in Remove(name, IsControl) && IsPySpace(c);
      TrimAround(bare, "", "", IsPySpace);
      assert bare + "" + "" == bare;
    }
  }

  // --------------------------------------------------------------------- fencing

  const NONCE_DIGITS := 16

  predicate IsNonce(nonce: string) {
    |nonce| == 16 && forall c <- nonce :: '0' <= c <= '9' || 'a' <= c <= 'f'
  }

  function OpeningTag(nonce: string, name: string): string {
    "<untrusted:" + nonce + " label=\"" + name + "\">"
  }

  function ClosingTag(nonce: string): string {
    "</untrusted:" + nonce + ">"
  }

  function FenceText(nonce: string, name: string, content: string): string {
    OpeningTag(nonce, name) + "\n" + content + "\n" + ClosingTag(nonce)
  }

  datatype UntrustedContent = UntrustedContent(name: string, nonce: string, text: string)

  /** `fence`, with the nonce it draws as a parameter. */
  function Fence(content: string, name: string, nonce: string): UntrustedContent {
    UntrustedContent(SafeLabel(name), nonce, FenceText(nonce, SafeLabel(name), SafeContent(content)))
  }

  /** The fence as it stands in the message. */
  lemma FenceIsLaidOut(content: string, name: string, nonce: string)
    ensures Fence(content, name, nonce).text ==
            "<untrusted:" + nonce + " label=\"" + SafeLabel(name) + "\">\n" + SafeContent(content)
              + "\n</untrusted:" + nonce + ">"
    ensures Fence(content, name, nonce).name == SafeLabel(name) && Fence(content, name, nonce).nonce == nonce
  {
    hide SafeLabel, SafeContent;
    assert "\">" + "\n" == "\">\n" && "\n" + "</untrusted:" == "\n</untrusted:";
  }

  datatype Item = Item(name: string, content: string, nonce: string)

  function FenceAll(items: seq<Item>): seq<UntrustedContent> {
    if items == [] then [] else [Fence(items[0].content, items[0].name, items[0].nonce)] + FenceAll(items[1..])
  }

  function NotBlank(spans: seq<string>): seq<string> {
    if spans == [] then []
    else if TrimBy(spans[0], IsPySpace) == "" then NotBlank(spans[1..])
    else [spans[0]] + NotBlank(spans[1..])
  }

  const GAP := "\n\n"

  function JoinUntrusted(spans: seq<string>): string {
    Join(NotBlank(spans), GAP)
  }

  lemma {:induction false} NotBlankAppend(a: seq<string>, b: seq<string>)
    ensures NotBlank(a + b) == NotBlank(a) + NotBlank(b)
  {
    if a == [] {
      assert a + b == b;
    } else {
      assert (a + b)[1..] == a[1..] + b;
      NotBlankAppend(a[1..], b);
    }
  }

  /** Two spans that are not blank stand with an empty line between them. */
  lemma TwoSpansJoin(a: string, b: string)
    requires !AllBlank(a, IsPySpace) && !AllBlank(b, IsPySpace)
    ensures JoinUntrusted([a, b]) == a + "\n\n" + b && JoinUntrusted([a]) == a
  {
    var a1, a2 := TrimTakesBlanks(a, IsPySpace);
    var b1, b2 := TrimTakesBlanks(b, IsPySpace);
    assert TrimBy(a, IsPySpace) != "" && TrimBy(b, IsPySpace) != "";
    hide TrimBy, IsPySpace;
    assert [a, b][1..] == [b] && [b][1..] == [] && [a][1..] == [];
    assert NotBlank([a]) == [a] && NotBlank([b]) == [b];
    assert NotBlank([a, b]) == [a, b];
    assert Join([b], GAP) == b;
  }

  /** A span of blanks adds nothing to the message, wherever it stands. */
  lemma BlankSpansVanish(a: seq<string>, blank: string, b: seq<string>)
    requires AllBlank(blank, IsPySpace)
    ensures JoinUntrusted(a + [blank] + b) == JoinUntrusted(a + b)
  {
    hide IsPySpace;
    TrimAround(blank, "", "", IsPySpace);
    assert blank + "" + "" == blank;
    NotBlankAppend(a + [blank], b);
    NotBlankAppend(a, [blank]);
    NotBlankAppend(a, b);
    assert NotBlank([blank]) == [] by {
      assert [blank][1..] == [];
    }
    assert NotBlank(a) + [] == NotBlank(a);
  }

  function Texts(fenced: seq<UntrustedContent>): seq<string> {
    seq(|fenced|, i requires 0 <= i < |fenced| => fenced[i].text)
  }

  // --------------------------------------------------------------------- reading

  datatype Span = Span(name: string, content: string)

  predicate StartsWith(s: string, p: string) {
    |s| >= |p| && s[..|p|] == p
  }

  const OPEN := "<untrusted:"
  const LABEL := " label=\""

  /** The nonce and label of an opening tag at the start, and what follows the tag. */
  function ReadOpening(s: string): Option<(string, string, string)> {
    var close := IndexOf(s, ">");
    var labelAt := |OPEN| + NONCE_DIGITS + |LABEL|;
    if StartsWith(s, OPEN) && close > labelAt && s[close - 1] == '\"'
       && s[|OPEN| + NONCE_DIGITS..labelAt] == LABEL then
      Some((s[|OPEN|..|OPEN| + NONCE_DIGITS], s[labelAt..close - 1], s[close + 1..]))
    else None
  }

  /** One span, closed by the first closing tag with its own nonce, and what follows it. */
  function ReadSpan(s: string): (r: Option<(Span, string)>)
    ensures r.Some? ==> |r.value.1| < |s|
  {
    var opening := ReadOpening(s);
    if opening.None? then None
    else
      var (nonce, name, body) := opening.value;
      var close := IndexOf(body, ClosingTag(nonce));
      if close >= 2 && body[0] == '\n' && body[close - 1] == '\n' then
        Some((Span(name, body[1..close - 1]), body[close + |ClosingTag(nonce)|..]))
      else None
  }

  /** The whole message: spans with a blank line between them. */
  function Read(s: string): Option<seq<Span>>
    decreases |s|
  {
    if s == "" then Some([])
    else
      var first := ReadSpan(s);
      if first.None? then None
      else
        var (span, rest) := first.value;
        if rest == "" then Some([span])
        else if !StartsWith(rest, GAP) then None
        else
          var later := Read(rest[|GAP|..]);
          if later.None? then None else Some([span] + later.value)
  }

  // ----------------------------------------------------------------- the round trip

  /** A sanitised content that contains the closing tag of its own fence. */
  predicate ClosesItself(item: Item) {
    Contains(SafeContent(item.content), ClosingTag(item.nonce))
  }

  predicate NoneClosesItself(items: seq<Item>) {
    forall item <- items :: !ClosesItself(item)
  }

  function Sanitised(items: seq<Item>): seq<Span> {
    seq(|items|, i requires 0 <= i < |items| => Span(SafeLabel(items[i].name), SafeContent(items[i].content)))
  }

  lemma OpeningReadsBack(nonce: string, name: string, body: string)
    requires IsNonce(nonce) && forall c <- name :: !IsCloser(c)
    ensures ReadOpening(OpeningTag(nonce, name) + body) == Some((nonce, name, body))
  {
    hide IndexOf;
    var s := OpeningTag(nonce, name) + body;
    var labelAt := |OPEN| + NONCE_DIGITS + |LABEL|;
    var close := labelAt + |name| + 1;
    assert s[|OPEN|..|OPEN| + NONCE_DIGITS] == nonce;
    assert s[|OPEN| + NONCE_DIGITS..labelAt] == LABEL;
    assert s[labelAt..close - 1] == name;
    assert s[close + 1..] == body;
    OccursChar(s, '>', close);
    forall j | 0 <= j < close ensures !OccursAt(s, ">", j) {
      OccursChar(s, '>', j);
      if j < |OPEN| {
        assert s[j] == OPEN[j];
      } else if j < |OPEN| + NONCE_DIGITS {
        assert s[j] == nonce[j - |OPEN|] && nonce[j - |OPEN|] in nonce;
      } else if j < labelAt {
        assert s[j] == LABEL[j - |OPEN| - NONCE_DIGITS];
      } else if j < close - 1 {
        assert s[j] == name[j - labelAt] && name[j - labelAt] in name;
      } else {
        assert s[j] == '\"';
      }
    }
    FirstOccurrence(s, ">", close);
  }

  lemma NewlineOutside(body: string, tag: string, j: int, k: int)
    requires OccursAt(body, tag, j) && '\n' !in tag
    requires 0 <= k < |body| && body[k] == '\n'
    ensures k < j || j + |tag| <= k
  {
    forall m | j <= m < j + |tag| ensures body[m] != '\n' {
      assert body[m] == tag[m - j] && tag[m - j] in tag;
    }
  }

  lemma TagHasNoNewline(nonce: string)
    requires IsNonce(nonce)
    ensures '\n' !in ClosingTag(nonce)
  {
  }

  /** In a fenced body the closing tag found first is the fence's own exactly when
      the content does not contain one. */
  lemma ClosingTagIsFirst(nonce: string, content: string, rest: string)
    requires IsNonce(nonce)
    ensures var tag := ClosingTag(nonce);
            var found := IndexOf("\n" + content + "\n" + tag + rest, tag);
            && (!Contains(content, tag) ==> found == |content| + 2)
            && (Contains(content, tag) ==> 1 <= found <= |content|)
  {
    hide IndexOf;
    var tag := ClosingTag(nonce);
    var body := "\n" + content + "\n" + tag + rest;
    IndexOfFirst(content, tag);
    IndexOfFirst(body, tag);
    assert body[|content| + 2..|content| + 2 + |tag|] == tag;
    assert OccursAt(body, tag, |content| + 2);
    forall j | OccursAt(body, tag, j) && j < |content| + 2
      ensures 1 <= j <= |content| && OccursAt(content, tag, j - 1)
    {
      TagHasNoNewline(nonce);
      NewlineOutside(body, tag, j, 0);
      NewlineOutside(body, tag, j, |content| + 1);
      assert body[j..j + |tag|] == content[j - 1..j - 1 + |tag|];
    }
    if Contains(content, tag) {
      var i := IndexOf(content, tag);
      assert body[i + 1..i + 1 + |tag|] == content[i..i + |tag|];
      assert OccursAt(body, tag, i + 1);
    } else {
      forall j | 0 <= j < |content| + 2 ensures !OccursAt(body, tag, j) {
      }
      FirstOccurrence(body, tag, |content| + 2);
    }
  }

  /** A fence at the start of a text reads back as it was written exactly when it
      does not close itself. */
  lemma SpanReadsBack(item: Item, rest: string)
    requires IsNonce(item.nonce)
    ensures var span := Span(SafeLabel(item.name), SafeContent(item.content));
            var read := ReadSpan(Fence(item.content, item.name, item.nonce).text + rest);
            && (!ClosesItself(item) ==> read == Some((span, rest)))
            && (ClosesItself(item) ==> read.None? || |read.value.0.content| < |span.content|)
  {
    hide IndexOf, Remove, TrimBy, ReadOpening;
    var nonce, name, content := item.nonce, SafeLabel(item.name), SafeContent(item.content);
    var tag := ClosingTag(nonce);
    var body := "\n" + content + "\n" + tag + rest;
    LabelIsClean(item.name);
    hide SafeLabel, SafeContent;
    assert FenceText(nonce, name, content) + rest == OpeningTag(nonce, name) + body;
    OpeningReadsBack(nonce, name, body);
    ClosingTagIsFirst(nonce, content, rest);
    var close := IndexOf(body, tag);
    if !ClosesItself(item) {
      assert body[1..close - 1] == content && body[close + |tag|..] == rest;
    }
  }

  lemma {:induction false} FencedTextsAreNotBlank(items: seq<Item>)
    ensures NotBlank(Texts(FenceAll(items))) == Texts(FenceAll(items))
  {
    if items != [] {
      var texts := Texts(FenceAll(items));
      var text := texts[0];
      assert !IsPySpace(text[0]) && !IsPySpace(Last(text));
      TrimOfTrimmed(text, IsPySpace);
      assert texts[1..] == Texts(FenceAll(items[1..]));
      FencedTextsAreNotBlank(items[1..]);
    }
  }

  lemma FenceIsNotEmpty(item: Item)
    ensures Fence(item.content, item.name, item.nonce).text != ""
  {
  }

  /** Reading the first span right and the rest right is reading the whole right. */
  lemma ReadFirst(s: string, rest: string, span: Span, later: seq<Item>)
    requires s != ""
    requires rest == "" <==> later == []
    requires rest != "" ==> StartsWith(rest, GAP)
    requires ReadSpan(s) == Some((span, rest)) || ReadSpan(s).None? || ReadSpan(s).value.0 != span
    ensures Read(s) == Some([span] + Sanitised(later)) <==>
              ReadSpan(s) == Some((span, rest)) && (rest != "" ==> Read(rest[|GAP|..]) == Some(Sanitised(later)))
  {
    hide ReadSpan, SafeLabel, SafeContent;
    var whole := [span] + Sanitised(later);
    assert whole[0] == span && whole[1..] == Sanitised(later);
    if ReadSpan(s).Some? && ReadSpan(s).value.0 != span && Read(s).Some? {
      assert Read(s).value[0] != span;
    }
    if later == [] {
      assert whole == [span];
    }
    if ReadSpan(s) == Some((span, rest)) && rest != "" && Read(rest[|GAP|..]).Some? {
      var tail := Read(rest[|GAP|..]).value;
      assert ([span] + tail)[1..] == tail;
    }
  }

  lemma {:induction false} FencesReadBack(items: seq<Item>)
    requires forall item <- items :: IsNonce(item.nonce)
    ensures Read(Join(Texts(FenceAll(items)), GAP)) == Some(Sanitised(items)) <==> NoneClosesItself(items)
  {
    hide ReadSpan, ClosesItself, SafeLabel, SafeContent, FenceText;
    var texts := Texts(FenceAll(items));
    if items != [] {
      var item, later := items[0], items[1..];
      var text := Fence(item.content, item.name, item.nonce).text;
      var more := Join(Texts(FenceAll(later)), GAP);
      var rest := if later == [] then "" else GAP + more;
      assert texts == [text] + Texts(FenceAll(later));
      assert text != "" by { FenceIsNotEmpty(item); }
      assert Join(texts, GAP) == text + rest;
      SpanReadsBack(item, rest);
      FencesReadBack(later);
      var span := Span(SafeLabel(item.name), SafeContent(item.content));
      assert Sanitised(items) == [span] + Sanitised(later);
      assert NoneClosesItself(items) <==> !ClosesItself(item) && NoneClosesItself(later);
      if later != [] {
        assert rest[|GAP|..] == more;
      }
      ReadFirst(text + rest, rest, span, later);
    }
  }

  /** The joined message is unambiguous: a sequential reader recovers exactly the
      sanitised labels and contents, in order, if and only if no sanitised content
      contains the closing tag of its own fence. */
  lemma JoinedMessageReadsBack(items: seq<Item>)
    requires forall item <- items :: IsNonce(item.nonce)
    ensures Read(JoinUntrusted(Texts(FenceAll(items)))) == Some(Sanitised(items)) <==> NoneClosesItself(items)
  {
    FencedTextsAreNotBlank(items);
    FencesReadBack(items);
  }
}
