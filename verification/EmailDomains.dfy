/** Recognising a listed mail provider: the server's label-suffix loop
    (`email_domains.py`) and the mobile client's dotted-suffix rule (`email.ts`). */
module EmailDomains {
  import opened Wrappers
  import opened Text

  // ------------------------------------------------------------------ the domain

  /** The last position of `c`, or -1. */
  function LastIndexOf(s: string, c: char): (i: int)
    ensures -1 <= i < |s|
    ensures i >= 0 ==> s[i] == c
    ensures forall j :: i < j < |s| ==> s[j] != c
  {
    if s == [] then -1
    else if Last(s) == c then |s| - 1
    else LastIndexOf(Init(s), c)
  }

  /** `email_domain`: what follows the last "@", when there is something on each side. */
  function ServerDomain(email: string): Option<string> {
    var s := LowerCase(TrimBy(email, IsPySpace));
    var at := LastIndexOf(s, '@');
    if at <= 0 || at == |s| - 1 then None else Some(s[at + 1..])
  }

  /** `emailDomain`: the second piece around "@", or nothing. */
  function ClientDomain(email: string): string {
    var parts := Split(LowerCase(Trim(email)), "@");
    if |parts| > 1 then parts[1] else ""
  }

  lemma LowerAround(local: string, domain: string)
    ensures LowerCase(local + "@" + domain) == LowerCase(local) + "@" + LowerCase(domain)
  {
    LowerCaseAppend(local + "@", domain);
    LowerCaseAppend(local, "@");
    assert "@"[1..] == "";
    assert LowerCase("@") == "@";
  }

  lemma LowerIsNotEmpty(s: string)
    requires s != ""
    ensures LowerCase(s) != ""
  {
  }

  lemma {:induction false} LowerKeepsOut(s: string)
    requires '@' !in s
    ensures '@' !in LowerCase(s)
  {
    if s != "" {
      assert s[0] in s;
      assert '@' !in Lowercased(s[0]);
      hide Lowercased;
      LowerKeepsOut(s[1..]);
    }
  }

  lemma {:induction false} LastAt(local: string, domain: string)
    requires '@' !in domain
    ensures LastIndexOf(local + "@" + domain, '@') == |local|
  {
    if domain == "" {
      assert local + "@" + domain == local + "@";
    } else {
      assert Init(local + "@" + domain) == local + "@" + Init(domain);
      LastAt(local, Init(domain));
    }
  }

  /** What both sides read of a lower-case address. */
  lemma PiecesAround(l: string, d: string)
    requires '@' !in l && '@' !in d
    ensures LastIndexOf(l + "@" + d, '@') == |l| && (l + "@" + d)[|l| + 1..] == d
    ensures Split(l + "@" + d, "@") == [l, d]
  {
    hide Split, LastIndexOf;
    SplitFirstChar(l, '@', d);
    SplitNone(d, '@');
    LastAt(l, d);
  }

  /** The server reads what follows the last "@". */
  lemma ServerReadsAfterTheLast(local: string, domain: string)
    requires local != "" && domain != "" && '@' !in domain
    requires TrimmedBy(local + "@" + domain, IsPySpace)
    ensures ServerDomain(local + "@" + domain) == Some(LowerCase(domain))
  {
    TrimOfTrimmed(local + "@" + domain, IsPySpace);
    hide TrimBy, LastIndexOf, LowerCase, TrimmedBy, IsPySpace;
    LowerAround(local, domain);
    LowerKeepsOut(domain);
    LowerIsNotEmpty(local);
    LowerIsNotEmpty(domain);
    var l, d := LowerCase(local), LowerCase(domain);
    LastAt(l, d);
    assert (l + "@" + d)[|l| + 1..] == d;
  }

  lemma SecondPiece(l: string, d: string, more: string)
    requires '@' !in l && '@' !in d
    ensures Split(l + "@" + (d + "@" + more), "@") == [l, d] + Split(more, "@")
  {
    hide Split;
    SplitFirstChar(l, '@', d + "@" + more);
    SplitFirstChar(d, '@', more);
  }

  /** The client reads what stands between the first "@" and the second, if there is one. */
  lemma ClientReadsAfterTheFirst(local: string, domain: string, more: string)
    requires '@' !in local && '@' !in domain
    requires Trimmed(local + "@" + (domain + "@" + more))
    ensures ClientDomain(local + "@" + (domain + "@" + more)) == LowerCase(domain)
  {
    TrimOfTrimmed(local + "@" + (domain + "@" + more), IsJsSpace);
    hide TrimBy, Split, LowerCase, TrimmedBy, IsJsSpace;
    LowerAround(local, domain + "@" + more);
    LowerAround(domain, more);
    LowerKeepsOut(local);
    LowerKeepsOut(domain);
    SecondPiece(LowerCase(local), LowerCase(domain), LowerCase(more));
  }

  /** So with two "@" they read different pieces of the address. */
  lemma TwoAtSignsAreReadApart(local: string, middle: string, domain: string)
    requires local != "" && domain != "" && '@' !in local && '@' !in middle && '@' !in domain
    requires TrimmedBy(local + "@" + (middle + "@" + domain), IsPySpace)
    requires Trimmed(local + "@" + (middle + "@" + domain))
    ensures ServerDomain(local + "@" + (middle + "@" + domain)) == Some(LowerCase(domain))
    ensures ClientDomain(local + "@" + (middle + "@" + domain)) == LowerCase(middle)
  {
    hide *;
    ClientReadsAfterTheFirst(local, middle, domain);
    assert local + "@" + (middle + "@" + domain) == (local + "@" + middle) + "@" + domain;
    ServerReadsAfterTheLast(local + "@" + middle, domain);
  }

  lemma BlankLower()
    ensures LowerCase("") == ""
  {
  }

  /** The server finds no domain without an "@", or with nothing before the last one or after it. */
  lemma NoDomain(email: string)
    requires TrimmedBy(email, IsPySpace)
    requires '@' !in email || Last(email) == '@' || (email[0] == '@' && '@' !in email[1..])
    ensures ServerDomain(email) == None
  {
    TrimOfTrimmed(email, IsPySpace);
    hide TrimBy, LastIndexOf, LowerCase, TrimmedBy, IsPySpace;
    var s := LowerCase(email);
    if '@' !in email {
      LowerKeepsOut(email);
      assert forall j :: 0 <= j < |s| ==> s[j] != '@';
    } else if Last(email) == '@' {
      assert email == Init(email) + "@" + "";
      LowerAround(Init(email), "");
      BlankLower();
      assert Last(s) == '@';
    } else {
      assert email == "" + "@" + email[1..];
      LowerAround("", email[1..]);
      BlankLower();
      LowerKeepsOut(email[1..]);
      assert s[1..] == LowerCase(email[1..]);
      assert forall j :: 1 <= j < |s| ==> s[j] == s[1..][j - 1];
    }
  }

  /** The client finds none without an "@". */
  lemma NoClientDomain(email: string)
    requires Trimmed(email) && '@' !in email
    ensures ClientDomain(email) == ""
  {
    TrimOfTrimmed(email, IsJsSpace);
    hide TrimBy, Split, LowerCase, TrimmedBy, IsJsSpace;
    LowerKeepsOut(email);
    SplitNone(LowerCase(email), '@');
  }

  /** With a single "@", something on each side and no exotic blanks around it, both
      sides read the same domain. */
  lemma DomainsAgree(local: string, domain: string)
    requires local != "" && domain != "" && '@' !in local && '@' !in domain
    requires TrimmedBy(local + "@" + domain, IsPySpace) && Trimmed(local + "@" + domain)
    ensures ServerDomain(local + "@" + domain) == Some(LowerCase(domain))
    ensures ClientDomain(local + "@" + domain) == LowerCase(domain)
  {
    var email := local + "@" + domain;
    TrimOfTrimmed(email, IsPySpace);
    TrimOfTrimmed(email, IsJsSpace);
    hide TrimBy, Split, LastIndexOf, LowerCase, TrimmedBy, IsPySpace, IsJsSpace;
    LowerAround(local, domain);
    LowerKeepsOut(local);
    LowerKeepsOut(domain);
    LowerIsNotEmpty(local);
    LowerIsNotEmpty(domain);
    PiecesAround(LowerCase(local), LowerCase(domain));
  }

  // ---------------------------------------------------------------- the two rules

  predicate EndsWith(s: string, suffix: string) {
    |s| >= |suffix| && s[|s| - |suffix|..] == suffix
  }

  /** The domain, or its part after some dot, is listed. */
  predicate DottedSuffix(domain: string, listed: set<string>) {
    domain in listed || exists known <- listed :: EndsWith(domain, "." + known)
  }

  /** The same for entries of at least two labels only. */
  predicate ServerListed(domain: string, listed: set<string>) {
    domain in listed || exists known <- listed :: '.' in known && EndsWith(domain, "." + known)
  }

  function Labels(domain: string): seq<string> {
    Split(domain, ".")
  }

  predicate SuffixListed(domain: string, listed: set<string>, start: nat)
    requires start <= |Labels(domain)|
  {
    Join(Labels(domain)[start..], ".") in listed
  }

  lemma LabelsAround(prefix: string, suffix: string)
    ensures Labels(prefix + "." + suffix) == Labels(prefix) + Labels(suffix)
  {
    hide Split;
    var last := Last(Labels(prefix));
    assert prefix + "." + suffix == prefix + ("." + suffix);
    SplitAppend(prefix, "." + suffix, ".");
    SplitPiecesLack(prefix, '.');
    assert last in Labels(prefix);
    assert last + ("." + suffix) == last + "." + suffix;
    SplitFirstChar(last, '.', suffix);
    assert Labels(prefix) == Init(Labels(prefix)) + [last];
  }

  lemma OneJoins(piece: string)
    ensures Join([piece], ".") == piece
  {
  }

  /** What follows a dot is a proper label suffix, of two labels when it holds a dot. */
  lemma DottedSuffixIsLabels(domain: string, known: string)
    requires EndsWith(domain, "." + known)
    ensures var n := |Labels(domain)| - |Labels(known)|;
            n >= 1 && Labels(domain)[n..] == Labels(known)
    ensures Join(Labels(known), ".") == known
    ensures '.' in known ==> |Labels(known)| >= 2
  {
    hide Split, Join;
    var prefix := domain[..|domain| - |known| - 1];
    assert domain == prefix + "." + known;
    LabelsAround(prefix, known);
    JoinSplit(known, ".");
    if '.' in known && |Labels(known)| == 1 {
      SplitPiecesLack(known, '.');
      assert Labels(known) == [Labels(known)[0]];
      OneJoins(Labels(known)[0]);
    }
  }

  lemma DottedSuffixIsTried(domain: string, known: string, listed: set<string>)
    requires '.' in known && EndsWith(domain, "." + known) && known in listed
    ensures exists k: nat :: 1 <= k < |Labels(domain)| - 1 && SuffixListed(domain, listed, k)
  {
    hide Split, Join;
    DottedSuffixIsLabels(domain, known);
    var k := |Labels(domain)| - |Labels(known)|;
    assert SuffixListed(domain, listed, k);
  }

  lemma {:induction false} JoinAppend(a: seq<string>, b: seq<string>, sep: string)
    requires a != [] && b != []
    ensures Join(a + b, sep) == Join(a, sep) + sep + Join(b, sep)
  {
    if |a| > 1 {
      JoinAppend(a[1..], b, sep);
      assert (a + b)[1..] == a[1..] + b;
    } else {
      assert (a + b)[1..] == b;
    }
  }

  /** Joining the labels from `start` gives what follows a dot, and holds a dot
      itself when two labels are left. */
  lemma LabelSuffixIsDotted(domain: string, start: nat)
    requires 1 <= start < |Labels(domain)| - 1
    ensures var suffix := Join(Labels(domain)[start..], ".");
            '.' in suffix && EndsWith(domain, "." + suffix)
  {
    hide Split, Join;
    var labels := Labels(domain);
    JoinSplit(domain, ".");
    assert labels == labels[..start] + labels[start..];
    JoinAppend(labels[..start], labels[start..], ".");
    var rest := labels[start..];
    assert rest == rest[..1] + rest[1..];
    JoinAppend(rest[..1], rest[1..], ".");
    var suffix := Join(rest, ".");
    assert suffix[|Join(rest[..1], ".")|] == '.';
    assert domain == Join(labels[..start], ".") + ("." + suffix);
  }

  /** The loop of `is_consumer_domain` and `is_disposable_domain`: the domain itself,
      then every proper suffix of at least two labels. */
  method IsListed(email: string, listed: set<string>) returns (result: bool)
    ensures result <==> ServerDomain(email).Some? && ServerListed(ServerDomain(email).value, listed)
  {
    var d := ServerDomain(email);
    if d.None? {
      return false;
    }
    var domain := d.value;
    if domain in listed {
      return true;
    }
    var labels := Labels(domain);
    var start := 1;
    hide Split, Join;
    while start < |labels| - 1
      invariant 1 <= start && (start <= |labels| - 1 || start == 1)
      invariant forall k: nat :: 1 <= k < start && k < |labels| - 1 ==> !SuffixListed(domain, listed, k)
    {
      if Join(labels[start..], ".") in listed {
        LabelSuffixIsDotted(domain, start);
        return true;
      }
      start := start + 1;
    }
    forall known <- listed | '.' in known && EndsWith(domain, "." + known) ensures false {
      DottedSuffixIsTried(domain, known, listed);
    }
    return false;
  }

  /** `isPersonalEmailDomain`: listed, or a subdomain of a listed one, or a brand
      with many country domains. */
  predicate IsPersonal(domain: string, listed: set<string>, brands: set<string>) {
    var d := LowerCase(Trim(domain));
    && d != ""
    && (DottedSuffix(d, listed) || exists brand <- brands :: |d| >= |brand| && d[..|brand|] == brand)
  }

  /** A domain that begins with one of the brands is personal, whatever follows. */
  lemma BrandsArePersonal(brand: string, rest: string, listed: set<string>, brands: set<string>)
    requires brand in brands && brand + rest != "" && Trimmed(brand + rest) && LowerCase(brand + rest) == brand + rest
    ensures IsPersonal(brand + rest, listed, brands)
    ensures !IsPersonal("", listed, brands)
  {
    TrimOfTrimmed(brand + rest, IsJsSpace);
    TrimOfTrimmed("", IsJsSpace);
  }

  /** Blanks around a domain and the case of its letters make no difference to the client. */
  lemma BlanksAndCaseDoNotMatter(before: string, domain: string, after: string,
                                 listed: set<string>, brands: set<string>)
    requires AllBlank(before, IsJsSpace) && AllBlank(after, IsJsSpace)
    requires Trimmed(domain) && Trimmed(LowerCase(domain))
    ensures IsPersonal(before + domain + after, listed, brands) <==> IsPersonal(LowerCase(domain), listed, brands)
  {
    TrimAround(before, domain, after, IsJsSpace);
    TrimOfTrimmed(LowerCase(domain), IsJsSpace);
    LowerCaseIsLower(domain);
    LowerCaseOfLower(LowerCase(domain));
    hide TrimBy, LowerCase;
  }

  lemma ServerDomainIsLower(email: string)
    requires ServerDomain(email).Some?
    ensures ServerDomain(email).value != "" && LowerCase(ServerDomain(email).value) == ServerDomain(email).value
  {
    hide LowerCase, TrimBy;
    LowerCaseIsLower(TrimBy(email, IsPySpace));
    LowerCaseOfLower(ServerDomain(email).value);
  }

  /** With a list whose entries all have at least two labels, the loop is the
      dotted-suffix test, and the client's rule without its brands agrees, for
      every address whose domain has no blanks around it. */
  lemma RulesAgree(email: string, listed: set<string>)
    requires forall known <- listed :: '.' in known
    requires ServerDomain(email).Some? && Trimmed(ServerDomain(email).value)
    ensures var domain := ServerDomain(email).value;
            && (ServerListed(domain, listed) <==> DottedSuffix(domain, listed))
            && (IsPersonal(domain, listed, {}) <==> ServerListed(domain, listed))
  {
    ServerDomainIsLower(email);
    TrimOfTrimmed(ServerDomain(email).value, IsJsSpace);
    hide ServerDomain, TrimBy, Lower;
  }

  /** An entry stands for itself and for what ends in it after a dot, and not for what
      merely ends in the same letters. */
  lemma OnlySubdomainsAreListed(prefix: string, known: string)
    requires '.' in known
    ensures ServerListed(prefix + known, {known}) <==> prefix == "" || Last(prefix) == '.'
  {
    var domain := prefix + known;
    if prefix == "" {
      assert domain == known;
    } else {
      assert domain != known;
      assert domain[|prefix| - 1..] == [Last(prefix)] + known;
      assert ([Last(prefix)] + known)[0] == Last(prefix) && ("." + known)[0] == '.';
    }
  }

  /** An entry of one label is where they differ: the loop never tries it. */
  lemma OneLabelIsNeverTried(known: string)
    requires '.' !in known
    ensures DottedSuffix("x." + known, {known}) && !ServerListed("x." + known, {known})
  {
    assert ("x." + known)[1..] == "." + known;
    assert ("x." + known)[1] == '.';
  }

  lemma {:induction false} LongerThanAll(listed: set<string>) returns (n: nat)
    ensures forall known <- listed :: |known| < n
  {
    n := 0;
    if listed != {} {
      var x :| x in listed;
      var rest := LongerThanAll(listed - {x});
      n := if rest > |x| then rest else |x| + 1;
      assert forall known <- listed :: known == x || known in listed - {x};
    }
  }

  /** In a domain of two labels only the last follows a dot. */
  lemma OneDottedEnd(first: string, known: string, other: string)
    requires '.' !in first && '.' !in known && EndsWith(first + ("." + known), "." + other)
    ensures other == known
  {
    var domain := first + ("." + known);
    var at := |domain| - |other| - 1;
    assert domain[at] == ("." + other)[0];
    assert domain[at..][1..] == other && domain[|first|..][1..] == known;
  }

  /** A domain of two labels, the last of them `known`, and longer than any entry. */
  lemma LongDomainSeparates(known: string, listed: set<string>, domain: string, n: nat)
    requires known in listed && '.' !in known && (forall other <- listed :: |other| < n)
    requires domain == seq(n, _ => 'x') + ("." + known)
    ensures DottedSuffix(domain, listed) && !ServerListed(domain, listed)
  {
    assert EndsWith(domain, "." + known);
    forall other <- listed | EndsWith(domain, "." + other) ensures other == known {
      OneDottedEnd(seq(n, _ => 'x'), known, other);
    }
  }

  /** The loop and the dotted-suffix test agree on every domain, if and only if every
      entry has at least two labels. */
  lemma RulesAgreeExactly(listed: set<string>)
    ensures (forall domain :: ServerListed(domain, listed) <==> DottedSuffix(domain, listed))
            <==> forall known <- listed :: '.' in known
  {
    if known :| known in listed && '.' !in known {
      var n := LongerThanAll(listed);
      var domain: string := seq(n, _ => 'x') + ("." + known);
      LongDomainSeparates(known, listed, domain, n);
    }
  }
}
