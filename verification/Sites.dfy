/** Grouping host names into sites. Hosts are ASCII where case and digits matter. */
module Sites {
  import opened Text

  /** Two-label public suffixes under which a third label is kept. */
  const MULTI_SUFFIXES: set<string> := {
    "co.uk", "org.uk", "me.uk", "ac.uk", "gov.uk", "co.jp", "ne.jp", "or.jp",
    "ac.jp", "go.jp", "com.cn", "net.cn", "org.cn", "gov.cn", "edu.cn",
    "com.hk", "org.hk", "com.tw", "org.tw", "co.kr", "or.kr", "com.au",
    "net.au", "org.au", "com.br", "com.mx", "com.ar", "com.sg", "com.my",
    "co.in", "co.id", "co.th", "com.tr", "com.vn", "co.nz", "co.za",
    "com.ua", "co.il", "com.sa", "com.ph", "com.pk", "com.eg"
  }

  // ---------------------------------------------------------------- normalizing

  function LowerChar(c: char): char {
    if 'A' <= c <= 'Z' then c - 'A' + 'a' else c
  }

  function Lower(s: string): (t: string)
    ensures |t| == |s| && forall i | 0 <= i < |s| :: t[i] == LowerChar(s[i])
  {
    if s == "" then "" else [LowerChar(s[0])] + Lower(s[1..])
  }

  function StripLeft(s: string): (t: string)
    ensures |t| <= |s| && t == s[|s| - |t|..]
    ensures t != "" ==> t[0] != '.'
  {
    if s != "" && s[0] == '.' then StripLeft(s[1..]) else s
  }

  function StripRight(s: string): (t: string)
    ensures t <= s
    ensures t != "" ==> t[|t| - 1] != '.'
  {
    if s != "" && s[|s| - 1] == '.' then StripRight(s[..|s| - 1]) else s
  }

  /** The host without surrounding dots, in lower case. */
  function Canonical(host: string): (h: string)
    ensures |h| <= |host|
    ensures h != "" ==> h[0] != '.' && h[|h| - 1] != '.'
  {
    var l := StripLeft(host);
    var r := StripRight(l);
    assert r != "" ==> r[0] == l[0];
    Lower(r)
  }

  predicate IsCanonical(h: string) {
    && (h != "" ==> h[0] != '.' && h[|h| - 1] != '.')
    && forall i | 0 <= i < |h| :: LowerChar(h[i]) == h[i]
  }

  lemma {:induction false} CanonicalIsFixed(h: string)
    requires IsCanonical(h)
    ensures Canonical(h) == h
  {
    assert StripLeft(h) == h && StripRight(h) == h;
  }

  lemma {:induction false} CanonicalIsCanonical(host: string)
    ensures IsCanonical(Canonical(host))
  {
  }

  // ---------------------------------------------------------------- the site of a host

  predicate Octet(part: string) {
    1 <= |part| <= 3 && forall i | 0 <= i < |part| :: IsDigit(part[i])
  }

  predicate LooksLikeIPv4(h: string) {
    var parts := Split(h, '.');
    |parts| == 4 && Octet(parts[0]) && Octet(parts[1]) && Octet(parts[2]) && Octet(parts[3])
  }

  /** The empty name and addresses are their own site. */
  predicate IsWhole(h: string) {
    h == "" || LooksLikeIPv4(h) || ':' in h
  }

  /** How many labels of a host with these the site keeps, three under a two-label public suffix. */
  function Kept(parts: seq<string>, suffixes: set<string>): (n: nat)
    requires parts != []
    ensures 1 <= n <= |parts|
  {
    if |parts| <= 2 then |parts|
    else if Join(parts[|parts| - 2..], '.') in suffixes then 3
    else 2
  }

  /** The site of a host with these labels. */
  function SiteOfLabels(parts: seq<string>, suffixes: set<string>): string
    requires parts != []
  {
    Join(parts[|parts| - Kept(parts, suffixes)..], '.')
  }

  function SiteOf(h: string, suffixes: set<string>): string {
    if IsWhole(h) then h else SiteOfLabels(Split(h, '.'), suffixes)
  }

  function RegistrableDomain(host: string, suffixes: set<string>): string {
    SiteOf(Canonical(host), suffixes)
  }

  /** The site of a host under the suffixes above. */
  function SiteFor(host: string): string {
    RegistrableDomain(host, MULTI_SUFFIXES)
  }

  // ---------------------------------------------------------------- splitting at a label

  lemma {:induction false} JoinConcat(a: seq<string>, b: seq<string>, sep: char)
    requires a != [] && b != []
    ensures Join(a + b, sep) == Join(a, sep) + [sep] + Join(b, sep)
  {
    if |a| == 1 {
      assert (a + b)[1..] == b;
    } else {
      assert (a + b)[1..] == a[1..] + b;
      JoinConcat(a[1..], b, sep);
    }
  }

  /** The last `n` labels of a canonical host are the host, or follow a dot in it. */
  lemma {:induction false} Tail(h: string, n: nat)
    requires 1 <= n <= |Split(h, '.')|
    ensures var parts := Split(h, '.');
            var r := Join(parts[|parts| - n..], '.');
            && Split(r, '.') == parts[|parts| - n..] && |r| <= |h| && r == h[|h| - |r|..]
            && (if n == |parts| then r == h else |r| < |h| && h[|h| - |r| - 1] == '.')
  {
    var parts := Split(h, '.');
    var keep := parts[|parts| - n..];
    SplitJoin(keep, '.');
    JoinSplit(h, '.');
    if n == |parts| {
      assert keep == parts;
    } else {
      assert parts == parts[..|parts| - n] + keep;
      JoinConcat(parts[..|parts| - n], keep, '.');
    }
  }

  lemma {:induction false} SplitStart(s: string)
    ensures Split(s, '.')[0] == "" <==> s == "" || s[0] == '.'
  {
  }

  /** `r` is `h`, or two or three labels that follow a dot at its end. */
  predicate AlignedSuffix(r: string, h: string) {
    && |r| <= |h| && r == h[|h| - |r|..]
    && (r != h ==> 2 <= |Split(r, '.')| <= 3 && |r| < |h| && h[|h| - |r| - 1] == '.')
  }

  lemma {:induction false} SiteOfLabelsIsASuffix(h: string, suffixes: set<string>)
    ensures var r := SiteOfLabels(Split(h, '.'), suffixes);
            AlignedSuffix(r, h) && (r in suffixes && |Split(r, '.')| == 2 ==> r == h)
  {
    var parts := Split(h, '.');
    var n := Kept(parts, suffixes);
    var r := SiteOfLabels(parts, suffixes);
    Tail(h, n);
    assert |Split(r, '.')| == n;
    assert n == 2 && |parts| > 2 ==> r !in suffixes;
  }

  lemma {:induction false} SiteOfIsASuffix(h: string, suffixes: set<string>)
    ensures AlignedSuffix(SiteOf(h, suffixes), h)
    ensures SiteOf(h, suffixes) in suffixes && |Split(SiteOf(h, suffixes), '.')| == 2 ==> SiteOf(h, suffixes) == h
  {
    if !IsWhole(h) {
      SiteOfLabelsIsASuffix(h, suffixes);
    }
  }

  /** The site is the canonical host, or a label-aligned suffix of it of two or three labels. */
  lemma {:induction false} SiteIsASuffix(host: string, suffixes: set<string>)
    ensures AlignedSuffix(RegistrableDomain(host, suffixes), Canonical(host))
  {
    SiteOfIsASuffix(Canonical(host), suffixes);
  }

  /** A site is never a bare public suffix, unless that is the whole host. */
  lemma {:induction false} NeverABareSuffix(host: string, suffixes: set<string>)
    ensures var r := RegistrableDomain(host, suffixes);
            r in suffixes && |Split(r, '.')| == 2 ==> r == Canonical(host)
  {
    SiteOfIsASuffix(Canonical(host), suffixes);
  }

  // ---------------------------------------------------------------- idempotence

  /** The labels kept of a host begin with an empty one. */
  predicate KeepsEmpty(h: string, suffixes: set<string>) {
    && !IsWhole(h)
    && var parts := Split(h, '.'); parts[|parts| - Kept(parts, suffixes)] == ""
  }

  predicate KeepsEmptyLabel(host: string, suffixes: set<string>) {
    KeepsEmpty(Canonical(host), suffixes)
  }

  lemma {:induction false} KeptIsStable(parts: seq<string>, suffixes: set<string>)
    requires parts != []
    ensures var keep := parts[|parts| - Kept(parts, suffixes)..]; keep[|keep| - Kept(keep, suffixes)..] == keep
  {
    var n := Kept(parts, suffixes);
    if n == 3 && |parts| > 2 {
      assert parts[|parts| - 3..][1..] == parts[|parts| - 2..];
    }
  }

  lemma {:induction false} SiteOfSite(h: string, suffixes: set<string>)
    requires IsCanonical(h) && !KeepsEmpty(h, suffixes)
    ensures SiteOf(SiteOf(h, suffixes), suffixes) == SiteOf(h, suffixes) && IsCanonical(SiteOf(h, suffixes))
  {
    if !IsWhole(h) {
      var parts := Split(h, '.');
      var r := SiteOf(h, suffixes);
      Tail(h, Kept(parts, suffixes));
      SplitStart(r);
      KeptIsStable(parts, suffixes);
      SuffixIsCanonical(h, r);
    }
  }

  lemma {:induction false} SuffixIsCanonical(h: string, r: string)
    requires IsCanonical(h) && |r| <= |h| && r == h[|h| - |r|..] && (r != "" ==> r[0] != '.')
    ensures IsCanonical(r)
  {
  }

  lemma {:induction false} EmptyLabelLeads(h: string, suffixes: set<string>)
    requires IsCanonical(h) && KeepsEmpty(h, suffixes)
    ensures SiteOf(h, suffixes) != "" && SiteOf(h, suffixes)[0] == '.'
  {
    Tail(h, Kept(Split(h, '.'), suffixes));
    SplitStart(SiteOf(h, suffixes));
    SplitStart(h);
  }

  /** Taking the site of a site changes nothing, exactly unless the kept suffix begins with an
      empty label. */
  lemma {:induction false} IdempotentUnlessEmptyLabel(host: string, suffixes: set<string>)
    ensures RegistrableDomain(RegistrableDomain(host, suffixes), suffixes) == RegistrableDomain(host, suffixes)
            <==> !KeepsEmptyLabel(host, suffixes)
  {
    var h := Canonical(host);
    var r := SiteOf(h, suffixes);
    CanonicalIsCanonical(host);
    if KeepsEmpty(h, suffixes) {
      EmptyLabelLeads(h, suffixes);
      CanonicalIsCanonical(r);
      SiteOfIsASuffix(Canonical(r), suffixes);
      StartsNoDot(Canonical(r), SiteOf(Canonical(r), suffixes), r);
    } else {
      SiteOfSite(h, suffixes);
      CanonicalIsFixed(r);
    }
  }

  lemma {:induction false} StartsNoDot(c: string, t: string, r: string)
    requires AlignedSuffix(t, c) && r != "" && r[0] == '.' && |c| <= |r| && (c != "" ==> c[0] != '.')
    ensures t != r
  {
    assert |t| == |r| ==> t == c;
  }

  lemma {:induction false} JoinTwo(a: string, b: string)
    ensures Join([a, b], '.') == a + "." + b
  {
    assert [a, b][1..] == [b];
  }

  lemma {:induction false} SplitOfDotted()
    ensures Split("a..com", '.') == ["a", "", "com"] && Join(["", "com"], '.') == ".com" && Split("com", '.') == ["com"]
  {
    var parts := ["a", "", "com"];
    JoinTwo("", "com");
    assert parts[1..] == ["", "com"];
    assert Join(parts, '.') == "a" + ['.'] + ".com" == "a..com";
    SplitJoin(parts, '.');
    SplitPrefix("com", "", '.');
    assert "com" + "" == "com";
  }

  lemma {:induction false} SiteOfThree(h: string, parts: seq<string>, suffixes: set<string>)
    requires h != "" && ':' !in h && Split(h, '.') == parts && |parts| == 3 && Join(parts[1..], '.') !in suffixes
    ensures SiteOf(h, suffixes) == Join(parts[1..], '.')
  {
  }

  lemma {:induction false} SiteOfOne(h: string, suffixes: set<string>)
    requires Split(h, '.') == [h]
    ensures SiteOf(h, suffixes) == h
  {
    assert [h][0..] == [h];
  }

  /** It is not idempotent in general: of the site of this host, the site is another. */
  lemma {:induction false} EmptyLabelChangesTheSite(suffixes: set<string>)
    requires ".com" !in suffixes
    ensures RegistrableDomain("a..com", suffixes) == ".com" && RegistrableDomain(".com", suffixes) == "com"
  {
    hide SiteOf, Split, Join, Canonical;
    SplitOfDotted();
    CanonicalIsFixed("a..com");
    assert ["a", "", "com"][1..] == ["", "com"];
    SiteOfThree("a..com", ["a", "", "com"], suffixes);
    CanonicalOfDotted("com");
    assert "." + "com" == ".com";
    SiteOfOne("com", suffixes);
  }

  lemma {:induction false} CanonicalOfDotted(h: string)
    requires IsCanonical(h) && h != ""
    ensures Canonical("." + h) == h
  {
    assert ("." + h)[1..] == h && StripLeft(h) == h;
    CanonicalIsFixed(h);
  }

  /** So it is idempotent on hosts without empty labels. */
  lemma {:induction false} IdempotentWithoutEmptyLabels(host: string, suffixes: set<string>)
    requires "" !in Split(Canonical(host), '.')
    ensures RegistrableDomain(RegistrableDomain(host, suffixes), suffixes) == RegistrableDomain(host, suffixes)
  {
    IdempotentUnlessEmptyLabel(host, suffixes);
  }

  // ---------------------------------------------------------------- subdomains

  lemma {:induction false} SplitSubdomain(part: string, h: string)
    requires '.' !in part
    ensures Split(part + "." + h, '.') == [part] + Split(h, '.')
  {
    assert part + "." + h == part + ("." + h);
    SplitPrefix(part, "." + h, '.');
    assert ("." + h)[1..] == h && part + "" == part;
  }

  lemma {:induction false} KeptOfSubdomain(part: string, parts: seq<string>, suffixes: set<string>)
    requires parts != []
    ensures var all := [part] + parts;
            var n := Kept(all, suffixes);
            if |parts| >= 3 || (|parts| == 2 && Join(parts, '.') !in suffixes)
            then n <= |parts| && all[|all| - n..] == parts[|parts| - Kept(parts, suffixes)..]
            else n == |all|
  {
    var all := [part] + parts;
    if |parts| >= 2 {
      assert all[|all| - 2..] == parts[|parts| - 2..];
      assert |parts| == 2 ==> parts[|parts| - 2..] == parts;
      assert |parts| >= 3 ==> all[|all| - 3..] == parts[|parts| - 3..];
    }
  }

  lemma {:induction false} SiteOfMoreLabels(part: string, parts: seq<string>, suffixes: set<string>)
    requires parts != []
    ensures SiteOfLabels([part] + parts, suffixes)
         == if |parts| >= 3 || (|parts| == 2 && Join(parts, '.') !in suffixes) then SiteOfLabels(parts, suffixes)
           else Join([part] + parts, '.')
  {
    KeptOfSubdomain(part, parts, suffixes);
    assert ([part] + parts)[0..] == [part] + parts;
  }

  /** A subdomain belongs to its parent's site, except directly under a public suffix (where
      it begins a site of its own) or under a single label. */
  lemma {:induction false} SubdomainsShareTheSite(part: string, h: string, suffixes: set<string>)
    requires !IsWhole(h) && '.' !in part && !IsWhole(part + "." + h)
    ensures SiteOf(part + "." + h, suffixes) == SiteOf(h, suffixes)
       <==> |Split(h, '.')| >= 3 || (|Split(h, '.')| == 2 && h !in suffixes)
  {
    var g := part + "." + h;
    SplitSubdomain(part, h);
    JoinSplit(g, '.');
    JoinSplit(h, '.');
    SiteOfMoreLabels(part, Split(h, '.'), suffixes);
    Tail(h, Kept(Split(h, '.'), suffixes));
    assert |g| > |h|;
  }

  // ---------------------------------------------------------------- sites spelled out

  predicate DigitGroup(part: string) {
    (|part| == 1 || |part| == 2 || |part| == 3) && forall i | 0 <= i < |part| :: '0' <= part[i] <= '9'
  }

  /** Four groups of one to three digits are an address, whatever their values, and their own site. */
  lemma {:induction false} AddressesAreWhole(a: string, b: string, c: string, d: string, suffixes: set<string>)
    requires DigitGroup(a) && DigitGroup(b) && DigitGroup(c) && DigitGroup(d)
    ensures SiteOf(Join([a, b, c, d], '.'), suffixes) == Join([a, b, c, d], '.')
  {
    SplitJoin([a, b, c, d], '.');
  }

  /** So is anything with a colon, and a name of one or two labels. */
  lemma {:induction false} ShortIsWhole(h: string, suffixes: set<string>)
    ensures ':' in h || |Split(h, '.')| <= 2 ==> SiteOf(h, suffixes) == h
  {
    JoinSplit(h, '.');
    assert Split(h, '.')[0..] == Split(h, '.');
  }

  /** Any other name keeps its last two labels, or three if the last two are a public suffix. */
  lemma {:induction false} NamesKeepTwoOrThree(rest: seq<string>, c: string, b: string, a: string,
                                               suffixes: set<string>)
    requires forall i | 0 <= i < |rest| :: '.' !in rest[i]
    requires '.' !in c && '.' !in b && '.' !in a && ':' !in Join(rest + [c, b, a], '.')
    requires |rest| == 1 ==> !DigitGroup(rest[0]) || !DigitGroup(c) || !DigitGroup(b) || !DigitGroup(a)
    ensures SiteOf(Join(rest + [c, b, a], '.'), suffixes)
         == if b + "." + a in suffixes then c + "." + b + "." + a else b + "." + a
  {
    var parts := rest + [c, b, a];
    SplitJoin(parts, '.');
    LastOfThree(rest, c, b, a);
    hide Split, Join;
    assert |rest| == 1 ==> parts[0] == rest[0] && parts[1] == c && parts[2] == b && parts[3] == a;
  }

  lemma {:induction false} LastOfThree(rest: seq<string>, c: string, b: string, a: string)
    ensures var parts := rest + [c, b, a];
            && Join(parts[|parts| - 2..], '.') == b + "." + a
            && Join(parts[|parts| - 3..], '.') == c + "." + b + "." + a
            && Join(parts, '.') != ""
  {
    var parts := rest + [c, b, a];
    JoinTwo(b, a);
    assert parts[|parts| - 2..] == [b, a] && parts[|parts| - 3..] == [c, b, a] && [c, b, a][1..] == [b, a];
    assert Join([c, b, a], '.') == c + "." + (b + "." + a);
    assert c + "." + (b + "." + a) == c + "." + b + "." + a;
  }

  /** However it is written, with dots around it or capitals, a host has the same site. */
  lemma {:induction false} SpellingDoesNotMatter(host: string, other: string, suffixes: set<string>)
    ensures RegistrableDomain("." + host, suffixes) == RegistrableDomain(host, suffixes)
    ensures RegistrableDomain(host + ".", suffixes) == RegistrableDomain(host, suffixes)
    ensures AsciiLower(host) == AsciiLower(other) ==>
              RegistrableDomain(host, suffixes) == RegistrableDomain(other, suffixes)
  {
    hide StripRight, Lower, SiteOf;
    assert ("." + host)[1..] == host;
    StripLeftThenDot(host);
    if AsciiLower(host) == AsciiLower(other) {
      StripsAlike(host, other);
    }
  }

  lemma {:induction false} RightOfDot(s: string)
    ensures StripRight(s + ".") == StripRight(s)
  {
    assert (s + ".")[..|s|] == s;
  }

  lemma {:induction false} LeftOfDot(s: string)
    requires s != "" && s[0] != '.'
    ensures StripLeft(s) == s && StripLeft(s + ".") == s + "."
  {
  }

  lemma {:induction false} StripLeftThenDot(host: string)
    ensures StripRight(StripLeft(host + ".")) == StripRight(StripLeft(host))
  {
    hide StripRight;
    if host == "" {
      assert host + "." == "." && StripLeft(".") == StripLeft("");
    } else if host[0] == '.' {
      assert (host + ".")[1..] == host[1..] + ".";
      StripLeftThenDot(host[1..]);
    } else {
      LeftOfDot(host);
      RightOfDot(host);
    }
  }

  lemma {:induction false} SameLength(a: string, b: string)
    requires AsciiLower(a) == AsciiLower(b)
    ensures |a| == |b| && forall i | 0 <= i < |a| :: LowerChar(a[i]) == LowerChar(b[i])
  {
    forall i | 0 <= i < |a| ensures LowerChar(a[i]) == LowerChar(b[i]) {
      assert AsciiLower(a)[i] == AsciiLower(b)[i];
    }
  }

  predicate Alike(a: string, b: string) {
    |a| == |b| && forall i | 0 <= i < |a| :: LowerChar(a[i]) == LowerChar(b[i])
  }

  lemma {:induction false} LeftAlike(a: string, b: string)
    requires Alike(a, b)
    ensures Alike(StripLeft(a), StripLeft(b))
  {
    if a != "" && a[0] == '.' {
      LeftAlike(a[1..], b[1..]);
    }
  }

  lemma {:induction false} RightAlike(a: string, b: string)
    requires Alike(a, b)
    ensures Alike(StripRight(a), StripRight(b))
  {
    if a != "" && a[|a| - 1] == '.' {
      RightAlike(a[..|a| - 1], b[..|b| - 1]);
    }
  }

  lemma {:induction false} StripsAlike(a: string, b: string)
    requires AsciiLower(a) == AsciiLower(b)
    ensures Canonical(a) == Canonical(b)
  {
    SameLength(a, b);
    LeftAlike(a, b);
    RightAlike(StripLeft(a), StripLeft(b));
  }

  lemma {:induction false} ListedSuffix()
    ensures "co.uk" in MULTI_SUFFIXES
  {
  }

  /** For instance, under the script's list. */
  lemma {:induction false} BritishHost()
    ensures SiteFor(Join(["www", "bbc", "co", "uk"], '.')) == "bbc" + "." + "co" + "." + "uk"
  {
    var host := Join(["www", "bbc", "co", "uk"], '.');
    hide MULTI_SUFFIXES, SiteOf;
    ListedSuffix();
    assert "co" + "." + "uk" == "co.uk";
    assert ["www"] + ["bbc", "co", "uk"] == ["www", "bbc", "co", "uk"];
    BritishText();
    NamesKeepTwoOrThree(["www"], "bbc", "co", "uk", MULTI_SUFFIXES);
    CanonicalIsFixed(host);
  }

  lemma {:induction false} JoinOfFour(a: string, b: string, c: string, d: string)
    ensures Join([a, b, c, d], '.') == a + "." + (b + "." + (c + "." + d))
  {
    assert [a, b, c, d][1..] == [b, c, d] && [b, c, d][1..] == [c, d];
    JoinTwo(c, d);
  }

  lemma {:induction false} BritishText()
    ensures Join(["www", "bbc", "co", "uk"], '.') == "www.bbc.co.uk" && IsCanonical("www.bbc.co.uk")
    ensures ':' !in "www.bbc.co.uk" && !DigitGroup("www")
    ensures forall c | c in {"www", "bbc", "co", "uk"} :: '.' !in c
  {
    JoinOfFour("www", "bbc", "co", "uk");
    BritishLabels();
    hide Join, IsCanonical;
    assert "www" + "." + ("bbc" + "." + ("co" + "." + "uk")) == "www.bbc.co.uk";
  }

  lemma {:induction false} BritishLabels()
    ensures IsCanonical("www.bbc.co.uk") && ':' !in "www.bbc.co.uk" && !DigitGroup("www")
    ensures forall c | c in {"www", "bbc", "co", "uk"} :: '.' !in c
  {
  }
}
