/** Reader and writer agree; writing twice is writing once; nothing else moves. */
module SshConfigLaws {
  import opened Common
  import opened Text
  import opened SshConfig

  // ---------------------------------------------------------------- on directives

  /** `ds'` is `ds` with the hits of `alias` given the value `ip`. */
  ghost predicate Repoints(ds: seq<Directive>, ds': seq<Directive>, alias: string, ip: string) {
    && |ds'| == |ds|
    && (forall i | 0 <= i < |ds| :: ds'[i] == if HitAt(ds, i, alias) then HostName(ip) else ds[i])
  }

  /** Repointing changes no block: every alias is in the same blocks as before. */
  lemma {:induction false} SameBlocks(ds: seq<Directive>, ds': seq<Directive>, alias: string, ip: string, b: string,
                                      i: nat)
    requires Repoints(ds, ds', alias, ip) && i <= |ds|
    ensures InBlockAt(ds', i, b) == InBlockAt(ds, i, b)
  {
    if i > 0 {
      SameBlocks(ds, ds', alias, ip, b, i - 1);
    }
  }

  /** A line inside blocks of two aliases lies under a Host line that lists both. */
  lemma {:induction false} SharedBlock(ds: seq<Directive>, i: nat, a: string, b: string)
    requires i <= |ds| && InBlockAt(ds, i, a) && InBlockAt(ds, i, b)
    ensures exists k :: 0 <= k < i && Lists(ds[k], a) && Lists(ds[k], b)
  {
    if !ds[i - 1].Host? {
      SharedBlock(ds, i - 1, a, b);
    }
  }

  /** What the reader finds from line `i` on, having found nothing before it. */
  lemma {:induction false} ReadsFirstHit(ds: seq<Directive>, i: nat, alias: string)
    requires i <= |ds|
    ensures var r := ReadFrom(ds[i..], InBlockAt(ds, i, alias), alias);
            if r.None? then forall k | i <= k < |ds| :: !HitAt(ds, k, alias)
            else exists f :: i <= f < |ds| && HitAt(ds, f, alias) && r == Some(ds[f].value)
                          && forall k | i <= k < f :: !HitAt(ds, k, alias)
    decreases |ds| - i
  {
    if i < |ds| {
      assert ds[i..][0] == ds[i] && ds[i..][1..] == ds[i + 1..];
      ReadsFirstHit(ds, i + 1, alias);
      if HitAt(ds, i, alias) {
        assert ReadFrom(ds[i..], InBlockAt(ds, i, alias), alias) == Some(ds[i].value);
      } else {
        assert ReadFrom(ds[i..], InBlockAt(ds, i, alias), alias)
               == ReadFrom(ds[i + 1..], InBlockAt(ds, i + 1, alias), alias);
      }
    }
  }

  lemma {:induction false} ReadMeans(ds: seq<Directive>, alias: string)
    ensures var r := ReadFrom(ds, false, alias);
            if r.None? then forall k | 0 <= k < |ds| :: !HitAt(ds, k, alias)
            else exists f :: 0 <= f < |ds| && HitAt(ds, f, alias) && r == Some(ds[f].value)
                          && forall k | 0 <= k < f :: !HitAt(ds, k, alias)
    ensures ReadFrom(ds, false, alias).Some? <==> AnyHit(ds, alias)
  {
    ReadsFirstHit(ds, 0, alias);
    assert ds[0..] == ds;
    AnyHitMeans(ds, |ds|, alias);
  }

  /** Two files with the same hits of the same values read the same. */
  lemma {:induction false} SameHitsSameRead(ds: seq<Directive>, ds': seq<Directive>, alias: string)
    requires |ds'| == |ds|
    requires forall i | 0 <= i < |ds| :: HitAt(ds', i, alias) == HitAt(ds, i, alias)
    requires forall i | 0 <= i < |ds| && HitAt(ds, i, alias) :: ds'[i] == ds[i]
    ensures ReadFrom(ds', false, alias) == ReadFrom(ds, false, alias)
  {
    ReadMeans(ds, alias);
    ReadMeans(ds', alias);
  }

  /** A HostName put right under a Host line is read by the aliases of that line that had
      none, and by no alias that the line does not list. */
  lemma {:induction false} ReadsInserted(ds: seq<Directive>, k: nat, v: string, listed: bool, alias: string)
    requires 0 < k <= |ds| && ds[k - 1].Host?
    ensures !Lists(ds[k - 1], alias) ==>
      ReadFrom(InsertAt(ds, k, HostName(v)), listed, alias) == ReadFrom(ds, listed, alias)
    ensures Lists(ds[k - 1], alias) && ReadFrom(ds, listed, alias).None? ==>
      ReadFrom(InsertAt(ds, k, HostName(v)), listed, alias) == Some(v)
  {
    var ds' := InsertAt(ds, k, HostName(v));
    assert ds'[0] == ds[0];
    if k == 1 {
      assert ds'[1..] == [HostName(v)] + ds[1..];
      assert ds'[1..][0] == HostName(v) && ds'[1..][1..] == ds[1..];
    } else {
      assert ds'[1..] == InsertAt(ds[1..], k - 1, HostName(v));
      var d := ds[0];
      ReadsInserted(ds[1..], k - 1, v, if d.Host? then Lists(d, alias) else listed, alias);
    }
  }

  /** Inserted under the last listing of an alias without hits, the new line is its only hit. */
  lemma {:induction false} OnlyHit(ds: seq<Directive>, alias: string, v: string, i: nat)
    requires !AnyHit(ds, alias) && LastListing(ds, alias) >= 0
    requires i <= |ds| + 1
    ensures var h := LastListing(ds, alias);
            var ds' := InsertAt(ds, h + 1, HostName(v));
            && InBlockAt(ds', i, alias) == (i <= h + 1 && InBlockAt(ds, i, alias))
            && (i < |ds'| ==> (HitAt(ds', i, alias) <==> i == h + 1))
  {
    var h := LastListing(ds, alias);
    var ds' := InsertAt(ds, h + 1, HostName(v));
    LastListingMeans(ds, |ds|, alias);
    AnyHitMeans(ds, |ds|, alias);
    if i > 0 {
      OnlyHit(ds, alias, v, i - 1);
    }
    assert InBlockAt(ds, h + 1, alias);
    if i < |ds| {
      assert !HitAt(ds, i, alias);
    }
  }

  // ---------------------------------------------------------------- on lines

  predicate Lineful(lines: seq<string>) {
    lines != [] && forall i | 0 <= i < |lines| :: '\n' !in lines[i]
  }

  lemma {:induction false} RepointedDirectives(lines: seq<string>, alias: string, ip: string)
    requires Token(ip)
    ensures Repoints(ParseAll(lines), ParseAll(Repointed(lines, alias, ip)), alias, ip)
  {
    var ds, out := ParseAll(lines), Repointed(lines, alias, ip);
    forall i | 0 <= i < |lines|
      ensures ParseAll(out)[i] == if HitAt(ds, i, alias) then HostName(ip) else ds[i]
    {
      RepointedAt(lines, i, alias, ip);
      ParseAllAt(out, i);
      if HitAt(ds, i, alias) {
        ParseRepointed(lines[i], ip);
      }
    }
  }

  lemma {:induction false} MapInsert<T, U>(f: T -> U, xs: seq<T>, k: nat, x: T)
    requires k <= |xs|
    ensures Map(f, InsertAt(xs, k, x)) == InsertAt(Map(f, xs), k, f(x))
  {
    var xs' := InsertAt(xs, k, x);
    forall i | 0 <= i < |xs'|
      ensures Map(f, xs')[i] == InsertAt(Map(f, xs), k, f(x))[i]
    {
      MapAt(f, xs', i);
      if i < k {
        MapAt(f, xs, i);
      } else if i > k {
        MapAt(f, xs, i - 1);
      }
    }
  }

  /** The rewritten file still splits at the same places. */
  lemma {:induction false} RewriteIsLineful(lines: seq<string>, alias: string, ip: string)
    requires Lineful(lines) && Token(ip) && Rewrite(lines, alias, ip).Some?
    ensures Lineful(Rewrite(lines, alias, ip).value)
  {
    var r := Rewrite(lines, alias, ip).value;
    forall i | 0 <= i < |r|
      ensures '\n' !in r[i]
    {
      if AnyHit(ParseAll(lines), alias) {
        RepointedAt(lines, i, alias, ip);
        if r[i] != lines[i] {
          IndentIsBlank(lines[i]);
          assert Token(Fields(lines[i])[0]);
          assert forall c | c in r[i] :: c in Indent(lines[i]) || c in Fields(lines[i])[0] || c == ' ' || c in ip;
        }
      }
    }
  }

  /** The rewrite fails exactly when no Host line lists the alias. */
  lemma {:induction false} FailsIffUnlisted(lines: seq<string>, alias: string, ip: string)
    ensures Rewrite(lines, alias, ip).None? <==> forall i | 0 <= i < |lines| :: !Lists(Parse(lines[i]), alias)
  {
    var ds := ParseAll(lines);
    LastListingMeans(ds, |ds|, alias);
    AnyHitMeans(ds, |ds|, alias);
    forall i | 0 <= i < |lines|
      ensures ds[i] == Parse(lines[i])
    {
      ParseAllAt(lines, i);
    }
    if AnyHit(ds, alias) {
      var i :| 0 <= i < |ds| && HitAt(ds, i, alias);
      SharedBlock(ds, i, alias, alias);
    }
  }

  /** After a rewrite the alias reads as the new address. */
  lemma {:induction false} ReadBack(lines: seq<string>, alias: string, ip: string)
    requires Token(ip) && Rewrite(lines, alias, ip).Some?
    ensures ReadFrom(ParseAll(Rewrite(lines, alias, ip).value), false, alias) == Some(ip)
  {
    var ds := ParseAll(lines);
    ReadMeans(ds, alias);
    if AnyHit(ds, alias) {
      var ds' := ParseAll(Repointed(lines, alias, ip));
      RepointedDirectives(lines, alias, ip);
      forall i | 0 <= i < |ds|
        ensures HitAt(ds', i, alias) == HitAt(ds, i, alias)
      {
        SameBlocks(ds, ds', alias, ip, alias, i);
      }
      ReadMeans(ds', alias);
    } else {
      var h := LastListing(ds, alias);
      LastListingMeans(ds, |ds|, alias);
      ParseInserted(ip);
      MapInsert(Parse, lines, h + 1, Inserted(ip));
      ReadsInserted(ds, h + 1, ip, false, alias);
    }
  }

  /** An alias that shares no Host line with the rewritten one reads as before. */
  lemma {:induction false} OthersReadTheSame(lines: seq<string>, alias: string, ip: string, b: string)
    requires Token(ip) && Rewrite(lines, alias, ip).Some?
    requires forall i | 0 <= i < |lines| :: !(Lists(Parse(lines[i]), alias) && Lists(Parse(lines[i]), b))
    ensures ReadFrom(ParseAll(Rewrite(lines, alias, ip).value), false, b) == ReadFrom(ParseAll(lines), false, b)
  {
    var ds := ParseAll(lines);
    forall i | 0 <= i < |ds|
      ensures !(Lists(ds[i], alias) && Lists(ds[i], b))
    {
      ParseAllAt(lines, i);
    }
    if AnyHit(ds, alias) {
      var ds' := ParseAll(Repointed(lines, alias, ip));
      RepointedDirectives(lines, alias, ip);
      forall i | 0 <= i < |ds|
        ensures HitAt(ds', i, b) == HitAt(ds, i, b) && (HitAt(ds, i, b) ==> ds'[i] == ds[i])
      {
        SameBlocks(ds, ds', alias, ip, b, i);
        if HitAt(ds, i, b) && HitAt(ds, i, alias) {
          SharedBlock(ds, i, alias, b);
        }
      }
      SameHitsSameRead(ds, ds', b);
    } else {
      var h := LastListing(ds, alias);
      LastListingMeans(ds, |ds|, alias);
      ParseInserted(ip);
      MapInsert(Parse, lines, h + 1, Inserted(ip));
      ReadsInserted(ds, h + 1, ip, false, b);
    }
  }

  /** The second of two rewrites of an alias overwrites the first. */
  lemma {:induction false} OverwriteLines(lines: seq<string>, alias: string, x: string, y: string)
    requires Token(x) && Rewrite(lines, alias, x).Some?
    ensures Rewrite(Rewrite(lines, alias, x).value, alias, y) == Rewrite(lines, alias, y)
  {
    var ds := ParseAll(lines);
    AnyHitMeans(ds, |ds|, alias);
    var once := Rewrite(lines, alias, x).value;
    var ds' := ParseAll(once);
    AnyHitMeans(ds', |ds'|, alias);
    if AnyHit(ds, alias) {
      OverwriteHits(lines, alias, x, y);
      RepointedDirectives(lines, alias, x);
      var i :| 0 <= i < |ds| && HitAt(ds, i, alias);
      SameBlocks(ds, ds', alias, x, alias, i);
      assert HitAt(ds', i, alias);
    } else {
      OverwriteInserted(lines, alias, x, y);
    }
  }

  lemma {:induction false} OverwriteHits(lines: seq<string>, alias: string, x: string, y: string)
    requires Token(x)
    ensures Repointed(Repointed(lines, alias, x), alias, y) == Repointed(lines, alias, y)
  {
    var ds, once := ParseAll(lines), Repointed(lines, alias, x);
    RepointedDirectives(lines, alias, x);
    forall i | 0 <= i < |lines|
      ensures Repointed(once, alias, y)[i] == Repointed(lines, alias, y)[i]
    {
      SameBlocks(ds, ParseAll(once), alias, x, alias, i);
      RepointedAt(lines, i, alias, x);
      RepointedAt(lines, i, alias, y);
      RepointedAt(once, i, alias, y);
      if HitAt(ds, i, alias) {
        RepointTwice(lines[i], x, y);
      }
    }
  }

  /** The block where a missing HostName goes. */
  ghost predicate Gap(ds: seq<Directive>, alias: string, h: nat) {
    !AnyHit(ds, alias) && h == LastListing(ds, alias)
  }

  lemma {:induction false} HitOfInserted(lines: seq<string>, alias: string, h: nat, line: string, v: string, i: nat)
    requires Gap(ParseAll(lines), alias, h) && Parse(line) == HostName(v) && i <= |lines|
    ensures HitAt(ParseAll(InsertAt(lines, h + 1, line)), i, alias) <==> i == h + 1
  {
    hide Parse, Map, HitAt;
    MapInsert(Parse, lines, h + 1, line);
    OnlyHit(ParseAll(lines), alias, v, i);
  }

  lemma {:induction false} InsertedLineOverwritten(lines: seq<string>, alias: string, h: nat, one: string, v: string,
                                                   y: string, two: string)
    requires Gap(ParseAll(lines), alias, h) && Parse(one) == HostName(v) && Repoint(one, y) == two
    ensures Repointed(InsertAt(lines, h + 1, one), alias, y) == InsertAt(lines, h + 1, two)
    ensures AnyHit(ParseAll(InsertAt(lines, h + 1, one)), alias)
  {
    var once, twice := InsertAt(lines, h + 1, one), InsertAt(lines, h + 1, two);
    forall i | 0 <= i < |once|
      ensures Repointed(once, alias, y)[i] == twice[i]
    {
      HitOfInserted(lines, alias, h, one, v, i);
      if i == h + 1 {
        RepointedAt(once, i, alias, y);
      } else {
        RepointedMiss(once, i, alias, y);
      }
    }
    HitOfInserted(lines, alias, h, one, v, h + 1);
    AnyHitMeans(ParseAll(once), |once|, alias);
  }

  lemma {:induction false} OverwriteInserted(lines: seq<string>, alias: string, x: string, y: string)
    requires Token(x) && !AnyHit(ParseAll(lines), alias) && LastListing(ParseAll(lines), alias) >= 0
    ensures Rewrite(Rewrite(lines, alias, x).value, alias, y) == Rewrite(lines, alias, y)
  {
    ParseInserted(x);
    RepointInserted(x, y);
    InsertedLineOverwritten(lines, alias, LastListing(ParseAll(lines), alias), Inserted(x), x, y, Inserted(y));
  }

  // ---------------------------------------------------------------- on whole files

  lemma {:induction false} SplitOfSet(config: string, alias: string, ip: string)
    requires Token(ip) && SetHostName(config, alias, ip).Some?
    ensures Rewrite(Split(config, '\n'), alias, ip).Some?
    ensures Split(SetHostName(config, alias, ip).value, '\n') == Rewrite(Split(config, '\n'), alias, ip).value
  {
    RewriteIsLineful(Split(config, '\n'), alias, ip);
    SplitJoin(Rewrite(Split(config, '\n'), alias, ip).value, '\n');
  }

  /** Reader and writer agree. */
  lemma {:induction false} SetThenLookup(config: string, alias: string, ip: string)
    requires Token(ip)
    ensures SetHostName(config, alias, ip).None? <==>
      forall i | 0 <= i < |Split(config, '\n')| :: !Lists(Parse(Split(config, '\n')[i]), alias)
    ensures SetHostName(config, alias, ip).Some? ==> Lookup(SetHostName(config, alias, ip).value, alias) == Some(ip)
  {
    var lines := Split(config, '\n');
    FailsIffUnlisted(lines, alias, ip);
    if Rewrite(lines, alias, ip).Some? {
      RewriteIsLineful(lines, alias, ip);
      SplitOfSet(config, alias, ip);
      ReadBack(lines, alias, ip);
    }
  }

  /** Any alias that shares no Host line with the one set reads as before. */
  lemma {:induction false} SetKeepsOthers(config: string, alias: string, ip: string, b: string)
    requires Token(ip) && SetHostName(config, alias, ip).Some?
    requires !Share(Split(config, '\n'), alias, b)
    ensures Lookup(SetHostName(config, alias, ip).value, b) == Lookup(config, b)
  {
    SplitOfSet(config, alias, ip);
    OthersReadTheSame(Split(config, '\n'), alias, ip, b);
  }

  /** Setting twice is setting once, byte for byte; with y == x, setting is idempotent. */
  lemma {:induction false} SetOverwrites(config: string, alias: string, x: string, y: string)
    requires Token(x) && SetHostName(config, alias, x).Some?
    ensures SetHostName(SetHostName(config, alias, x).value, alias, y) == SetHostName(config, alias, y)
  {
    SplitOfSet(config, alias, x);
    OverwriteLines(Split(config, '\n'), alias, x, y);
  }

  lemma {:induction false} RewriteKeepsListing(lines: seq<string>, alias: string, ip: string, i: nat)
    requires i < |lines| && Lists(Parse(lines[i]), alias) && Rewrite(lines, alias, ip).Some?
    ensures lines[i] in Rewrite(lines, alias, ip).value
  {
    var now := Rewrite(lines, alias, ip).value;
    if AnyHit(ParseAll(lines), alias) {
      RepointedAt(lines, i, alias, ip);
      assert now[i] == lines[i];
    } else {
      var h := LastListing(ParseAll(lines), alias);
      assert now[if i <= h then i else i + 1] == lines[i];
    }
  }

  /** Whatever is written as the address, the alias can be rewritten again. */
  lemma {:induction false} SetCanBeRepeated(config: string, alias: string, x: string, y: string)
    requires SetHostName(config, alias, x).Some?
    ensures SetHostName(SetHostName(config, alias, x).value, alias, y).Some?
  {
    var lines := Split(config, '\n');
    FailsIffUnlisted(lines, alias, x);
    var i :| 0 <= i < |lines| && Lists(Parse(lines[i]), alias);
    RewriteKeepsListing(lines, alias, x, i);
    var now := Rewrite(lines, alias, x).value;
    var k :| 0 <= k < |now| && now[k] == lines[i];
    PartSurvives(now, k, '\n');
    var again := Split(SetHostName(config, alias, x).value, '\n');
    var m :| 0 <= m < |again| && again[m] == lines[i];
    FailsIffUnlisted(again, alias, y);
    RewriteIsSome(again, alias, y);
  }

  lemma {:induction false} RewriteIsSome(lines: seq<string>, alias: string, ip: string)
    requires Rewrite(lines, alias, ip).Some?
    ensures Rewrite(lines, alias, ip).value != []
  {
    LastListingMeans(ParseAll(lines), |lines|, alias);
  }

  // ---------------------------------------------------------------- a file written out

  /** A block of one Host line and one HostName, whatever the case of its keywords. */
  lemma {:induction false} SetInBlock(host: string, alias: string, indent: string, key: string, was: string, ip: string)
    requires Token(alias) && Token(was) && Token(ip) && Token(host) && Token(key)
    requires AsciiLower(host) == "host" && AsciiLower(key) == "hostname"
    requires forall i | 0 <= i < |indent| :: indent[i] == ' ' || indent[i] == '\t'
    ensures SetHostName(host + (" " + alias) + "\n" + (indent + key + " " + was), alias, ip)
         == Some(host + (" " + alias) + "\n" + (indent + key + " " + ip))
  {
    var first, second, third := host + (" " + alias), indent + key + " " + was, indent + key + " " + ip;
    FieldsOfTwo(host, alias);
    FieldsOfPair(indent, key, was);
    Keywords(first);
    Keywords(second);
    assert [host, alias][1..] == [alias];
    assert '\n' !in first && '\n' !in second;
    var lines := [first, second];
    SplitJoin(lines, '\n');
    assert Join(lines, '\n') == first + "\n" + second by {
      assert lines[1..] == [second];
    }
    ParseAllAt(lines, 0);
    ParseAllAt(lines, 1);
    var ds := ParseAll(lines);
    assert InBlockAt(ds, 1, alias) && HitAt(ds, 1, alias) && !HitAt(ds, 0, alias);
    AnyHitMeans(ds, 2, alias);
    RepointedAt(lines, 0, alias, ip);
    RepointedAt(lines, 1, alias, ip);
    Reassociate(indent, key, " ", was);
    IndentOf(indent, key + (" " + was));
    var now := Repointed(lines, alias, ip);
    assert now == [first, third];
    assert now[1..] == [third] && Join(now, '\n') == first + "\n" + third;
  }

  /** A block that has no HostName gets one, under its Host line. */
  lemma {:induction false} SetInEmptyBlock(host: string, alias: string, ip: string)
    requires Token(alias) && Token(ip) && Token(host) && AsciiLower(host) == "host"
    ensures SetHostName(host + (" " + alias), alias, ip)
         == Some(host + (" " + alias) + "\n" + ("    HostName " + ip))
  {
    var first := host + (" " + alias);
    FieldsOfTwo(host, alias);
    Keywords(first);
    assert [host, alias][1..] == [alias];
    assert '\n' !in first;
    SplitJoin([first], '\n');
    var lines := [first];
    ParseAllAt(lines, 0);
    var ds := ParseAll(lines);
    assert Lists(ds[0], alias) && !HitAt(ds, 0, alias);
    AnyHitMeans(ds, 1, alias);
    assert LastListing(ds, alias) == 0;
    var now := InsertAt(lines, 1, Inserted(ip));
    assert now == [first, Inserted(ip)] && now[1..] == [Inserted(ip)];
    assert Join(now, '\n') == first + "\n" + Inserted(ip);
  }

  lemma {:induction false} LowerCaseTokens()
    ensures Token("host") && Token("hostname") && Token("ghost-node") && Token("1.2.3.4") && Token("5.6.7.8")
    ensures AsciiLower("host") == "host" && AsciiLower("hostname") == "hostname"
  {
  }

  lemma {:induction false} LowerCaseText()
    ensures "host" + (" " + "ghost-node") == "host ghost-node"
    ensures "    " + "hostname" + " " + "1.2.3.4" == "    hostname 1.2.3.4"
    ensures "    " + "hostname" + " " + "5.6.7.8" == "    hostname 5.6.7.8"
  {
  }

  /** For instance a file all in lower case. */
  lemma {:induction false} LowerCaseFile()
    ensures SetHostName("host ghost-node" + "\n" + "    hostname 1.2.3.4", "ghost-node", "5.6.7.8")
         == Some("host ghost-node" + "\n" + "    hostname 5.6.7.8")
  {
    hide SetHostName, Token, AsciiLower;
    LowerCaseTokens();
    LowerCaseText();
    SetInBlock("host", "ghost-node", "    ", "hostname", "1.2.3.4", "5.6.7.8");
  }

  /** Some Host line lists both aliases. */
  ghost predicate Share(lines: seq<string>, a: string, b: string) {
    exists i :: 0 <= i < |lines| && Lists(Parse(lines[i]), a) && Lists(Parse(lines[i]), b)
  }

  /** A rewrite leaves every Host line alone: a line that lists an alias after it was there, or
      is a line of before. */
  lemma {:induction false} ListingIsOld(lines: seq<string>, alias: string, ip: string, i: nat, a: string)
    returns (k: nat)
    requires Token(ip) && Rewrite(lines, alias, ip).Some? && i < |Rewrite(lines, alias, ip).value|
    requires Lists(Parse(Rewrite(lines, alias, ip).value[i]), a)
    ensures k < |lines| && lines[k] == Rewrite(lines, alias, ip).value[i]
  {
    hide Split, Join, ReadFrom;
    if AnyHit(ParseAll(lines), alias) {
      k := i;
      RepointedAt(lines, i, alias, ip);
      if HitAt(ParseAll(lines), i, alias) {
        ParseRepointed(lines[i], ip);
        assert false;
      }
    } else {
      var h := LastListing(ParseAll(lines), alias);
      ParseInserted(ip);
      k := if i <= h then i else i - 1;
    }
  }

  lemma {:induction false} RewriteSharesNoMore(lines: seq<string>, alias: string, ip: string, a: string, b: string)
    requires Token(ip) && Rewrite(lines, alias, ip).Some? && Share(Rewrite(lines, alias, ip).value, a, b)
    ensures Share(lines, a, b)
  {
    hide Rewrite, Lists, Parse;
    var now := Rewrite(lines, alias, ip).value;
    var i :| 0 <= i < |now| && Lists(Parse(now[i]), a) && Lists(Parse(now[i]), b);
    var k := ListingIsOld(lines, alias, ip, i, a);
    assert Lists(Parse(lines[k]), a) && Lists(Parse(lines[k]), b);
  }

  lemma {:induction false} SetSharesNoMore(config: string, alias: string, ip: string, a: string, b: string)
    requires Token(ip) && SetHostName(config, alias, ip).Some?
    requires Share(Split(SetHostName(config, alias, ip).value, '\n'), a, b)
    ensures Share(Split(config, '\n'), a, b)
  {
    SplitOfSet(config, alias, ip);
    RewriteSharesNoMore(Split(config, '\n'), alias, ip, a, b);
  }

  /** Every other line survives byte for byte: the file is the joint of its lines, and its
      lines change only at hits, or by one line put under the last Host line of the alias. */
  lemma {:induction false} OtherLinesSurvive(config: string, alias: string, ip: string)
    requires Token(ip) && SetHostName(config, alias, ip).Some?
    ensures Join(Split(config, '\n'), '\n') == config
    ensures var was, now := Split(config, '\n'), Split(SetHostName(config, alias, ip).value, '\n');
            var ds := ParseAll(was);
            if AnyHit(ds, alias) then
              && |now| == |was|
              && forall i | 0 <= i < |was| ::
                   now[i] == if HitAt(ds, i, alias) then RepointedLine(was[i], true, ip) else was[i]
            else
              && |now| == |was| + 1
              && exists h :: 0 <= h < |was| && Lists(ds[h], alias) && (forall k | h < k < |was| :: !Lists(ds[k], alias))
                             && now == InsertAt(was, h + 1, Inserted(ip))
  {
    var was := Split(config, '\n');
    JoinSplit(config, '\n');
    SplitOfSet(config, alias, ip);
    var ds := ParseAll(was);
    if AnyHit(ds, alias) {
      forall i | 0 <= i < |was|
        ensures Repointed(was, alias, ip)[i] == if HitAt(ds, i, alias) then RepointedLine(was[i], true, ip) else was[i]
      {
        RepointedAt(was, i, alias, ip);
      }
    } else {
      var h := LastListing(ds, alias);
      LastListingMeans(ds, |ds|, alias);
      ParseAllAt(was, h);
    }
  }
}
