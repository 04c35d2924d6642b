/** The ssh_config editor: repoint one alias at a new address, leaving every other line
    byte for byte. A block runs from one `Host` line to the next. */
module SshConfig {
  import opened Common
  import opened Text

  // ---------------------------------------------------------------- lines

  /** What the editor sees in a line: a Host line and the names on it, a HostName with a
      value, or anything else. */
  datatype Directive = Host(names: seq<string>) | HostName(value: string) | Other

  function Parse(line: string): Directive {
    var fields := Fields(line);
    if fields != [] && EqualFold(fields[0], "Host") then Host(fields[1..])
    else if |fields| >= 2 && EqualFold(fields[0], "HostName") then HostName(fields[1])
    else Other
  }

  /** Which lines are which: keywords are those spelled `host` and `hostname` in any case. */
  lemma {:induction false} Keywords(line: string)
    ensures var f := Fields(line);
            && (f == [] ==> Parse(line) == Other)
            && (f != [] && AsciiLower(f[0]) == "host" ==> Parse(line) == Host(f[1..]))
            && (f != [] && AsciiLower(f[0]) == "hostname" ==>
                  Parse(line) == if |f| >= 2 then HostName(f[1]) else Other)
            && (f != [] && IsAscii(f[0]) && AsciiLower(f[0]) != "host" && AsciiLower(f[0]) != "hostname" ==>
                  Parse(line) == Other)
  {
    var f := Fields(line);
    if f != [] {
      FoldsToKeyword(f[0], "Host", "host");
      FoldsToKeyword(f[0], "HostName", "hostname");
    }
  }

  /** Beyond ASCII the long s is folded too, as simple case folding has it. */
  lemma {:induction false} LongSIsFolded(line: string)
    ensures var f := Fields(line); f != [] && f[0] == "ho\U{017F}t" ==> Parse(line) == Host(f[1..])
  {
  }

  lemma {:induction false} FoldsToKeyword(s: string, keyword: string, lower: string)
    requires lower == AsciiLower(keyword) && IsAscii(keyword)
    ensures AsciiLower(s) == lower ==> EqualFold(s, keyword)
    ensures IsAscii(s) && EqualFold(s, keyword) ==> AsciiLower(s) == lower
  {
    if AsciiLower(s) == lower {
      forall i | 0 <= i < |s| ensures FoldChar(s[i]) == FoldChar(keyword[i]) {
        assert AsciiLower(s)[i] == lower[i] == AsciiLower(keyword)[i];
      }
    }
    if IsAscii(s) && EqualFold(s, keyword) {
      forall i | 0 <= i < |s| ensures AsciiLower(s)[i] == lower[i] {
        assert FoldChar(s[i]) == FoldChar(keyword[i]);
      }
    }
  }

  function Map<T, U>(f: T -> U, xs: seq<T>): (ys: seq<U>)
    ensures |ys| == |xs|
  {
    if xs == [] then [] else Map(f, xs[..|xs| - 1]) + [f(xs[|xs| - 1])]
  }

  lemma {:induction false} MapAt<T, U>(f: T -> U, xs: seq<T>, i: nat)
    requires i < |xs|
    ensures Map(f, xs)[i] == f(xs[i])
  {
    if i < |xs| - 1 {
      MapAt(f, xs[..|xs| - 1], i);
    }
  }

  function ParseAll(lines: seq<string>): (ds: seq<Directive>)
    ensures |ds| == |lines|
  {
    Map(Parse, lines)
  }

  lemma {:induction false} ParseAllAt(lines: seq<string>, i: nat)
    requires i < |lines|
    ensures ParseAll(lines)[i] == Parse(lines[i])
  {
    MapAt(Parse, lines, i);
  }

  function Indent(line: string): (r: string)
    ensures forall i | 0 <= i < |r| :: IsSpace(r[i])
  {
    if line != "" && (line[0] == ' ' || line[0] == '\t') then [line[0]] + Indent(line[1..]) else ""
  }

  /** The same directive with another value, indented as before. */
  function Repoint(line: string, ip: string): string
    requires Parse(line).HostName?
  {
    Indent(line) + Fields(line)[0] + " " + ip
  }

  /** The line added to a block that has no HostName. */
  function Inserted(ip: string): string {
    "    HostName " + ip
  }

  lemma {:induction false} IndentOf(indent: string, rest: string)
    requires forall i | 0 <= i < |indent| :: indent[i] == ' ' || indent[i] == '\t'
    requires rest != "" && !IsSpace(rest[0])
    ensures Indent(indent + rest) == indent
  {
    if indent == "" {
      assert indent + rest == rest;
    } else {
      assert (indent + rest)[1..] == indent[1..] + rest;
      IndentOf(indent[1..], rest);
    }
  }

  lemma {:induction false} IndentIsBlank(line: string)
    ensures forall i | 0 <= i < |Indent(line)| :: Indent(line)[i] == ' ' || Indent(line)[i] == '\t'
  {
    if line != "" {
      IndentIsBlank(line[1..]);
    }
  }

  /** A repointed line keeps its indentation and keyword and has just the new value. */
  lemma {:induction false} RepointShape(line: string, ip: string)
    requires Parse(line).HostName? && Token(ip)
    ensures Fields(Repoint(line, ip)) == [Fields(line)[0], ip] && Indent(Repoint(line, ip)) == Indent(line)
  {
    var key := Fields(line)[0];
    FieldsOfPair(Indent(line), key, ip);
    IndentIsBlank(line);
    Reassociate(Indent(line), key, " ", ip);
    IndentOf(Indent(line), key + (" " + ip));
  }

  lemma {:induction false} ParseRepointed(line: string, x: string)
    requires Parse(line).HostName? && Token(x)
    ensures Parse(Repoint(line, x)) == HostName(x)
  {
    RepointShape(line, x);
  }

  lemma {:induction false} RepointTwice(line: string, x: string, y: string)
    requires Parse(line).HostName? && Token(x)
    ensures Parse(Repoint(line, x)).HostName? && Repoint(Repoint(line, x), y) == Repoint(line, y)
  {
    RepointShape(line, x);
  }

  lemma {:induction false} InsertedShape(x: string)
    requires Token(x)
    ensures Fields(Inserted(x)) == ["HostName", x] && Indent(Inserted(x)) == "    "
  {
    hide Fields, Indent;
    FieldsOfPair("    ", "HostName", x);
    assert "    " + "HostName" + " " + x == Inserted(x);
    IndentOf("    ", "HostName " + x);
    assert "    " + ("HostName " + x) == Inserted(x);
  }

  lemma {:induction false} ParseInserted(x: string)
    requires Token(x)
    ensures Parse(Inserted(x)) == HostName(x)
  {
    InsertedShape(x);
  }

  lemma {:induction false} RepointInserted(x: string, y: string)
    requires Token(x)
    ensures Parse(Inserted(x)).HostName? && Repoint(Inserted(x), y) == Inserted(y)
  {
    InsertedShape(x);
    assert "    " + "HostName" + " " + y == Inserted(y);
  }

  // ---------------------------------------------------------------- blocks

  predicate Lists(d: Directive, alias: string) {
    d.Host? && alias in d.names
  }

  /** Whether line `i` is read inside a block that lists the alias and has shown no HostName yet. */
  predicate InBlockAt(ds: seq<Directive>, i: nat, alias: string)
    requires i <= |ds|
  {
    i > 0 && if ds[i - 1].Host? then Lists(ds[i - 1], alias) else InBlockAt(ds, i - 1, alias) && ds[i - 1].Other?
  }

  /** Line `i` is the first HostName of a block that lists the alias. */
  predicate HitAt(ds: seq<Directive>, i: nat, alias: string)
    requires i < |ds|
  {
    ds[i].HostName? && InBlockAt(ds, i, alias)
  }

  predicate AnyHitBefore(ds: seq<Directive>, n: nat, alias: string)
    requires n <= |ds|
  {
    n > 0 && (AnyHitBefore(ds, n - 1, alias) || HitAt(ds, n - 1, alias))
  }

  predicate AnyHit(ds: seq<Directive>, alias: string) {
    AnyHitBefore(ds, |ds|, alias)
  }

  lemma {:induction false} AnyHitMeans(ds: seq<Directive>, n: nat, alias: string)
    requires n <= |ds|
    ensures AnyHitBefore(ds, n, alias) <==> exists i :: 0 <= i < n && HitAt(ds, i, alias)
  {
    if n > 0 {
      AnyHitMeans(ds, n - 1, alias);
    }
  }

  /** The index of the last of the first `n` lines that lists the alias, or -1. */
  function LastListingBefore(ds: seq<Directive>, n: nat, alias: string): (h: int)
    requires n <= |ds|
    ensures -1 <= h < n
  {
    if n == 0 then -1
    else if Lists(ds[n - 1], alias) then n - 1
    else LastListingBefore(ds, n - 1, alias)
  }

  function LastListing(ds: seq<Directive>, alias: string): (h: int)
    ensures -1 <= h < |ds|
  {
    LastListingBefore(ds, |ds|, alias)
  }

  lemma {:induction false} LastListingMeans(ds: seq<Directive>, n: nat, alias: string)
    requires n <= |ds|
    ensures var h := LastListingBefore(ds, n, alias);
            && (h >= 0 ==> Lists(ds[h], alias))
            && (forall i | h < i < n :: !Lists(ds[i], alias))
  {
    if n > 0 {
      LastListingMeans(ds, n - 1, alias);
    }
  }

  // ---------------------------------------------------------------- the reader

  /** What ssh takes an alias to be: the value of the first HostName in a block that lists it. */
  function ReadFrom(ds: seq<Directive>, listed: bool, alias: string): Option<string> {
    if ds == [] then None
    else
      match ds[0]
      case Host(_) => ReadFrom(ds[1..], Lists(ds[0], alias), alias)
      case HostName(v) => if listed then Some(v) else ReadFrom(ds[1..], listed, alias)
      case Other => ReadFrom(ds[1..], listed, alias)
  }

  function Lookup(config: string, alias: string): Option<string> {
    ReadFrom(ParseAll(Split(config, '\n')), false, alias)
  }

  // ---------------------------------------------------------------- the writer

  /** The text of line `i` after the pass. */
  function RepointedLine(line: string, hit: bool, ip: string): string {
    if hit && Parse(line).HostName? then Repoint(line, ip) else line
  }

  function RepointedPrefix(lines: seq<string>, n: nat, alias: string, ip: string): (r: seq<string>)
    requires n <= |lines|
    ensures |r| == n
  {
    if n == 0 then []
    else
      RepointedPrefix(lines, n - 1, alias, ip)
      + [RepointedLine(lines[n - 1], HitAt(ParseAll(lines), n - 1, alias), ip)]
  }

  function Repointed(lines: seq<string>, alias: string, ip: string): (r: seq<string>)
    ensures |r| == |lines|
  {
    RepointedPrefix(lines, |lines|, alias, ip)
  }

  lemma {:induction false} RepointedPrefixAt(lines: seq<string>, n: nat, i: nat, alias: string, ip: string)
    requires i < n <= |lines|
    ensures RepointedPrefix(lines, n, alias, ip)[i] == RepointedLine(lines[i], HitAt(ParseAll(lines), i, alias), ip)
  {
    if i < n - 1 {
      RepointedPrefixAt(lines, n - 1, i, alias, ip);
    }
  }

  /** Line by line: a hit is repointed, any other line is as it was. */
  lemma {:induction false} RepointedAt(lines: seq<string>, i: nat, alias: string, ip: string)
    requires i < |lines|
    ensures ParseAll(lines)[i] == Parse(lines[i])
    ensures Repointed(lines, alias, ip)[i] ==
      if HitAt(ParseAll(lines), i, alias) then Repoint(lines[i], ip) else lines[i]
  {
    ParseAllAt(lines, i);
    RepointedPrefixAt(lines, |lines|, i, alias, ip);
  }

  lemma {:induction false} RepointedMiss(lines: seq<string>, i: nat, alias: string, ip: string)
    requires i < |lines| && !HitAt(ParseAll(lines), i, alias)
    ensures Repointed(lines, alias, ip)[i] == lines[i]
  {
    RepointedAt(lines, i, alias, ip);
  }

  function InsertAt<T>(xs: seq<T>, i: nat, x: T): (r: seq<T>)
    requires i <= |xs|
    ensures |r| == |xs| + 1
    ensures forall k | 0 <= k < |r| :: r[k] == if k < i then xs[k] else if k == i then x else xs[k - 1]
  {
    xs[..i] + [x] + xs[i..]
  }

  /** The lines after a rewrite: every block that lists the alias has its first HostName
      repointed; if none has one, the last such block gets one under its Host line. */
  function Rewrite(lines: seq<string>, alias: string, ip: string): Option<seq<string>> {
    var ds := ParseAll(lines);
    var h := LastListing(ds, alias);
    if AnyHit(ds, alias) then Some(Repointed(lines, alias, ip))
    else if h < 0 then None
    else Some(InsertAt(lines, h + 1, Inserted(ip)))
  }

  function SetHostName(config: string, alias: string, ip: string): Option<string> {
    match Rewrite(Split(config, '\n'), alias, ip)
    case None => None
    case Some(lines) => if lines == [] then None else Some(Join(lines, '\n'))
  }

  method NamesAlias(fields: seq<string>, alias: string) returns (r: bool)
    requires fields != []
    ensures r == (alias in fields[1..])
  {
    for k := 1 to |fields|
      invariant alias !in fields[1..k]
    {
      if fields[k] == alias {
        assert fields[1..][k - 1] == alias;
        return true;
      }
    }
    assert fields[1..|fields|] == fields[1..];
    r := false;
  }

  /** What the pass does with one line: its new text and the changes of state. */
  method EditLine(line: string, inBlock: bool, alias: string, ip: string)
    returns (line': string, inBlock': bool, listed: bool, hit: bool)
    ensures var d := Parse(line);
            && listed == Lists(d, alias) && hit == (inBlock && d.HostName?)
            && inBlock' == (if d.Host? then listed else inBlock && d.Other?)
            && line' == if hit then Repoint(line, ip) else line
  {
    line', inBlock', listed, hit := line, inBlock, false, false;
    var fields := Fields(line);
    if fields != [] && EqualFold(fields[0], "Host") {
      listed := NamesAlias(fields, alias);
      inBlock' := listed;
      return;
    }
    if !inBlock || |fields| < 2 {
      return;
    }
    if EqualFold(fields[0], "HostName") {
      line' := Indent(line) + fields[0] + " " + ip;
      hit, inBlock' := true, false;
    }
  }

  lemma {:induction false} PassStarts(ds: seq<Directive>, alias: string)
    ensures !InBlockAt(ds, 0, alias) && !AnyHitBefore(ds, 0, alias) && LastListingBefore(ds, 0, alias) == -1
  {
  }

  /** What line `i` means for the pass, in terms of what went before it. */
  lemma {:induction false} PassStep(was: seq<string>, i: nat, alias: string, ip: string)
    requires i < |was|
    ensures var ds, d := ParseAll(was), Parse(was[i]);
            var inBlock := InBlockAt(ds, i, alias);
            && InBlockAt(ds, i + 1, alias) == (if d.Host? then Lists(d, alias) else inBlock && d.Other?)
            && AnyHitBefore(ds, i + 1, alias) == (AnyHitBefore(ds, i, alias) || (inBlock && d.HostName?))
            && LastListingBefore(ds, i + 1, alias) == (if Lists(d, alias) then i else LastListingBefore(ds, i, alias))
            && Repointed(was, alias, ip)[i] == (if inBlock && d.HostName? then Repoint(was[i], ip) else was[i])
  {
    RepointedAt(was, i, alias, ip);
  }

  /** One pass over the lines in place. */
  method RepointInPlace(lines: array<string>, alias: string, ip: string) returns (found: bool, hostLine: int)
    modifies lines
    ensures lines[..] == Repointed(old(lines[..]), alias, ip)
    ensures found == AnyHit(ParseAll(old(lines[..])), alias)
    ensures hostLine == LastListing(ParseAll(old(lines[..])), alias)
  {
    hide InBlockAt, AnyHitBefore, LastListingBefore, Repointed, Parse, Repoint, Lists;
    ghost var was := lines[..];
    ghost var ds, result := ParseAll(was), Repointed(was, alias, ip);
    var inBlock := false;
    found, hostLine := false, -1;
    PassStarts(ds, alias);
    for i := 0 to lines.Length
      invariant inBlock == InBlockAt(ds, i, alias)
      invariant forall k | i <= k < lines.Length :: lines[k] == was[k]
      invariant forall k | 0 <= k < i :: lines[k] == result[k]
      invariant found == AnyHitBefore(ds, i, alias)
      invariant hostLine == LastListingBefore(ds, i, alias)
    {
      PassStep(was, i, alias, ip);
      var line, next, listed, hit := EditLine(lines[i], inBlock, alias, ip);
      lines[i], inBlock := line, next;
      if listed {
        hostLine := i;
      }
      found := found || hit;
    }
  }

  method SetSSHHostName(config: string, alias: string, ip: string) returns (r: Option<string>)
    ensures r == SetHostName(config, alias, ip)
  {
    hide Repointed, ParseAll, AnyHit, LastListing, InsertAt, Split, Join;
    var split := Split(config, '\n');
    var lines := new string[|split|](i requires 0 <= i < |split| => split[i]);
    assert lines[..] == split;
    var found, hostLine := RepointInPlace(lines, alias, ip);
    if !found {
      NoHitNoChange(split, alias, ip);
    }
    r := Render(lines[..], found, hostLine, ip);
  }

  /** The text of the lines after the pass, with a HostName inserted if none was repointed. */
  method Render(lines: seq<string>, found: bool, hostLine: int, ip: string) returns (r: Option<string>)
    requires lines != [] && hostLine < |lines|
    ensures r == if found then Some(Join(lines, '\n'))
                 else if hostLine < 0 then None
                 else Some(Join(InsertAt(lines, hostLine + 1, Inserted(ip)), '\n'))
  {
    if found {
      return Some(Join(lines, '\n'));
    }
    if hostLine < 0 {
      return None;
    }
    var out := lines[..hostLine + 1];
    out := out + [Inserted(ip)];
    out := out + lines[hostLine + 1..];
    r := Some(Join(out, '\n'));
  }

  lemma {:induction false} NoHitNoChange(lines: seq<string>, alias: string, ip: string)
    requires !AnyHit(ParseAll(lines), alias)
    ensures Repointed(lines, alias, ip) == lines
  {
    AnyHitMeans(ParseAll(lines), |lines|, alias);
    forall i | 0 <= i < |lines|
      ensures Repointed(lines, alias, ip)[i] == lines[i]
    {
      RepointedAt(lines, i, alias, ip);
    }
  }
}
