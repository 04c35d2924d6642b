/** The memory of burned addresses: when each was burned, matched exactly or, for IPv4, by /24. */
module Burned {
  import opened Common
  import opened Text

  // ---------------------------------------------------------------- addresses

  predicate IsOctet(s: string) {
    && 1 <= |s| <= 3 && (forall i | 0 <= i < |s| :: IsDigit(s[i]))
    && (|s| > 1 ==> s[0] != '0')
    && Value(s) <= 255
  }

  /** The four octets of a dotted quad without leading zeros. */
  function ParseV4(ip: string): Option<seq<string>> {
    var parts := Split(ip, '.');
    if |parts| == 4 && IsOctet(parts[0]) && IsOctet(parts[1]) && IsOctet(parts[2]) && IsOctet(parts[3])
    then Some(parts) else None
  }

  predicate IsV4(ip: string) {
    ParseV4(ip).Some?
  }

  predicate SameNet(a: string, b: string) {
    IsV4(a) && IsV4(b) && ParseV4(a).value[..3] == ParseV4(b).value[..3]
  }

  // ---------------------------------------------------------------- entries

  type Entries = map<string, int>

  /** Which other strings the address parser accepts. */
  type Parser = string -> bool

  predicate Condemns(entries: Entries, raw: string, ip: string, cutoff: int)
    requires raw in entries
  {
    entries[raw] >= cutoff && (raw == ip || SameNet(raw, ip))
  }

  /** `ip`, or an address in its /24, was burned within the window that ends now. */
  ghost predicate IsBurned(isV6: Parser, entries: Entries, ip: string, within: int, now: int) {
    && ip != "" && within > 0 && (IsV4(ip) || isV6(ip))
    && exists raw :: raw in entries && Condemns(entries, raw, ip, now - within)
  }

  // ---------------------------------------------------------------- what a burned address rules out

  /** A dotted quad, written without leading zeros. */
  function Quad(a: nat, b: nat, c: nat, d: nat): string {
    Join([Decimal(a), Decimal(b), Decimal(c), Decimal(d)], '.')
  }

  lemma {:induction false} DecimalOctet(n: nat)
    requires n < 256
    ensures IsOctet(Decimal(n)) && '.' !in Decimal(n)
  {
    ValueOfDecimal(n);
    assert n >= 10 ==> Decimal(n) == Decimal(n / 10) + [DigitChar(n % 10)];
    assert n >= 100 ==> Decimal(n / 10) == Decimal(n / 100) + [DigitChar(n / 10 % 10)];
  }

  lemma {:induction false} QuadParses(a: nat, b: nat, c: nat, d: nat)
    requires a < 256 && b < 256 && c < 256 && d < 256
    ensures ParseV4(Quad(a, b, c, d)) == Some([Decimal(a), Decimal(b), Decimal(c), Decimal(d)])
  {
    hide IsOctet, Split, Join, Decimal;
    DecimalOctet(a);
    DecimalOctet(b);
    DecimalOctet(c);
    DecimalOctet(d);
    SplitJoin([Decimal(a), Decimal(b), Decimal(c), Decimal(d)], '.');
  }

  lemma {:induction false} OctetIsDecimal(s: string)
    requires IsOctet(s)
    ensures s == Decimal(Value(s))
  {
    if |s| == 1 {
      OneDigit(s);
    } else {
      OneDigit(s[..1]);
      MoreDigits(s[..1], s[1]);
      assert s[..2] == s[..1] + [s[1]];
      if |s| == 3 {
        MoreDigits(s[..2], s[2]);
        assert s == s[..2] + [s[2]];
      } else {
        assert s == s[..2];
      }
    }
  }

  lemma {:induction false} OneDigit(s: string)
    requires |s| == 1 && IsDigit(s[0])
    ensures Value(s) < 10 && Decimal(Value(s)) == s && (s[0] != '0' ==> Value(s) > 0)
  {
    assert s[..0] == "" && s == [DigitChar(DigitValue(s[0]))];
  }

  /** A numeral without a leading zero stays one with a digit more. */
  lemma {:induction false} MoreDigits(s: string, c: char)
    requires s != "" && (forall i | 0 <= i < |s| :: IsDigit(s[i])) && IsDigit(c)
    requires Value(s) > 0 && Decimal(Value(s)) == s
    ensures Value(s + [c]) == Value(s) * 10 + DigitValue(c) && Decimal(Value(s + [c])) == s + [c]
  {
    assert (s + [c])[..|s|] == s;
    assert DigitChar(DigitValue(c)) == c;
  }

  /** The IPv4 addresses are the dotted quads of numbers below 256 without leading zeros. */
  lemma {:induction false} V4IsAQuad(ip: string)
    ensures IsV4(ip) <==> exists a: nat, b: nat, c: nat, d: nat :: IsQuad(ip, a, b, c, d)
  {
    hide IsOctet, Split, Decimal;
    if IsV4(ip) {
      var parts := Split(ip, '.');
      var a := OctetNumber(parts[0]);
      var b := OctetNumber(parts[1]);
      var c := OctetNumber(parts[2]);
      var d := OctetNumber(parts[3]);
      JoinSplit(ip, '.');
      assert parts == [Decimal(a), Decimal(b), Decimal(c), Decimal(d)];
      assert IsQuad(ip, a, b, c, d);
    }
    if exists a: nat, b: nat, c: nat, d: nat :: IsQuad(ip, a, b, c, d) {
      var a: nat, b: nat, c: nat, d: nat :| IsQuad(ip, a, b, c, d);
      QuadParses(a, b, c, d);
    }
  }

  predicate IsQuad(ip: string, a: nat, b: nat, c: nat, d: nat) {
    a < 256 && b < 256 && c < 256 && d < 256 && ip == Quad(a, b, c, d)
  }

  lemma {:induction false} OctetNumber(s: string) returns (n: nat)
    requires IsOctet(s)
    ensures n < 256 && s == Decimal(n)
  {
    OctetIsDecimal(s);
    n := Value(s);
  }

  lemma {:induction false} DecimalInjective(m: nat, n: nat)
    ensures Decimal(m) == Decimal(n) <==> m == n
  {
    ValueOfDecimal(m);
    ValueOfDecimal(n);
  }

  /** One burned IPv4 address rules out exactly its own /24, for exactly the window. */
  lemma {:induction false} BurnsItsSlash24(isV6: Parser, a: nat, b: nat, c: nat, d: nat, a': nat, b': nat, c': nat,
                                           d': nat, at: int, window: int, now: int)
    requires a < 256 && b < 256 && c < 256 && d < 256 && a' < 256 && b' < 256 && c' < 256 && d' < 256 && window > 0
    ensures IsBurned(isV6, map[Quad(a, b, c, d) := at], Quad(a', b', c', d'), window, now)
       <==> a == a' && b == b' && c == c' && now - at <= window
  {
    hide Decimal;
    QuadParses(a, b, c, d);
    QuadParses(a', b', c', d');
    DecimalInjective(a, a');
    DecimalInjective(b, b');
    DecimalInjective(c, c');
    DecimalInjective(d, d');
    SlashOf(a, b, c, d, a', b', c', d');
    var entries := map[Quad(a, b, c, d) := at];
    hide Quad, ParseV4;
    assert Quad(a', b', c', d') != "" by { EmptyIsNoQuad(a', b', c', d'); }
    if a == a' && b == b' && c == c' && now - at <= window {
      assert Condemns(entries, Quad(a, b, c, d), Quad(a', b', c', d'), now - window);
    }
  }

  lemma {:induction false} EmptyIsNoQuad(a: nat, b: nat, c: nat, d: nat)
    ensures Quad(a, b, c, d) != ""
  {
  }

  lemma {:induction false} SlashOf(a: nat, b: nat, c: nat, d: nat, a': nat, b': nat, c': nat, d': nat)
    requires a < 256 && b < 256 && c < 256 && d < 256 && a' < 256 && b' < 256 && c' < 256 && d' < 256
    ensures IsV4(Quad(a', b', c', d'))
    ensures SameNet(Quad(a, b, c, d), Quad(a', b', c', d')) <==> a == a' && b == b' && c == c'
    ensures Quad(a, b, c, d) == Quad(a', b', c', d') ==> a == a' && b == b' && c == c'
  {
    hide Decimal, Quad;
    QuadParses(a, b, c, d);
    QuadParses(a', b', c', d');
    DecimalInjective(a, a');
    DecimalInjective(b, b');
    DecimalInjective(c, c');
    var p, q := [Decimal(a), Decimal(b), Decimal(c), Decimal(d)], [Decimal(a'), Decimal(b'), Decimal(c'), Decimal(d')];
    assert p[..3] == [Decimal(a), Decimal(b), Decimal(c)] && q[..3] == [Decimal(a'), Decimal(b'), Decimal(c')];
    assert p == q ==> p[0] == q[0] && p[1] == q[1] && p[2] == q[2];
  }

  function Put(entries: Entries, ip: string, now: int): Entries {
    if ip == "" then entries else entries[ip := now]
  }

  function Prune(entries: Entries, retain: int, now: int): Entries {
    if retain <= 0 then entries else map k | k in entries && entries[k] >= now - retain :: entries[k]
  }

  /** What the file behind a store holds; a torn write leaves something that does not load. */
  datatype Content = Missing | Stored(entries: Entries) | Damaged

  class File {
    var content: Content

    constructor ()
      ensures content == Missing
    {
      content := Missing;
    }
  }

  /** What loading a file gives: a missing one is an empty store. */
  function Loaded(content: Content): Option<Entries> {
    match content
    case Missing => Some(map[])
    case Stored(entries) => Some(entries)
    case Damaged => None
  }

  /** Reads the store; null when its file cannot be read or does not load. */
  method LoadBurnedStore(isV6: Parser, file: File?, readable: bool) returns (s: BurnedStore?)
    ensures s == null <==> file != null && (!readable || Loaded(file.content).None?)
    ensures s != null ==> fresh(s) && s.isV6 == isV6 && s.file == file
    ensures s != null ==> s.entries == if file == null then map[] else Loaded(file.content).value
  {
    if file == null {
      s := new BurnedStore(isV6, file, map[]);
    } else if !readable {
      s := null;
    } else if file.content.Missing? {
      s := new BurnedStore(isV6, file, map[]);
    } else if file.content.Damaged? {
      s := null;
    } else {
      s := new BurnedStore(isV6, file, file.content.entries);
    }
  }

  class BurnedStore {
    const isV6: Parser
    const file: File?       // null when no path is configured
    var entries: Entries

    constructor (isV6: Parser, file: File?, entries: Entries)
      ensures this.isV6 == isV6 && this.file == file && this.entries == entries
    {
      this.isV6, this.file, this.entries := isV6, file, entries;
    }

    method Add(ip: string, now: int)
      modifies this`entries
      ensures entries == Put(old(entries), ip, now)
    {
      if ip == "" {
        return;
      }
      entries := entries[ip := now];
    }

    method Burned(ip: string, within: int, now: int) returns (r: bool)
      ensures r <==> IsBurned(isV6, entries, ip, within, now)
      ensures within <= 0 || ip == "" ==> !r
    {
      if ip == "" || within <= 0 {
        return false;
      }
      if !IsV4(ip) && !isV6(ip) {
        return false;
      }
      var cutoff := now - within;
      var left := entries.Keys;
      while left != {}
        invariant left <= entries.Keys
        invariant forall raw | raw in entries && raw !in left :: !Condemns(entries, raw, ip, cutoff)
      {
        var raw :| raw in left;
        left := left - {raw};
        if entries[raw] < cutoff {
          continue;
        }
        if raw == ip {
          return true;
        }
        if SameNet(raw, ip) {
          return true;
        }
      }
      r := false;
    }

    /** Drops entries older than `retain` and writes the rest back. The write may fail, before it
        touched the file or after it truncated it. */
    method Save(retain: int, now: int) returns (ok: bool)
      modifies this`entries, file
      ensures file == null ==> ok && entries == old(entries)
      ensures file != null ==> entries == Prune(old(entries), retain, now)
      ensures forall ip | ip in entries :: ip in old(entries) && entries[ip] == old(entries)[ip]
      ensures file != null ==>
                forall ip | ip in old(entries) :: ip in entries <==> retain <= 0 || now - old(entries)[ip] <= retain
      ensures file != null && ok ==> file.content == Stored(entries)
      ensures file != null && !ok ==> file.content == old(file.content) || file.content == Damaged
    {
      if file == null {
        return true;
      }
      var cutoff := now - retain;
      var left := entries.Keys;
      while left != {}
        invariant left <= old(entries.Keys) && file.content == old(file.content)
        invariant entries.Keys <= old(entries.Keys) && (forall k | k in entries :: entries[k] == old(entries[k]))
        invariant forall k | k in left :: k in entries
        invariant forall k | k in old(entries) && k !in left ::
                    (k in entries <==> retain <= 0 || old(entries[k]) >= cutoff)
      {
        var ip :| ip in left;
        left := left - {ip};
        if retain > 0 && entries[ip] < cutoff {
          entries := entries - {ip};
        }
      }
      assert entries == Prune(old(entries), retain, now);
      var torn: bool;
      ok, torn := *, *;
      if ok {
        file.content := Stored(entries);
      } else if torn {
        file.content := Damaged;
      }
    }
  }
}
