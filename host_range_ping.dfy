/** The address-range generator of app/ping_funcs/host_range_ping.py: it
    prompts for a starting IPv4 address until one parses, then for a count
    until one fits in the last octet, and lists `start + x` for each x
    below the count. Addresses are 32-bit naturals, as `ipaddress` treats
    them; the pinging itself is not part of this model. */
module HostRangePing {
  import opened Jim
  import opened Cli

  /** An IPv4 address as the number `ipaddress` computes with. */
  type IPv4 = a: nat | a < 0x1_0000_0000

  /** `s.split(sep)`: the pieces between separators, empty ones included. */
  function Split(s: string, sep: char): (r: seq<string>)
    ensures |r| >= 1
    ensures forall k :: 0 <= k < |r| ==> sep !in r[k]
    decreases |s|
  {
    if s == [] then [""]
    else
      var init := Split(s[..|s| - 1], sep);
      var c := s[|s| - 1];
      if c == sep then init + [""] else init[..|init| - 1] + [init[|init| - 1] + [c]]
  }

  /** One octet of a dotted address as `ipaddress` reads it: one to three
      ASCII digits, no leading zero, at most 255. */
  function OctetValue(f: string): (r: Option<nat>)
    ensures r.Some? ==> AllDigits(f) && r.value == DigitsValue(f) && r.value <= 255
  {
    if 0 < |f| <= 3 && AllDigits(f) && !(|f| > 1 && f[0] == '0') && DigitsValue(f) <= 255 then
      Some(DigitsValue(f))
    else None
  }

  /** The address whose octets, most significant first, are a, b, c, d. */
  function Address(a: nat, b: nat, c: nat, d: nat): (r: IPv4)
    requires a <= 255 && b <= 255 && c <= 255 && d <= 255
    ensures r % 256 == d && r / 256 == (a * 256 + b) * 256 + c
  {
    ((a * 256 + b) * 256 + c) * 256 + d
  }

  /** `ip_address(s)` for a dotted IPv4 string: exactly four octets. */
  function ParseIPv4(s: string): (r: Option<IPv4>)
    ensures r.Some? <==> |Split(s, '.')| == 4 && forall k :: 0 <= k < 4 ==> OctetValue(Split(s, '.')[k]).Some?
  {
    var f := Split(s, '.');
    if |f| == 4 && OctetValue(f[0]).Some? && OctetValue(f[1]).Some? && OctetValue(f[2]).Some?
       && OctetValue(f[3]).Some? then
      Some(Address(OctetValue(f[0]).value, OctetValue(f[1]).value, OctetValue(f[2]).value,
                   OctetValue(f[3]).value))
    else None
  }

  /** The body of the first prompt loop for one typed line: the address and
      `last_oct`, `int(start_ip.split('.')[3])`, or None when `ip_address`
      rejects the line and the loop asks again. */
  function ReadStart(s: string): (r: Option<(IPv4, nat)>)
    ensures r.Some? <==> ParseIPv4(s).Some?
    ensures r.Some? ==> r.value.0 == ParseIPv4(s).value && r.value.1 == r.value.0 % 256
  {
    match ParseIPv4(s)
    case None => None
    case Some(a) => Some((a, DigitsValue(Split(s, '.')[3])))
  }

  /** `end_ip.isnumeric()` and `int(end_ip)`, over ASCII digits. */
  function CountValue(s: string): (r: Option<nat>)
    ensures r.Some? <==> |s| > 0 && AllDigits(s)
    ensures r.Some? ==> r.value == DigitsValue(s)
  {
    if |s| > 0 && AllDigits(s) then Some(DigitsValue(s)) else None
  }

  /** A count typed as the decimal rendering of n is read as n. */
  lemma CountOfRendered(n: nat)
    ensures CountValue(NatToString(n)) == Some(n)
  {
    DigitsOfNat(n);
  }

  /** Whether the second prompt loop accepts a typed count. */
  predicate CountFits(s: string, lastOct: nat) {
    CountValue(s).Some? && lastOct + CountValue(s).value <= 256
  }

  /** The first prompt loop from line i on: the line after the accepted
      one, the address and `last_oct`; None when the input runs out first. */
  function StartPrompt(lines: seq<string>, i: nat): (r: Option<(nat, IPv4, nat)>)
    ensures r.Some? ==> i < r.value.0 <= |lines| && ReadStart(lines[r.value.0 - 1]) == Some((r.value.1, r.value.2))
    ensures r.Some? ==> forall k :: i <= k < r.value.0 - 1 ==> ReadStart(lines[k]).None?
    ensures r.None? ==> forall k :: i <= k < |lines| ==> ReadStart(lines[k]).None?
    decreases |lines| - i
  {
    if i >= |lines| then None
    else match ReadStart(lines[i])
      case Some(start) => Some((i + 1, start.0, start.1))
      case None => StartPrompt(lines, i + 1)
  }

  /** The second prompt loop from line i on: the line after the accepted one
      and the count; None when the input runs out first. */
  function CountPrompt(lines: seq<string>, i: nat, lastOct: nat): (r: Option<(nat, nat)>)
    ensures r.Some? ==> i < r.value.0 <= |lines| && CountFits(lines[r.value.0 - 1], lastOct)
    ensures r.Some? ==> CountValue(lines[r.value.0 - 1]) == Some(r.value.1)
    ensures r.Some? ==> forall k :: i <= k < r.value.0 - 1 ==> !CountFits(lines[k], lastOct)
    ensures r.None? ==> forall k :: i <= k < |lines| ==> !CountFits(lines[k], lastOct)
    decreases |lines| - i
  {
    if i >= |lines| then None
    else if CountFits(lines[i], lastOct) then Some((i + 1, CountValue(lines[i]).value))
    else CountPrompt(lines, i + 1, lastOct)
  }

  /** `host_list`: the count addresses from the start on. */
  function HostList(start: nat, count: nat): (r: seq<nat>)
    ensures |r| == count
  {
    seq(count, x requires 0 <= x < count => start + x)
  }

  /** `host_range_ping` over the typed lines, up to the list it pings; None
      when the input runs out before both prompts are answered. */
  function HostRange(lines: seq<string>): Option<seq<nat>> {
    match StartPrompt(lines, 0)
    case None => None
    case Some(start) =>
      match CountPrompt(lines, start.0, start.2)
      case None => None
      case Some(count) => Some(HostList(start.1, count.1))
  }

  /** The first prompt loop: ask until a line parses as an address. */
  method PromptStart(lines: seq<string>) returns (r: Option<(nat, IPv4, nat)>)
    ensures r == StartPrompt(lines, 0)
  {
    var i := 0;
    r := None;
    while i < |lines| && r.None?
      invariant 0 <= i <= |lines|
      invariant StartPrompt(lines, 0) == if r.Some? then r else StartPrompt(lines, i)
      decreases |lines| - i
    {
      match ReadStart(lines[i]) {
        case Some(read) => r := Some((i + 1, read.0, read.1));
        case None =>
      }
      i := i + 1;
    }
  }

  /** The second prompt loop, from line i0 on: ask until a count fits. */
  method PromptCount(lines: seq<string>, i0: nat, lastOct: nat) returns (r: Option<(nat, nat)>)
    ensures r == CountPrompt(lines, i0, lastOct)
  {
    var i := i0;
    r := None;
    while i < |lines| && r.None?
      invariant i0 <= i && (i0 <= |lines| ==> i <= |lines|)
      invariant CountPrompt(lines, i0, lastOct) == if r.Some? then r else CountPrompt(lines, i, lastOct)
      decreases |lines| - i
    {
      if CountFits(lines[i], lastOct) {
        r := Some((i + 1, CountValue(lines[i]).value));
      }
      i := i + 1;
    }
  }

  /** The comprehension that appends `start + x` for each x below count. */
  method BuildHostList(start: nat, count: nat) returns (list: seq<nat>)
    ensures list == HostList(start, count)
  {
    list := [];
    var x := 0;
    while x < count
      invariant 0 <= x <= count
      invariant |list| == x && forall y :: 0 <= y < x ==> list[y] == start + y
    {
      list := list + [start + x];
      x := x + 1;
    }
  }

  /** The whole function, up to the list it pings. */
  method HostRangeRun(lines: seq<string>) returns (hosts: Option<seq<nat>>)
    ensures hosts == HostRange(lines)
  {
    var start := PromptStart(lines);
    if start.None? {
      return None;
    }
    var count := PromptCount(lines, start.value.0, start.value.2);
    if count.None? {
      return None;
    }
    var list := BuildHostList(start.value.1, count.value.1);
    hosts := Some(list);
  }

  /** The header's promise: for an accepted count, the list has that many
      addresses, all valid, each keeping the start's first three octets and
      stepping the last one from `last_oct` up. */
  lemma AcceptedRangeStaysInOctet(lines: seq<string>)
    requires HostRange(lines).Some?
    ensures var s := StartPrompt(lines, 0).value; var h := HostRange(lines).value;
      && s.2 == s.1 % 256 && s.2 + |h| <= 256
      && forall x :: 0 <= x < |h| ==>
           && h[x] < 0x1_0000_0000 && h[x] / 256 == s.1 / 256 && h[x] % 256 == s.2 + x
  {
    var s := StartPrompt(lines, 0).value;
    var c := CountPrompt(lines, s.0, s.2).value;
    var h := HostRange(lines).value;
    assert h == HostList(s.1, c.1);
    forall x | 0 <= x < |h|
      ensures h[x] < 0x1_0000_0000 && h[x] / 256 == s.1 / 256 && h[x] % 256 == s.2 + x
    {
      SameBlock(s.1, x);
    }
  }

  /** Adding less than what is left of the last octet keeps the upper three. */
  lemma SameBlock(a: IPv4, x: nat)
    requires a % 256 + x < 256
    ensures a + x < 0x1_0000_0000 && (a + x) / 256 == a / 256 && (a + x) % 256 == a % 256 + x
  {
    var q := a / 256;
    assert a == q * 256 + a % 256;
    assert q < 0x100_0000;
  }

  /** The rejections of the second loop: a line that is not all digits, and
      a count that would run past the last octet. */
  lemma CountRejections(lines: seq<string>, i: nat, lastOct: nat)
    requires i < |lines|
    requires CountValue(lines[i]).None? || lastOct + CountValue(lines[i]).value > 256
    ensures CountPrompt(lines, i, lastOct) == CountPrompt(lines, i + 1, lastOct)
  {
  }

  /** `str(ip)`: the dotted form of an address. */
  function Dotted(a: IPv4): string {
    NatToString(a / 0x100_0000) + "." + NatToString(a / 0x1_0000 % 256) + "."
      + NatToString(a / 256 % 256) + "." + NatToString(a % 256)
  }

  /** `ip_address(str(ip)) == ip`: every address's dotted form is read back
      as that address, with its last octet as `last_oct`. */
  lemma ParseDotted(a: IPv4)
    ensures ParseIPv4(Dotted(a)) == Some(a)
    ensures ReadStart(Dotted(a)) == Some((a, a % 256))
  {
    var o0, o1, o2, o3 := a / 0x100_0000, a / 0x1_0000 % 256, a / 256 % 256, a % 256;
    SplitDotted(a);
    OctetOfNat(o0);
    OctetOfNat(o1);
    OctetOfNat(o2);
    OctetOfNat(o3);
    AddressOfOctets(a);
  }

  /** Four pieces without dots, joined with dots, split back into them. */
  lemma SplitFour(d0: string, d1: string, d2: string, d3: string)
    requires '.' !in d0 && '.' !in d1 && '.' !in d2 && '.' !in d3
    ensures Split(d0 + "." + d1 + "." + d2 + "." + d3, '.') == [d0, d1, d2, d3]
  {
    SplitNoSep(d0, '.');
    SplitAppend(d0, d1, '.');
    SplitAppend(d0 + "." + d1, d2, '.');
    SplitAppend(d0 + "." + d1 + "." + d2, d3, '.');
  }

  /** The dotted form splits into the four octets' decimal forms. */
  lemma SplitDotted(a: IPv4)
    ensures Split(Dotted(a), '.') == [NatToString(a / 0x100_0000), NatToString(a / 0x1_0000 % 256),
                                      NatToString(a / 256 % 256), NatToString(a % 256)]
  {
    NoDot(a / 0x100_0000);
    NoDot(a / 0x1_0000 % 256);
    NoDot(a / 256 % 256);
    NoDot(a % 256);
    SplitFour(NatToString(a / 0x100_0000), NatToString(a / 0x1_0000 % 256),
              NatToString(a / 256 % 256), NatToString(a % 256));
  }

  lemma NoDot(n: nat)
    ensures '.' !in NatToString(n)
  {
  }

  /** An address is the number its four octets spell. */
  lemma AddressOfOctets(a: IPv4)
    ensures a / 0x100_0000 <= 255
    ensures a == Address(a / 0x100_0000, a / 0x1_0000 % 256, a / 256 % 256, a % 256)
  {
    var b := a / 256;
    var c := b / 256;
    assert a == b * 256 + a % 256;
    assert b == c * 256 + b % 256;
    assert c == c / 256 * 256 + c % 256;
    assert a / 0x1_0000 == c;
    assert a / 0x100_0000 == c / 256;
  }

  /** The decimal form of an octet is a valid octet of that value. */
  lemma OctetOfNat(n: nat)
    requires n <= 255
    ensures OctetValue(NatToString(n)) == Some(n) && '.' !in NatToString(n)
  {
    var s := NatToString(n);
    DigitsOfNat(n);
    if n >= 10 {
      LeadingDigit(n);
      if n >= 100 {
        assert NatToString(n / 10) == NatToString(n / 10 / 10) + [(n / 10 % 10 + '0' as int) as char];
      }
    }
  }

  /** A positive number's decimal form does not start with '0'. */
  lemma {:induction false} LeadingDigit(n: nat)
    requires n >= 1
    ensures NatToString(n)[0] != '0'
    decreases n
  {
    if n >= 10 {
      LeadingDigit(n / 10);
      assert NatToString(n)[0] == NatToString(n / 10)[0];
    }
  }

  /** A piece without separators splits into itself. */
  lemma {:induction false} SplitNoSep(q: string, sep: char)
    requires sep !in q
    ensures Split(q, sep) == [q]
    decreases |q|
  {
    if q != [] {
      SplitNoSep(q[..|q| - 1], sep);
      assert q[..|q| - 1] + [q[|q| - 1]] == q;
    }
  }

  /** Appending a separator and a piece without separators adds that
      piece to the split. */
  lemma {:induction false} SplitAppend(p: string, q: string, sep: char)
    requires sep !in q
    ensures Split(p + [sep] + q, sep) == Split(p, sep) + [q]
    decreases |q|
  {
    var s := p + [sep] + q;
    if q == [] {
      assert s[..|s| - 1] == p;
    } else {
      var q' := q[..|q| - 1];
      SplitAppend(p, q', sep);
      assert s[..|s| - 1] == p + [sep] + q';
      assert q' + [q[|q| - 1]] == q;
    }
  }
}

