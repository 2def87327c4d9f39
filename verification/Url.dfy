/** Strict reading of the targets of egress requests: a grammar is stated below, what is accepted is
    exactly what it spells, and everything accepted prints back. */
module Url {
  import opened Basics
  import opened Text

  const MAX_URL_BYTES: nat := 8192

  datatype Scheme = Https | Http

  datatype UrlFault = TooLong | Character | BadScheme | Credentials | Fragment | Host | Port

  /** `host` is lower case; `port` is explicit or the scheme's; `path` starts with `/`. */
  datatype Target = Target(scheme: Scheme, host: string, port: u16, path: string)

  function DefaultPort(s: Scheme): u16 {
    if s.Https? then 443 else 80
  }

  function SchemeText(s: Scheme): string {
    if s.Https? then "https://" else "http://"
  }

  // ---------------------------------------------------------------- hosts and ports

  predicate IsOctet(part: string) {
    ParseUpTo(part, 255).Some?
  }

  function OctetOf(part: string): u8
    requires IsOctet(part)
  {
    NumberIn(part)
  }

  /** `a.b.c.d`, each part canonical decimal up to 255. */
  function Ipv4(text: string): Option<Octets> {
    var parts := Split(text, '.');
    if |parts| == 4 && IsOctet(parts[0]) && IsOctet(parts[1]) && IsOctet(parts[2]) && IsOctet(parts[3])
    then Some([OctetOf(parts[0]), OctetOf(parts[1]), OctetOf(parts[2]), OctetOf(parts[3])])
    else None
  }

  method CanonicalIpv4(text: string) returns (address: Option<Octets>)
    ensures address == Ipv4(text)
  {
    var parts := Split(text, '.');
    if |parts| != 4 {
      return None;
    }
    var octets := new u8[4];
    for i := 0 to 4
      invariant forall j :: 0 <= j < i ==> IsOctet(parts[j]) && octets[j] == OctetOf(parts[j])
    {
      var octet := ParseUpTo(parts[i], 255);
      if octet.None? {
        return None;
      }
      octets[i] := octet.value;
    }
    assert octets[..] == [octets[0], octets[1], octets[2], octets[3]];
    return Some(octets[..]);
  }

  function ParsePort(text: string): Result<u16, UrlFault> {
    match ParseUpTo(text, 65535)
    case None => Err(Port)
    case Some(port) => if port == 0 then Err(Port) else Ok(port)
  }

  predicate LabelChar(c: char) {
    IsLower(c) || IsDigit(c) || c == '-'
  }

  predicate LabelOk(s: string) {
    && 1 <= |s| <= 63 && s[0] != '-' && s[|s| - 1] != '-'
    && forall i :: 0 <= i < |s| ==> LabelChar(s[i])
  }

  predicate HasLetter(s: string) {
    exists i :: 0 <= i < |s| && IsLower(s[i])
  }

  /** Letter-digit-hyphen labels, the last one not numeric. */
  predicate NameOk(host: string) {
    var labels := Split(host, '.');
    var last := labels[|labels| - 1];
    && 1 <= |host| <= 253
    && (forall i :: 0 <= i < |labels| ==> LabelOk(labels[i]))
    && HasLetter(last) && !StartsWith(last, "0x")
  }

  predicate HostOk(host: string) {
    Ipv4(host).Some? || NameOk(host)
  }

  function ParseHost(text: string): Result<string, UrlFault> {
    var host := Lower(text);
    if Ipv4(host).Some? then Ok(host)
    else if NameOk(host) then Ok(host)
    else Err(Host)
  }

  /** The last place `c` stands, if any. */
  function FindLast(s: string, c: char): (at: Option<nat>)
    ensures at.Some? ==> at.value < |s| && s[at.value] == c && forall i :: at.value < i < |s| ==> s[i] != c
    ensures at.None? ==> forall i :: 0 <= i < |s| ==> s[i] != c
  {
    if s == [] then None
    else if s[|s| - 1] == c then Some(|s| - 1)
    else FindLast(s[..|s| - 1], c)
  }

  /** `host` or `host:port`. A bad port is found before a bad host. */
  function SplitHostPort(authority: string): Result<(string, Option<u16>), UrlFault> {
    if StartsWith(authority, "[") then Err(Host)
    else
      match FindLast(authority, ':')
      case None =>
        (match ParseHost(authority)
         case Err(fault) => Err(fault)
         case Ok(host) => Ok((host, None)))
      case Some(n) =>
        match ParsePort(authority[n + 1..])
        case Err(fault) => Err(fault)
        case Ok(port) =>
          match ParseHost(authority[..n])
          case Err(fault) => Err(fault)
          case Ok(host) => Ok((host, Some(port)))
  }

  // ---------------------------------------------------------------- targets

  predicate Graphic(c: char) {
    '!' <= c <= '~' && c != '\\'
  }

  predicate AllGraphic(s: string) {
    forall i :: 0 <= i < |s| ==> Graphic(s[i])
  }

  /** Where the authority ends: at the first `/` or `?`. */
  function AuthorityEnd(s: string): (n: nat)
    ensures n <= |s| && (n < |s| ==> s[n] == '/' || s[n] == '?')
    ensures forall i :: 0 <= i < n ==> s[i] != '/' && s[i] != '?'
  {
    if s == [] || s[0] == '/' || s[0] == '?' then 0 else 1 + AuthorityEnd(s[1..])
  }

  function PathOf(tail: string): string {
    if tail == "" then "/"
    else if tail[0] == '?' then "/" + tail
    else tail
  }

  function ParseRest(scheme: Scheme, rest: string): Result<Target, UrlFault> {
    var end := AuthorityEnd(rest);
    var authority := rest[..end];
    if '@' in authority then Err(Credentials)
    else
      match SplitHostPort(authority)
      case Err(fault) => Err(fault)
      case Ok((host, port)) =>
        Ok(Target(scheme, host, if port.Some? then port.value else DefaultPort(scheme), PathOf(rest[end..])))
  }

  function Parse(text: string): Result<Target, UrlFault> {
    if |text| > MAX_URL_BYTES then Err(TooLong)
    else if !AllGraphic(text) then Err(Character)
    else if '#' in text then Err(Fragment)
    else if StartsWith(text, "https://") then ParseRest(Https, text[8..])
    else if StartsWith(text, "http://") then ParseRest(Http, text[7..])
    else Err(BadScheme)
  }

  function Print(t: Target): string {
    SchemeText(t.scheme) + t.host + ":" + Decimal(t.port) + t.path
  }

  // ---------------------------------------------------------------- what is accepted

  /** A port parses exactly when it is how a number from 1 to 65535 prints. */
  lemma PortIsPrinted(text: string, port: u16)
    ensures ParsePort(text) == Ok(port) <==> port > 0 && text == Decimal(port)
  {
    ParsesAsPrinted(text, port, 65535);
  }

  function PrintV4(a: Octets): string {
    Join([Decimal(a[0]), Decimal(a[1]), Decimal(a[2]), Decimal(a[3])], '.')
  }

  lemma DecimalHasOnlyDigits(n: nat)
    ensures AllDigits(Decimal(n)) && Without(Decimal(n), '.')
  {
    DecimalIsCanonical(n);
  }

  /** A text reads as an IPv4 address exactly when it is how that address prints. */
  lemma Ipv4IsPrinted(text: string, a: Octets)
    ensures Ipv4(text) == Some(a) <==> text == PrintV4(a)
  {
    hide Decimal, NumberIn, Join, Split, IsCanonical;
    var printed := [Decimal(a[0]), Decimal(a[1]), Decimal(a[2]), Decimal(a[3])];
    forall i | 0 <= i < 4 ensures Without(printed[i], '.') && ParseUpTo(printed[i], 255) == Some(a[i]) {
      DecimalHasOnlyDigits(a[i]);
      ParsesAsPrinted(printed[i], a[i], 255);
    }
    SplitOfJoin(printed, '.');
    var parts := Split(text, '.');
    JoinOfSplit(text, '.');
    assert a == [a[0], a[1], a[2], a[3]];
    if text == PrintV4(a) {
      assert parts == printed;
    }
    if Ipv4(text) == Some(a) {
      forall i | 0 <= i < 4 ensures parts[i] == printed[i] {
        ParsesAsPrinted(parts[i], a[i], 255);
      }
      assert parts == printed;
    }
  }

  predicate HostChar(c: char) {
    LabelChar(c) || c == '.'
  }

  ghost predicate HostText(s: string) {
    s != [] && forall i :: 0 <= i < |s| ==> HostChar(s[i])
  }

  lemma {:induction false} JoinedHost(parts: seq<string>)
    requires parts != [] && forall i :: 0 <= i < |parts| ==> HostText(parts[i])
    ensures HostText(Join(parts, '.'))
  {
    if |parts| > 1 {
      JoinedHost(parts[1..]);
    }
  }

  /** An accepted host holds nothing but lower-case letters, digits, hyphens and dots. */
  lemma HostIsText(host: string)
    requires HostOk(host)
    ensures HostText(host)
  {
    hide Split, Join, IsCanonical;
    JoinOfSplit(host, '.');
    forall i | 0 <= i < |Split(host, '.')| ensures HostText(Split(host, '.')[i]) {
      var part := Split(host, '.')[i];
      if Ipv4(host).Some? {
        OctetText(part);
      }
    }
    JoinedHost(Split(host, '.'));
  }

  lemma OctetText(part: string)
    requires IsOctet(part)
    ensures HostText(part)
  {
  }

  /** A host whose last label has no letter, or reads as a hexadecimal number, is an address in
      exactly its canonical form. */
  lemma NumericHostIsCanonical(text: string, host: string)
    requires ParseHost(text) == Ok(host)
    requires var labels := Split(host, '.'); var last := labels[|labels| - 1];
             !HasLetter(last) || StartsWith(last, "0x")
    ensures exists a :: host == PrintV4(a)
  {
    Ipv4IsPrinted(host, Ipv4(host).value);
  }

  lemma LowerIsHost(name: string)
    requires HostText(Lower(name))
    ensures forall i :: 0 <= i < |name| ==> name[i] !in {':', '/', '?', '@', '[', '#'}
  {
    forall i | 0 <= i < |name| ensures name[i] !in {':', '/', '?', '@', '[', '#'} {
      assert HostChar(Lower(name)[i]);
    }
  }

  lemma HostIsLower(host: string)
    requires HostText(host)
    ensures Lower(host) == host
  {
    assert forall i :: 0 <= i < |host| ==> HostChar(host[i]);
  }

  function Authority(name: string, port: Option<u16>): string {
    match port
    case None => name
    case Some(p) => name + ":" + Decimal(p)
  }

  lemma FindLastAt(s: string, n: nat, c: char)
    requires n < |s| && s[n] == c && forall i :: n < i < |s| ==> s[i] != c
    ensures FindLast(s, c) == Some(n)
  {
  }

  /** An authority splits as `host` and `port` exactly when a host in any case, then perhaps a port
      as it prints, is what it spells. */
  lemma AuthoritySplits(name: string, port: Option<u16>)
    requires HostOk(Lower(name)) && (port.Some? ==> port.value > 0)
    ensures SplitHostPort(Authority(name, port)) == Ok((Lower(name), port))
    ensures '@' !in Authority(name, port)
    ensures forall i :: 0 <= i < |Authority(name, port)|
                        ==> Authority(name, port)[i] != '/' && Authority(name, port)[i] != '?'
  {
    hide HostOk, NameOk, Ipv4, Decimal, FindLast, ParsePort, Lower;
    var a := Authority(name, port);
    HostIsText(Lower(name));
    LowerIsHost(name);
    ParsesHost(name);
    if port.Some? {
      DecimalHasOnlyDigits(port.value);
      FindLastAt(a, |name|, ':');
      assert a[..|name|] == name && a[|name| + 1..] == Decimal(port.value);
      PortIsPrinted(Decimal(port.value), port.value);
      assert a[0] == name[0];
    }
    StartsWithAt(a, "[", 0);
  }

  lemma ParsesHost(name: string)
    requires HostOk(Lower(name))
    ensures ParseHost(name) == Ok(Lower(name)) && name != []
  {
    HostIsText(Lower(name));
  }

  lemma SplitsAuthority(a: string, host: string, port: Option<u16>)
    requires SplitHostPort(a) == Ok((host, port))
    ensures HostOk(host) && (port.Some? ==> port.value > 0)
    ensures exists name :: Lower(name) == host && a == Authority(name, port)
  {
    hide Decimal, NameOk, Ipv4, IsCanonical, Lower;
    match FindLast(a, ':')
    case None => assert a == Authority(a, None);
    case Some(n) =>
      PortIsPrinted(a[n + 1..], port.value);
      assert a == a[..n] + ":" + a[n + 1..];
      assert a == Authority(a[..n], port);
  }

  // ---------------------------------------------------------------- the grammar, both ways

  ghost predicate Plain(text: string) {
    forall i :: 0 <= i < |text| ==> Graphic(text[i]) && text[i] != '#'
  }

  predicate IsTail(tail: string) {
    tail == "" || tail[0] == '/' || tail[0] == '?'
  }

  /** What follows the scheme spells `t`: a host in any case, an explicit port or the scheme's own,
      and a tail. */
  ghost predicate RestSpells(rest: string, t: Target, name: string, port: Option<u16>, tail: string) {
    && rest == Authority(name, port) + tail
    && Lower(name) == t.host && HostOk(t.host)
    && (if port.Some? then port.value == t.port && t.port > 0 else t.port == if t.scheme.Https? then 443 else 80)
    && IsTail(tail) && t.path == PathOf(tail)
  }

  ghost predicate Spells(text: string, t: Target, name: string, port: Option<u16>, tail: string) {
    && StartsWith(text, SchemeText(t.scheme))
    && RestSpells(text[|SchemeText(t.scheme)|..], t, name, port, tail)
  }

  lemma AuthorityEndAt(s: string, n: nat)
    requires n <= |s| && (n < |s| ==> s[n] == '/' || s[n] == '?')
    requires forall i :: 0 <= i < n ==> s[i] != '/' && s[i] != '?'
    ensures AuthorityEnd(s) == n
  {
  }

  lemma RestParses(rest: string, t: Target, name: string, port: Option<u16>, tail: string)
    requires RestSpells(rest, t, name, port, tail)
    ensures ParseRest(t.scheme, rest) == Ok(t)
  {
    hide HostOk, Authority, SplitHostPort, Lower, AuthorityEnd;
    var a := Authority(name, port);
    AuthoritySplits(name, port);
    assert rest[..|a|] == a && rest[|a|..] == tail;
    AuthorityEndAt(rest, |a|);
  }

  lemma ParsedRestSpells(scheme: Scheme, rest: string, t: Target)
    requires ParseRest(scheme, rest) == Ok(t)
    ensures t.scheme == scheme && exists name, port, tail :: RestSpells(rest, t, name, port, tail)
  {
    hide HostOk, Authority, SplitHostPort, Lower, AuthorityEnd;
    var end := AuthorityEnd(rest);
    var port := SplitHostPort(rest[..end]).value.1;
    SplitsAuthority(rest[..end], t.host, port);
    var name :| Lower(name) == t.host && rest[..end] == Authority(name, port);
    assert rest == rest[..end] + rest[end..];
    assert RestSpells(rest, t, name, port, rest[end..]);
  }

  lemma StartsWithAt(s: string, prefix: string, i: nat)
    requires i < |prefix|
    ensures StartsWith(s, prefix) ==> i < |s| && s[i] == prefix[i]
  {
    if StartsWith(s, prefix) {
      assert s[..|prefix|][i] == s[i];
    }
  }

  lemma ParsesWhatItSpells(text: string, t: Target, name: string, port: Option<u16>, tail: string)
    requires |text| <= MAX_URL_BYTES && Plain(text) && Spells(text, t, name, port, tail)
    ensures Parse(text) == Ok(t)
  {
    hide RestSpells, ParseRest;
    RestParses(text[|SchemeText(t.scheme)|..], t, name, port, tail);
    StartsWithAt(text, SchemeText(t.scheme), 4);
    StartsWithAt(text, "https://", 4);
  }

  lemma SpellsWhatItParses(text: string, t: Target)
    requires Parse(text) == Ok(t)
    ensures |text| <= MAX_URL_BYTES && Plain(text)
    ensures exists name, port, tail :: Spells(text, t, name, port, tail)
  {
    hide RestSpells, ParseRest;
    var scheme := if StartsWith(text, "https://") then Https else Http;
    var rest := text[|SchemeText(scheme)|..];
    ParsedRestSpells(scheme, rest, t);
    var name, port, tail :| RestSpells(rest, t, name, port, tail);
    assert Spells(text, t, name, port, tail);
  }

  /** A text is accepted as `t` exactly when it fits, is plain printable text, and spells `t`. */
  lemma ParsesExactly(text: string, t: Target)
    ensures Parse(text) == Ok(t) <==>
            && |text| <= MAX_URL_BYTES && Plain(text)
            && exists name, port, tail :: Spells(text, t, name, port, tail)
  {
    hide Parse, Plain, Spells;
    if Parse(text) == Ok(t) {
      SpellsWhatItParses(text, t);
    }
    if |text| <= MAX_URL_BYTES && Plain(text) && exists name, port, tail :: Spells(text, t, name, port, tail) {
      var name, port, tail :| Spells(text, t, name, port, tail);
      ParsesWhatItSpells(text, t, name, port, tail);
    }
  }

  /** A name, label by label: 1 to 63 lower-case letters, digits and inner hyphens each, 253 in all, and the
      last neither numeric nor hexadecimal. */
  ghost predicate Labelled(host: string, labels: seq<string>) {
    && labels != [] && host == Join(labels, '.') && 1 <= |host| <= 253
    && (forall i :: 0 <= i < |labels| ==>
          && 1 <= |labels[i]| <= 63 && labels[i][0] != '-' && labels[i][|labels[i]| - 1] != '-'
          && forall j :: 0 <= j < |labels[i]| ==>
               'a' <= labels[i][j] <= 'z' || '0' <= labels[i][j] <= '9' || labels[i][j] == '-')
    && var last := labels[|labels| - 1];
       && (exists j :: 0 <= j < |last| && 'a' <= last[j] <= 'z')
       && !(|last| >= 2 && last[0] == '0' && last[1] == 'x')
  }

  lemma StartsWithTwo(s: string)
    ensures StartsWith(s, "0x") <==> |s| >= 2 && s[0] == '0' && s[1] == 'x'
  {
    if |s| >= 2 {
      assert s[..2] == [s[0], s[1]];
    }
  }

  /** A host is accepted exactly when it prints an address, or is such a name. */
  lemma HostsExactly(host: string)
    ensures HostOk(host) <==> (exists a :: host == PrintV4(a)) || exists labels :: Labelled(host, labels)
  {
    hide Split, Join, Ipv4, PrintV4;
    forall a ensures host == PrintV4(a) <==> Ipv4(host) == Some(a) {
      Ipv4IsPrinted(host, a);
    }
    if NameOk(host) {
      JoinOfSplit(host, '.');
      StartsWithTwo(Split(host, '.')[|Split(host, '.')| - 1]);
      assert Labelled(host, Split(host, '.'));
    }
    if exists labels :: Labelled(host, labels) {
      var labels :| Labelled(host, labels);
      LabelsAreOk(labels);
      SplitOfJoin(labels, '.');
      StartsWithTwo(labels[|labels| - 1]);
    }
  }

  lemma LabelsAreOk(labels: seq<string>)
    requires forall i :: 0 <= i < |labels| ==>
               && 1 <= |labels[i]| <= 63 && labels[i][0] != '-' && labels[i][|labels[i]| - 1] != '-'
               && forall j :: 0 <= j < |labels[i]| ==>
                    'a' <= labels[i][j] <= 'z' || '0' <= labels[i][j] <= '9' || labels[i][j] == '-'
    ensures forall i :: 0 <= i < |labels| ==> LabelOk(labels[i]) && Without(labels[i], '.')
  {
  }

  // ---------------------------------------------------------------- what is refused, and why

  predicate HasScheme(text: string) {
    StartsWith(text, "https://") || StartsWith(text, "http://")
  }

  /** What lies between the scheme and the first `/` or `?`. */
  function AuthorityText(text: string): string
    requires HasScheme(text)
  {
    var rest := text[if StartsWith(text, "https://") then 8 else 7..];
    rest[..AuthorityEnd(rest)]
  }

  /** What each fault says of a text, by itself. */
  ghost predicate Faulty(text: string, fault: UrlFault) {
    match fault
    case TooLong => |text| > 8192
    case Character => exists i :: 0 <= i < |text| && (text[i] < '!' || text[i] > '~' || text[i] == '\\')
    case Fragment => exists i :: 0 <= i < |text| && text[i] == '#'
    case BadScheme => !HasScheme(text)
    case Credentials => HasScheme(text) && exists i :: 0 <= i < |AuthorityText(text)| && AuthorityText(text)[i] == '@'
    case Port => HasScheme(text) && BadPort(AuthorityText(text))
    case Host => HasScheme(text) && BadAuthority(AuthorityText(text))
  }

  /** What follows the last colon is not how a number from 1 to 65535 prints. */
  ghost predicate BadPort(a: string) {
    && !(a != "" && a[0] == '[')
    && exists n :: 0 <= n < |a| && a[n] == ':' && (forall i :: n < i < |a| ==> a[i] != ':')
         && forall port: u16 :: port > 0 ==> a[n + 1..] != Decimal(port)
  }

  /** It is not an accepted host, in any case, with or without a port. */
  ghost predicate BadAuthority(a: string) {
    forall name, port: Option<u16> :: a == Authority(name, port) && (port.Some? ==> port.value > 0) ==>
      !HostOk(Lower(name))
  }

  /** The order faults are looked for in. */
  function FaultOrder(fault: UrlFault): nat {
    match fault
    case TooLong => 0
    case Character => 1
    case Fragment => 2
    case BadScheme => 3
    case Credentials => 4
    case Port => 5
    case Host => 6
  }

  lemma LastColon(a: string)
    ensures BadPort(a) <==>
            !StartsWith(a, "[") && FindLast(a, ':').Some? && ParsePort(a[FindLast(a, ':').value + 1..]).Err?
  {
    hide Decimal, ParsePort;
    assert StartsWith(a, "[") <==> a != "" && a[0] == '[';
    if FindLast(a, ':').Some? {
      var n := FindLast(a, ':').value;
      forall port: u16 | port > 0 ensures a[n + 1..] == Decimal(port) <==> ParsePort(a[n + 1..]) == Ok(port) {
        PortIsPrinted(a[n + 1..], port);
      }
      PortFault(a[n + 1..]);
    }
  }

  lemma PortFault(text: string)
    ensures ParsePort(text).Err? ==> ParsePort(text).error == Port
    ensures ParsePort(text).Ok? ==> ParsePort(text).value > 0
  {
  }

  lemma SplitFaults(a: string)
    ensures SplitHostPort(a).Err? <==> BadAuthority(a)
    ensures SplitHostPort(a).Err? ==> SplitHostPort(a).error == if BadPort(a) then Port else Host
    ensures BadPort(a) ==> BadAuthority(a)
  {
    hide HostOk, ParsePort, Lower, Authority, BadPort, SplitHostPort;
    LastColon(a);
    SplitError(a);
    if SplitHostPort(a).Ok? {
      SplitsAuthority(a, SplitHostPort(a).value.0, SplitHostPort(a).value.1);
    }
    if !BadAuthority(a) {
      var name, port: Option<u16> :| a == Authority(name, port) && (port.Some? ==> port.value > 0)
      && HostOk(Lower(name));
      AuthoritySplits(name, port);
    }
  }

  lemma SplitError(a: string)
    ensures SplitHostPort(a).Err? ==>
              SplitHostPort(a).error ==
                if !StartsWith(a, "[") && FindLast(a, ':').Some? && ParsePort(a[FindLast(a, ':').value + 1..]).Err?
                then Port else Host
    ensures !StartsWith(a, "[") && FindLast(a, ':').Some? && ParsePort(a[FindLast(a, ':').value + 1..]).Err? ==>
              SplitHostPort(a).Err?
  {
    hide Ipv4, NameOk, Lower;
    if FindLast(a, ':').Some? {
      PortFault(a[FindLast(a, ':').value + 1..]);
    }
  }

  /** The fault found is in the text, none before it is, and of its order no other is. */
  lemma FaultFound(text: string, other: UrlFault)
    ensures if Parse(text).Ok? then !Faulty(text, other)
            else Faulty(text, Parse(text).error)
                 && (FaultOrder(other) <= FaultOrder(Parse(text).error) && Faulty(text, other) ==>
                       other == Parse(text).error)
  {
    hide SplitHostPort, BadPort, BadAuthority, AuthorityEnd;
    assert '#' in text <==> Faulty(text, Fragment);
    assert !AllGraphic(text) <==> Faulty(text, Character);
    if HasScheme(text) {
      var a := AuthorityText(text);
      SplitFaults(a);
      assert '@' in a <==> Faulty(text, Credentials);
      assert |text| <= 8192 && AllGraphic(text) && '#' !in text ==>
               (Parse(text).Err? <==> '@' in a || SplitHostPort(a).Err?)
               && (Parse(text).Err? ==> Parse(text).error == if '@' in a then Credentials else SplitHostPort(a).error);
    }
  }

  /** A text is refused for `fault` exactly when the fault is in it and none before it in their order is. */
  lemma RefusedExactly(text: string, fault: UrlFault)
    ensures Parse(text) == Err(fault) <==>
            Faulty(text, fault) && forall other :: FaultOrder(other) < FaultOrder(fault) ==> !Faulty(text, other)
  {
    hide Parse, Faulty, FaultOrder;
    forall other
      ensures if Parse(text).Ok? then !Faulty(text, other)
              else FaultOrder(other) <= FaultOrder(Parse(text).error) && Faulty(text, other) ==>
                     other == Parse(text).error
    {
      FaultFound(text, other);
    }
    FaultFound(text, fault);
  }

  /** What every accepted target is. */
  ghost predicate Accepted(t: Target) {
    && HostOk(t.host) && t.port > 0
    && t.path != "" && t.path[0] == '/' && Plain(t.path)
  }

  lemma ParsedIsAccepted(text: string, t: Target)
    requires Parse(text) == Ok(t)
    ensures Accepted(t)
  {
    hide Parse, HostOk, Lower, Authority;
    SpellsWhatItParses(text, t);
    var name, port, tail :| Spells(text, t, name, port, tail);
    var from := |text| - |tail|;
    assert text == text[..|SchemeText(t.scheme)|] + text[|SchemeText(t.scheme)|..];
    assert text[from..] == tail;
    forall i | 0 <= i < |tail| ensures Graphic(tail[i]) && tail[i] != '#' {
      assert text[from + i] == tail[i];
    }
  }

  /** How a target prints, in the grammar. */
  lemma PrintSpells(t: Target)
    requires Accepted(t)
    ensures Spells(Print(t), t, t.host, Some(t.port), t.path)
  {
    hide HostOk, Plain, Decimal, Lower;
    HostIsText(t.host);
    HostIsLower(t.host);
    var scheme := SchemeText(t.scheme);
    assert Print(t) == scheme + ((t.host + ":" + Decimal(t.port)) + t.path);
    assert Print(t)[|scheme|..] == (t.host + ":" + Decimal(t.port)) + t.path;
    assert Print(t)[..|scheme|] == scheme;
  }

  lemma PrefixIsPlain(t: Target)
    requires HostOk(t.host)
    ensures Plain(SchemeText(t.scheme) + t.host + ":" + Decimal(t.port))
  {
    hide HostOk, Decimal;
    HostIsText(t.host);
    DecimalHasOnlyDigits(t.port);
    var head := SchemeText(t.scheme);
    assert Plain(head);
    PlainJoin(head, t.host);
    PlainJoin(head + t.host, ":");
    PlainJoin(head + t.host + ":", Decimal(t.port));
  }

  lemma PlainJoin(a: string, b: string)
    ensures Plain(a + b) <==> Plain(a) && Plain(b)
  {
    if Plain(a + b) {
      forall i | 0 <= i < |a| ensures Graphic(a[i]) && a[i] != '#' {
        assert (a + b)[i] == a[i];
      }
      forall i | 0 <= i < |b| ensures Graphic(b[i]) && b[i] != '#' {
        assert (a + b)[|a| + i] == b[i];
      }
    }
  }

  /** Printing an accepted target and reading it again gives the same target, unless what is
      printed is too long. */
  lemma PrintParses(text: string, t: Target)
    requires Parse(text) == Ok(t)
    ensures Parse(Print(t)) == if |Print(t)| <= MAX_URL_BYTES then Ok(t) else Err(TooLong)
  {
    hide Plain, Spells, Print, Accepted;
    ParsedIsAccepted(text, t);
    AcceptedParses(t);
  }

  lemma AcceptedParses(t: Target)
    requires Accepted(t)
    ensures Parse(Print(t)) == if |Print(t)| <= MAX_URL_BYTES then Ok(t) else Err(TooLong)
  {
    hide Plain, Spells, HostOk, Decimal, ParseRest;
    PrintSpells(t);
    PrefixIsPlain(t);
    PlainJoin(SchemeText(t.scheme) + t.host + ":" + Decimal(t.port), t.path);
    if |Print(t)| <= MAX_URL_BYTES {
      ParsesWhatItSpells(Print(t), t, t.host, Some(t.port), t.path);
    }
  }

  // ---------------------------------------------------------------- following a location

  /** A `Location` made absolute: an absolute path joins this target's scheme, host and port. */
  function Follow(t: Target, location: string): string {
    if StartsWith(location, "/") && !StartsWith(location, "//")
    then Print(t.(path := location))
    else location
  }

  /** Following an absolute path from an accepted target reads as the same scheme, host and port
      with that path, or fails for what the path itself holds, or for length. */
  lemma FollowedPathParses(text: string, t: Target, location: string)
    requires Parse(text) == Ok(t)
    requires StartsWith(location, "/") && !StartsWith(location, "//")
    ensures Parse(Follow(t, location)) ==
            if |Follow(t, location)| > MAX_URL_BYTES then Err(TooLong)
            else if !AllGraphic(location) then Err(Character)
            else if '#' in location then Err(Fragment)
            else Ok(t.(path := location))
  {
    hide HostOk, Decimal, ParseRest;
    ParsedIsAccepted(text, t);
    var u := t.(path := location);
    if Plain(location) {
      assert location[..1][0] == '/';
      AcceptedParses(u);
    } else {
      PrefixIsPlain(t);
      var head := SchemeText(t.scheme) + t.host + ":" + Decimal(t.port);
      assert Print(u) == head + location;
      GraphicJoin(head, location);
    }
  }

  lemma GraphicJoin(a: string, b: string)
    requires Plain(a)
    ensures AllGraphic(a + b) <==> AllGraphic(b)
    ensures '#' in a + b <==> '#' in b
  {
    if AllGraphic(a + b) {
      forall i | 0 <= i < |b| ensures Graphic(b[i]) {
        assert (a + b)[|a| + i] == b[i];
      }
    }
  }
}
