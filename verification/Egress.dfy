/** Deciding outgoing requests: grants, one request against a grant and what its name resolved to,
    and chains of redirects. */
module Egress {
  import opened Basics
  import opened Text
  import Url
  import R = Ranges

  const AGENT_PORT: u16 := 12345
  const AGENT_LOOPBACK_HOST := "local.avarok.net"
  const DEFAULT_PORTS: seq<u16> := [443, 8443]
  const MAX_HOSTS: nat := 8
  const MAX_REDIRECTS: u8 := 3
  const MAX_REQUEST_BODY_BYTES: u64 := 4 * 1024 * 1024
  const MAX_HEADERS: nat := 32
  const MAX_HEADER_BYTES: nat := 1024
  const METHODS := ["GET", "POST", "PUT", "DELETE", "PATCH", "HEAD"]
  const ALLOWED_HEADERS := [
    "accept", "accept-language", "authorization", "cache-control", "content-language", "content-type", "cookie",
    "if-match", "if-modified-since", "if-none-match", "if-range", "if-unmodified-since", "pragma", "range",
    "user-agent"]
  const METADATA := [
    R.V4([169, 254, 169, 254]), R.V4([100, 100, 100, 200]), R.V6([0xfd00, 0xec2, 0, 0, 0, 0, 0, 0x254])]

  // ---------------------------------------------------------------- the grant

  /** Where a request leaves from. */
  datatype Origin = HostEgress(private: bool) | ServerEgress

  datatype AllowedHost = AllowedHost(host: string, port: Option<u16>)
  {
    predicate Admits(name: string, at: u16) {
      host == name && if port.Some? then port.value == at else at in DEFAULT_PORTS
    }
  }

  datatype GrantFault =
    | NoHosts
    | TooManyHosts
    | Wildcard(entry: string)
    | Malformed(entry: string)
    | Duplicate(entry: string)

  datatype NetGrant = NetGrant(egress: Origin, hosts: seq<AllowedHost>)
  {
    predicate Private() {
      egress.HostEgress? && egress.private
    }

    predicate Admits(name: string, at: u16) {
      exists i :: 0 <= i < |hosts| && hosts[i].Admits(name, at)
    }
  }

  function ParseAllowed(entry: string): Result<AllowedHost, GrantFault> {
    if '*' in entry then Err(Wildcard(entry))
    else if '/' in entry || '@' in entry || '?' in entry || '#' in entry || entry != Lower(entry)
    then Err(Malformed(entry))
    else
      match Url.SplitHostPort(entry)
      case Err(_) => Err(Malformed(entry))
      case Ok((host, port)) => Ok(AllowedHost(host, port))
  }

  /** An entry is accepted exactly when it is how its host and port are written. */
  lemma AllowedIsWritten(entry: string, h: AllowedHost)
    ensures ParseAllowed(entry) == Ok(h) <==>
            Url.HostOk(h.host) && (h.port.Some? ==> h.port.value > 0) && entry == Url.Authority(h.host, h.port)
  {
    hide Url.HostOk, Url.SplitHostPort, Decimal, Lower;
    if ParseAllowed(entry) == Ok(h) {
      Url.SplitsAuthority(entry, h.host, h.port);
      var name :| Lower(name) == h.host && entry == Url.Authority(name, h.port);
      assert forall i :: 0 <= i < |name| ==> name[i] == entry[i] == Lower(entry)[i] == LowerChar(name[i]);
      assert name == h.host;
    } else if Url.HostOk(h.host) && (h.port.Some? ==> h.port.value > 0) && entry == Url.Authority(h.host, h.port) {
      Url.HostIsText(h.host);
      Url.HostIsLower(h.host);
      Url.AuthoritySplits(h.host, h.port);
      WrittenIsLower(h);
    }
  }

  lemma WrittenIsLower(h: AllowedHost)
    requires Url.HostText(h.host)
    ensures var entry := Url.Authority(h.host, h.port);
            entry == Lower(entry) && forall i :: 0 <= i < |entry| ==> entry[i] !in {'*', '/', '@', '?', '#'}
  {
    hide Decimal;
    var entry := Url.Authority(h.host, h.port);
    if h.port.Some? {
      Url.DecimalHasOnlyDigits(h.port.value);
    }
    forall i | 0 <= i < |entry| ensures (Url.HostChar(entry[i]) || entry[i] == ':') {
      if i < |h.host| {
        assert entry[i] == h.host[i];
      } else if i > |h.host| {
        assert entry[i] == Decimal(h.port.value)[i - |h.host| - 1];
      }
    }
    assert forall i :: 0 <= i < |entry| ==> LowerChar(entry[i]) == entry[i];
  }

  /** The hosts of entries accepted one after the other, none twice. */
  function HostsOf(entries: seq<string>): Result<seq<AllowedHost>, GrantFault> {
    if entries == [] then Ok([])
    else
      var entry := entries[|entries| - 1];
      match HostsOf(entries[..|entries| - 1])
      case Err(fault) => Err(fault)
      case Ok(hosts) =>
        match ParseAllowed(entry)
        case Err(fault) => Err(fault)
        case Ok(host) => if host in hosts then Err(Duplicate(entry)) else Ok(hosts + [host])
  }

  function GrantOf(egress: Origin, entries: seq<string>): Result<NetGrant, GrantFault> {
    if entries == [] then Err(NoHosts)
    else if |entries| > MAX_HOSTS then Err(TooManyHosts)
    else
      match HostsOf(entries)
      case Err(fault) => Err(fault)
      case Ok(hosts) => Ok(NetGrant(egress, hosts))
  }

  lemma {:induction false} HostsStop(entries: seq<string>, n: nat)
    requires n <= |entries| && HostsOf(entries[..n]).Err?
    ensures HostsOf(entries) == HostsOf(entries[..n])
    decreases |entries|
  {
    hide ParseAllowed;
    if n < |entries| {
      var front := entries[..|entries| - 1];
      assert front[..n] == entries[..n];
      HostsStop(front, n);
    } else {
      assert entries[..n] == entries;
    }
  }

  /** One to `MAX_HOSTS` distinct, explicit entries. */
  method NewGrant(egress: Origin, entries: seq<string>) returns (grant: Result<NetGrant, GrantFault>)
    ensures grant == GrantOf(egress, entries)
  {
    hide ParseAllowed;
    if entries == [] {
      return Err(NoHosts);
    }
    if |entries| > MAX_HOSTS {
      return Err(TooManyHosts);
    }
    var hosts: seq<AllowedHost> := [];
    for n := 0 to |entries|
      invariant HostsOf(entries[..n]) == Ok(hosts)
    {
      assert entries[..n + 1][..n] == entries[..n];
      var host := ParseAllowed(entries[n]);
      if host.Err? {
        HostsStop(entries, n + 1);
        return Err(host.error);
      }
      if host.value in hosts {
        HostsStop(entries, n + 1);
        return Err(Duplicate(entries[n]));
      }
      hosts := hosts + [host.value];
    }
    assert entries[..|entries|] == entries;
    return Ok(NetGrant(egress, hosts));
  }

  ghost predicate Written(entries: seq<string>, hosts: seq<AllowedHost>) {
    && |hosts| == |entries|
    && (forall i :: 0 <= i < |entries| ==> ParseAllowed(entries[i]) == Ok(hosts[i]))
    && (forall i, j :: 0 <= i < j < |entries| ==> entries[i] != entries[j])
  }

  lemma {:induction false} HostsAreWritten(entries: seq<string>, hosts: seq<AllowedHost>)
    ensures HostsOf(entries) == Ok(hosts) <==> Written(entries, hosts)
    decreases |entries|
  {
    hide ParseAllowed, Url.HostOk;
    if entries == [] {
    } else if |hosts| > 0 {
      var front, last := entries[..|entries| - 1], entries[|entries| - 1];
      var before, h := hosts[..|hosts| - 1], hosts[|hosts| - 1];
      HostsAreWritten(front, before);
      assert hosts == before + [h];
      if HostsOf(front).Ok? {
        HostsAreWritten(front, HostsOf(front).value);
      }
      if Written(front, before) && ParseAllowed(last) == Ok(h) {
        LastIsNew(front, before, last, h);
      }
      if Written(entries, hosts) {
        assert forall i :: 0 <= i < |front| ==> front[i] == entries[i] && before[i] == hosts[i];
        assert ParseAllowed(entries[|front|]) == Ok(hosts[|front|]);
        assert forall i :: 0 <= i < |front| ==> entries[i] != entries[|front|];
      }
    }
  }

  /** A host is in the list exactly when its entry is. */
  lemma LastIsNew(front: seq<string>, before: seq<AllowedHost>, last: string, h: AllowedHost)
    requires Written(front, before) && ParseAllowed(last) == Ok(h)
    ensures h in before <==> last in front
  {
    hide ParseAllowed, Url.HostOk, Url.Authority;
    AllowedIsWritten(last, h);
    forall i | 0 <= i < |front| ensures before[i] == h <==> front[i] == last {
      AllowedIsWritten(front[i], before[i]);
    }
  }

  /** A grant is made exactly of one to `MAX_HOSTS` distinct entries, each accepted, in order. */
  lemma GrantIsMade(egress: Origin, entries: seq<string>, grant: NetGrant)
    ensures GrantOf(egress, entries) == Ok(grant) <==>
            grant.egress == egress && 1 <= |entries| <= MAX_HOSTS && Written(entries, grant.hosts)
  {
    hide HostsOf, ParseAllowed;
    HostsAreWritten(entries, grant.hosts);
    if HostsOf(entries).Ok? {
      HostsAreWritten(entries, HostsOf(entries).value);
    }
  }

  /** The `n`-th entry is refused, the ones before it being accepted. */
  ghost predicate RefusedAt(entries: seq<string>, n: nat, fault: GrantFault) {
    && n < |entries| && (exists hosts :: Written(entries[..n], hosts))
    && var entry := entries[n];
       if '*' in entry then fault == Wildcard(entry)
       else if forall h :: ParseAllowed(entry) != Ok(h) then fault == Malformed(entry)
       else entry in entries[..n] && fault == Duplicate(entry)
  }

  lemma ParseFault(entry: string)
    ensures ParseAllowed(entry).Err? ==>
              ParseAllowed(entry).error == if '*' in entry then Wildcard(entry) else Malformed(entry)
    ensures ParseAllowed(entry).Err? <==> '*' in entry || forall h :: ParseAllowed(entry) != Ok(h)
  {
    hide Url.SplitHostPort, Lower;
  }

  lemma {:induction false} HostsFault(entries: seq<string>, fault: GrantFault)
    ensures HostsOf(entries) == Err(fault) <==> exists n: nat :: RefusedAt(entries, n, fault)
    decreases |entries|
  {
    hide ParseAllowed, Written, HostsOf;
    if entries == [] {
      NoHostsYet();
    } else {
      var front, last := entries[..|entries| - 1], entries[|entries| - 1];
      HostsFault(front, fault);
      LastFault(entries, fault);
      forall n: nat | n < |front| ensures RefusedAt(entries, n, fault) <==> RefusedAt(front, n, fault) {
        assert front[..n] == entries[..n];
      }
    }
  }

  lemma NoHostsYet()
    ensures HostsOf([]) == Ok([])
  {
  }

  lemma LastFault(entries: seq<string>, fault: GrantFault)
    requires entries != []
    ensures var front := entries[..|entries| - 1];
            HostsOf(entries) == Err(fault) <==>
              HostsOf(front) == Err(fault) || RefusedAt(entries, |front|, fault)
  {
    hide ParseAllowed, Written;
    var front, last := entries[..|entries| - 1], entries[|entries| - 1];
    ParseFault(last);
    forall hosts ensures HostsOf(front) == Ok(hosts) <==> Written(front, hosts) {
      HostsAreWritten(front, hosts);
    }
    if HostsOf(front).Ok? && ParseAllowed(last).Ok? {
      LastIsNew(front, HostsOf(front).value, last, ParseAllowed(last).value);
    }
  }

  /** A grant is refused exactly for having no entry, for having more than eight, or for the first entry
      that has a wildcard, is not written as one, or was there before. */
  lemma GrantIsRefused(egress: Origin, entries: seq<string>, fault: GrantFault)
    ensures GrantOf(egress, entries) == Err(fault) <==>
            if |entries| == 0 then fault == NoHosts
            else if |entries| > 8 then fault == TooManyHosts
            else exists n: nat :: RefusedAt(entries, n, fault)
  {
    hide HostsOf, RefusedAt;
    HostsFault(entries, fault);
  }

  // ---------------------------------------------------------------- the decision

  datatype Request = Request(verb: string, url: string, headers: seq<(string, string)>, bodyLen: u64)

  datatype Deployment = Deployment(pageOriginHost: string)

  datatype DenyReason =
    | BadUrl(fault: Url.UrlFault)
    | BadScheme
    | BadMethod
    | BadBody
    | BadHeaders
    | NotListed
    | AgentHost
    | PageOrigin
    | NoAddress
    | AgentPort
    | IsMetadata(ip: R.IpAddr)
    | BadAddress(ip: R.IpAddr, kind: R.AddressClass)
    | TooManyRedirects
    | RedirectOffHost
    | RedirectDowngrade

  datatype SocketAddr = SocketAddr(ip: R.IpAddr, port: u16)

  datatype Allowed = Allowed(target: Url.Target, connect: seq<SocketAddr>)

  datatype Verdict = Allow(allowed: Allowed) | Deny(reason: DenyReason)

  predicate EndsWith(s: string, suffix: string) {
    |suffix| <= |s| && s[|s| - |suffix|..] == suffix
  }

  predicate IsAgentHost(host: string) {
    host == AGENT_LOOPBACK_HOST || EndsWith(host, "." + AGENT_LOOPBACK_HOST)
  }

  predicate NameAllowed(name: string) {
    && name != [] && (forall i :: 0 <= i < |name| ==> Url.LabelChar(name[i]))
    && (name in ALLOWED_HEADERS
        || (StartsWith(name, "x-") && |name| > 2 && !StartsWith(name, "x-forwarded-") && name != "x-real-ip"))
  }

  predicate ValueAllowed(value: string) {
    forall i :: 0 <= i < |value| ==> value[i] == '\t' || ' ' <= value[i] <= '~'
  }

  predicate HeadersAllowed(headers: seq<(string, string)>) {
    && |headers| <= MAX_HEADERS
    && forall i :: 0 <= i < |headers| ==>
         && |headers[i].0| + |headers[i].1| <= MAX_HEADER_BYTES
         && NameAllowed(headers[i].0) && ValueAllowed(headers[i].1)
  }

  function CheckAddress(ip: R.IpAddr, grant: NetGrant): Option<DenyReason> {
    if R.Canonical(ip) in METADATA || ip in METADATA then Some(IsMetadata(ip))
    else
      var kind := R.Classify(ip);
      if kind.Public? || (kind.Private? && grant.Private()) then None else Some(BadAddress(ip, kind))
  }

  /** The first address refused decides. */
  function CheckAddresses(ips: seq<R.IpAddr>, grant: NetGrant): Option<DenyReason> {
    if ips == [] then None
    else
      match CheckAddress(ips[0], grant)
      case Some(reason) => Some(reason)
      case None => CheckAddresses(ips[1..], grant)
  }

  /** A literal host is its own address; what the caller resolved is ignored then. */
  function AddressesOf(target: Url.Target, resolved: seq<R.IpAddr>): seq<R.IpAddr> {
    match Url.Ipv4(target.host)
    case Some(literal) => [R.V4(literal)]
    case None => resolved
  }

  function Connections(ips: seq<R.IpAddr>, port: u16): seq<SocketAddr> {
    seq(|ips|, i requires 0 <= i < |ips| => SocketAddr(ips[i], port))
  }

  function Check(request: Request, resolved: seq<R.IpAddr>, grant: NetGrant,
      deployment: Deployment): Result<Allowed, DenyReason> {
    match Url.Parse(request.url)
    case Err(fault) => Err(BadUrl(fault))
    case Ok(target) =>
      if IsAgentHost(target.host) then Err(AgentHost)
      else if target.host == deployment.pageOriginHost then Err(PageOrigin)
      else if target.port == AGENT_PORT then Err(AgentPort)
      else if target.scheme.Http? && !grant.Private() then Err(BadScheme)
      else if request.verb !in METHODS then Err(BadMethod)
      else if request.bodyLen > MAX_REQUEST_BODY_BYTES || (request.verb in ["GET", "HEAD"] && request.bodyLen > 0)
      then Err(BadBody)
      else if !HeadersAllowed(request.headers) then Err(BadHeaders)
      else if !grant.Admits(target.host, target.port) then Err(NotListed)
      else
        var ips := AddressesOf(target, resolved);
        if ips == [] then Err(NoAddress)
        else
          match CheckAddresses(ips, grant)
          case Some(reason) => Err(reason)
          case None => Ok(Allowed(target, Connections(ips, target.port)))
  }

  function Decide(request: Request, resolved: seq<R.IpAddr>, grant: NetGrant, deployment: Deployment): Verdict {
    match Check(request, resolved, grant, deployment)
    case Ok(allowed) => Allow(allowed)
    case Err(reason) => Deny(reason)
  }

  /** Hop `hop` of a chain, 1 for the first redirect. */
  function DecideRedirect(previous: Allowed, hop: u8, next: Request, resolved: seq<R.IpAddr>, grant: NetGrant,
      deployment: Deployment)
    : Verdict
  {
    if hop == 0 || hop > MAX_REDIRECTS then Deny(TooManyRedirects)
    else
      match Url.Parse(next.url)
      case Err(fault) => Deny(BadUrl(fault))
      case Ok(target) =>
        if target.host != previous.target.host then Deny(RedirectOffHost)
        else if previous.target.scheme.Https? && target.scheme.Http? then Deny(RedirectDowngrade)
        else Decide(next, resolved, grant, deployment)
  }

  // ---------------------------------------------------------------- what an allowed request may reach

  ghost predicate Reachable(ip: R.IpAddr, grant: NetGrant) {
    && R.Canonical(ip) !in METADATA && ip !in METADATA
    && (R.Classify(ip).Public? || (R.Classify(ip).Private? && grant.Private()))
  }

  lemma {:induction false} AllReachable(ips: seq<R.IpAddr>, grant: NetGrant)
    ensures CheckAddresses(ips, grant).None? <==> forall i :: 0 <= i < |ips| ==> Reachable(ips[i], grant)
  {
    hide R.Canonical, R.Classify;
    if ips != [] {
      AllReachable(ips[1..], grant);
      assert forall i :: 0 < i < |ips| ==> ips[i] == ips[1..][i - 1];
    }
  }

  /** Addresses that carry an IPv4 address are treated as it is, metadata endpoints included. */
  lemma EmbeddedReachableAlike(a: Octets, rest: seq<u16>, grant: NetGrant)
    requires |rest| == 5
    ensures Reachable(R.Mapped(a), grant) <==> Reachable(R.V4(a), grant)
    ensures Reachable(R.Nat64(a), grant) <==> Reachable(R.V4(a), grant)
    ensures Reachable(R.SixToFour(a, rest), grant) <==> Reachable(R.V4(a), grant)
  {
    hide R.Classify;
    R.EmbeddedAlike(a, rest);
    assert R.SixToFour(a, rest).segments[3..] == rest;
    R.CanonicalIsV4(R.Mapped(a), a);
    R.CanonicalIsV4(R.Nat64(a), a);
    R.CanonicalIsV4(R.SixToFour(a, rest), a);
    assert R.SixToFour(a, rest).segments[0] == 0x2002;
  }

  /** The agent's own name, or a name below it. */
  ghost predicate AgentName(host: string) {
    host == "local.avarok.net" || exists n :: 0 <= n <= |host| && host[n..] == ".local.avarok.net"
  }

  /** The grant lists the host with this port, or with none and the port is one of the usual two. */
  ghost predicate Listed(grant: NetGrant, host: string, port: u16) {
    exists h :: h in grant.hosts && h.host == host
      && (h.port == Some(port) || (h.port.None? && (port == 443 || port == 8443)))
  }

  /** The addresses a request for `host` goes to: its own if it is written as one, or what it resolved to. */
  ghost predicate GoesTo(host: string, resolved: seq<R.IpAddr>, ips: seq<R.IpAddr>) {
    if exists a :: host == Url.PrintV4(a) then exists a :: host == Url.PrintV4(a) && ips == [R.V4(a)]
    else ips == resolved
  }

  /** What a decision for a target stands on. */
  ghost predicate Sound(allowed: Allowed, resolved: seq<R.IpAddr>, grant: NetGrant, deployment: Deployment) {
    var t := allowed.target;
    && !AgentName(t.host) && t.host != deployment.pageOriginHost && t.port != 12345
    && (t.scheme.Http? ==> grant.egress == HostEgress(true))
    && Listed(grant, t.host, t.port)
    && allowed.connect != []
    && (forall i :: 0 <= i < |allowed.connect| ==>
          allowed.connect[i].port == t.port && Reachable(allowed.connect[i].ip, grant))
    && GoesTo(t.host, resolved, seq(|allowed.connect|, i requires 0 <= i < |allowed.connect| => allowed.connect[i].ip))
  }

  /** A header an app may set: a listed name or one of its own, in lower case, and a printable value. */
  ghost predicate MaySet(name: string, value: string) {
    && name != ""
    && (forall i :: 0 <= i < |name| ==> 'a' <= name[i] <= 'z' || '0' <= name[i] <= '9' || name[i] == '-')
    && (|| name in {"accept", "accept-language", "authorization", "cache-control", "content-language", "content-type",
                    "cookie", "if-match", "if-modified-since", "if-none-match", "if-range", "if-unmodified-since",
                    "pragma", "range", "user-agent"}
        || (|name| >= 3 && name[0] == 'x' && name[1] == '-' && name != "x-real-ip"
            && !(|name| >= 12 && name[..12] == "x-forwarded-")))
    && (forall i :: 0 <= i < |value| ==> value[i] == '\t' || ' ' <= value[i] <= '~')
  }

  ghost predicate HeadersFine(headers: seq<(string, string)>) {
    && |headers| <= 32
    && forall i :: 0 <= i < |headers| ==>
         |headers[i].0| + |headers[i].1| <= 1024 && MaySet(headers[i].0, headers[i].1)
  }

  ghost predicate BodyFine(request: Request) {
    request.bodyLen <= (if request.verb == "GET" || request.verb == "HEAD" then 0 else 4_194_304)
  }

  /** What an app may ask. */
  ghost predicate MayAsk(request: Request) {
    && request.verb in {"GET", "POST", "PUT", "DELETE", "PATCH", "HEAD"} && HeadersFine(request.headers)
    && BodyFine(request)
  }

  lemma AgentNameIs(host: string)
    ensures IsAgentHost(host) <==> AgentName(host)
  {
    DottedName();
    SuffixIs(host, ".local.avarok.net");
  }

  lemma DottedName()
    ensures "." + AGENT_LOOPBACK_HOST == ".local.avarok.net"
  {
  }

  lemma SuffixIs(s: string, suffix: string)
    ensures EndsWith(s, suffix) <==> exists n :: 0 <= n <= |s| && s[n..] == suffix
  {
    if exists n :: 0 <= n <= |s| && s[n..] == suffix {
      var n :| 0 <= n <= |s| && s[n..] == suffix;
      assert |s[n..]| == |s| - n;
    }
  }

  lemma ListedIs(grant: NetGrant, host: string, port: u16)
    ensures grant.Admits(host, port) <==> Listed(grant, host, port)
  {
    if grant.Admits(host, port) {
      var i :| 0 <= i < |grant.hosts| && grant.hosts[i].Admits(host, port);
      assert grant.hosts[i] in grant.hosts;
    }
    if Listed(grant, host, port) {
      var h :| h in grant.hosts && h.host == host
        && (h.port == Some(port) || (h.port.None? && (port == 443 || port == 8443)));
      assert DEFAULT_PORTS[0] == 443 && DEFAULT_PORTS[1] == 8443;
      assert h.Admits(host, port);
    }
  }

  lemma NameIs(name: string, value: string)
    ensures NameAllowed(name) && ValueAllowed(value) <==> MaySet(name, value)
  {
    StartsWithTwo(name);
    assert StartsWith(name, "x-forwarded-") <==> |name| >= 12 && name[..12] == "x-forwarded-";
  }

  lemma StartsWithTwo(name: string)
    ensures StartsWith(name, "x-") <==> |name| >= 2 && name[0] == 'x' && name[1] == '-'
  {
    if |name| >= 2 {
      assert name[..2] == [name[0], name[1]];
    }
  }

  lemma HeadersAre(headers: seq<(string, string)>)
    ensures HeadersAllowed(headers) <==> HeadersFine(headers)
  {
    hide NameAllowed, ValueAllowed, MaySet;
    forall i | 0 <= i < |headers|
      ensures NameAllowed(headers[i].0) && ValueAllowed(headers[i].1) <==> MaySet(headers[i].0, headers[i].1)
    {
      NameIs(headers[i].0, headers[i].1);
    }
  }

  lemma GoesToIs(target: Url.Target, resolved: seq<R.IpAddr>, ips: seq<R.IpAddr>)
    ensures GoesTo(target.host, resolved, ips) <==> ips == AddressesOf(target, resolved)
  {
    hide Url.Ipv4, Url.PrintV4;
    forall a ensures target.host == Url.PrintV4(a) <==> Url.Ipv4(target.host) == Some(a) {
      Url.Ipv4IsPrinted(target.host, a);
    }
  }

  /** A request is allowed as `a` exactly when it is one an app may make, its URL reads as `a`'s
      target, and everything the decision stands on holds of it. */
  lemma AllowedExactly(request: Request, resolved: seq<R.IpAddr>, grant: NetGrant, deployment: Deployment, a: Allowed)
    ensures Decide(request, resolved, grant, deployment) == Allow(a) <==>
            MayAsk(request) && Url.Parse(request.url) == Ok(a.target) && Sound(a, resolved, grant, deployment)
  {
    hide Reachable, HeadersAllowed, HeadersFine, CheckAddresses, IsAgentHost, AgentName, Listed, Url.Parse, Url.Ipv4,
      GoesTo, AddressesOf;
    if Url.Parse(request.url).Ok? {
      var target := Url.Parse(request.url).value;
      var ips := AddressesOf(target, resolved);
      AgentNameIs(target.host);
      ListedIs(grant, target.host, target.port);
      HeadersAre(request.headers);
      VerbsAre(request.verb);
      AllReachable(ips, grant);
      var connect := Connections(ips, target.port);
      assert ips == [] <==> connect == [];
      assert forall i :: 0 <= i < |ips| ==> connect[i].ip == ips[i];
      ConnectsTo(target, resolved, a);
    }
  }

  lemma VerbsAre(verb: string)
    ensures verb in METHODS <==> verb in {"GET", "POST", "PUT", "DELETE", "PATCH", "HEAD"}
    ensures verb in ["GET", "HEAD"] <==> verb == "GET" || verb == "HEAD"
  {
  }

  /** The connections are to the addresses, each on the target's port. */
  lemma ConnectsTo(target: Url.Target, resolved: seq<R.IpAddr>, a: Allowed)
    ensures var ips := AddressesOf(target, resolved);
            a.connect == Connections(ips, target.port) <==>
              && (forall i :: 0 <= i < |a.connect| ==> a.connect[i].port == target.port)
              && GoesTo(target.host, resolved, seq(|a.connect|, i requires 0 <= i < |a.connect| => a.connect[i].ip))
  {
    hide GoesTo, AddressesOf;
    var ips := AddressesOf(target, resolved);
    var to := seq(|a.connect|, i requires 0 <= i < |a.connect| => a.connect[i].ip);
    GoesToIs(target, resolved, to);
    var connect := Connections(ips, target.port);
    if to == ips && forall i :: 0 <= i < |a.connect| ==> a.connect[i].port == target.port {
      forall i | 0 <= i < |ips| ensures a.connect[i] == connect[i] {
        assert to[i] == ips[i];
      }
    }
    if a.connect == connect {
      forall i | 0 <= i < |ips| ensures to[i] == ips[i] {
        assert a.connect[i] == connect[i];
      }
    }
  }

  // ---------------------------------------------------------------- why a request is denied

  /** `ip` is the first address the request goes to that it may not reach. */
  ghost predicate FirstBarred(host: string, resolved: seq<R.IpAddr>, grant: NetGrant, ip: R.IpAddr) {
    exists ips, n: nat :: GoesTo(host, resolved, ips) && n < |ips| && ips[n] == ip && !Reachable(ip, grant)
      && forall i: nat :: i < n ==> Reachable(ips[i], grant)
  }

  /** What each reason says of a request, by itself. */
  ghost predicate Says(reason: DenyReason, request: Request, resolved: seq<R.IpAddr>, grant: NetGrant,
      deployment: Deployment)
  {
    var url := Url.Parse(request.url);
    match reason
    case BadUrl(fault) => url == Err(fault)
    case AgentHost => url.Ok? && AgentName(url.value.host)
    case PageOrigin => url.Ok? && url.value.host == deployment.pageOriginHost
    case AgentPort => url.Ok? && url.value.port == 12345
    case BadScheme => url.Ok? && url.value.scheme.Http? && grant.egress != HostEgress(true)
    case BadMethod => url.Ok? && request.verb !in {"GET", "POST", "PUT", "DELETE", "PATCH", "HEAD"}
    case BadBody => url.Ok? && !BodyFine(request)
    case BadHeaders => url.Ok? && !HeadersFine(request.headers)
    case NotListed => url.Ok? && !Listed(grant, url.value.host, url.value.port)
    case NoAddress => url.Ok? && GoesTo(url.value.host, resolved, [])
    case IsMetadata(ip) =>
      url.Ok? && FirstBarred(url.value.host, resolved, grant, ip) && (R.Canonical(ip) in METADATA || ip in METADATA)
    case BadAddress(ip, kind) =>
      && url.Ok? && FirstBarred(url.value.host, resolved, grant, ip) && kind == R.Classify(ip)
      && R.Canonical(ip) !in METADATA && ip !in METADATA
    case _ => false
  }

  /** The order reasons are looked for in. */
  function Order(reason: DenyReason): nat {
    match reason
    case BadUrl(_) => 0
    case AgentHost => 1
    case PageOrigin => 2
    case AgentPort => 3
    case BadScheme => 4
    case BadMethod => 5
    case BadBody => 6
    case BadHeaders => 7
    case NotListed => 8
    case NoAddress => 9
    case _ => 10
  }

  lemma {:induction false} AddressBars(ips: seq<R.IpAddr>, grant: NetGrant, reason: DenyReason) returns (n: nat)
    requires CheckAddresses(ips, grant) == Some(reason)
    ensures n < |ips| && !Reachable(ips[n], grant) && forall i: nat :: i < n ==> Reachable(ips[i], grant)
    ensures if R.Canonical(ips[n]) in METADATA || ips[n] in METADATA then reason == IsMetadata(ips[n])
            else reason == BadAddress(ips[n], R.Classify(ips[n]))
    decreases |ips|
  {
    hide R.Canonical, R.Classify;
    if CheckAddress(ips[0], grant).Some? {
      return 0;
    }
    var rest := AddressBars(ips[1..], grant, reason);
    n := rest + 1;
    assert forall i: nat :: 0 < i < |ips| ==> ips[i] == ips[1..][i - 1];
  }

  /** The first address barred is one. */
  lemma BarredOnce(ips: seq<R.IpAddr>, grant: NetGrant, m: nat, n: nat)
    requires m < |ips| && n < |ips| && !Reachable(ips[m], grant) && !Reachable(ips[n], grant)
    requires forall i: nat :: i < n ==> Reachable(ips[i], grant)
    requires forall i: nat :: i < m ==> Reachable(ips[i], grant)
    ensures m == n
  {
    hide Reachable;
  }

  lemma AddressReason(target: Url.Target, resolved: seq<R.IpAddr>, grant: NetGrant, ip: R.IpAddr)
    requires CheckAddresses(AddressesOf(target, resolved), grant).Some?
    ensures var reason := CheckAddresses(AddressesOf(target, resolved), grant).value;
            FirstBarred(target.host, resolved, grant, ip) <==>
              (reason == IsMetadata(ip) && (R.Canonical(ip) in METADATA || ip in METADATA))
              || (reason == BadAddress(ip, R.Classify(ip)) && R.Canonical(ip) !in METADATA && ip !in METADATA)
  {
    hide R.Canonical, R.Classify, Reachable, GoesTo, AddressesOf, CheckAddresses;
    var ips := AddressesOf(target, resolved);
    var n := AddressBars(ips, grant, CheckAddresses(ips, grant).value);
    GoesToIs(target, resolved, ips);
    if FirstBarred(target.host, resolved, grant, ip) {
      var others, m: nat :| GoesTo(target.host, resolved, others) && m < |others| && others[m] == ip
        && !Reachable(ip, grant) && forall i: nat :: i < m ==> Reachable(others[i], grant);
      GoesToIs(target, resolved, others);
      BarredOnce(ips, grant, m, n);
    }
  }

  /** The reason found holds, none before it does, and of its order no other does. */
  lemma DenialSays(request: Request, resolved: seq<R.IpAddr>, grant: NetGrant, deployment: Deployment,
      reason: DenyReason, other: DenyReason)
    requires Check(request, resolved, grant, deployment) == Err(reason)
    ensures Says(reason, request, resolved, grant, deployment)
    ensures Order(other) <= Order(reason) && Says(other, request, resolved, grant, deployment) ==> other == reason
  {
    hide Reachable, HeadersAllowed, HeadersFine, CheckAddresses, IsAgentHost, AgentName, Listed, Url.Parse, Url.Ipv4,
      GoesTo, AddressesOf, FirstBarred, R.Canonical, R.Classify;
    if Url.Parse(request.url).Ok? {
      var target := Url.Parse(request.url).value;
      AgentNameIs(target.host);
      ListedIs(grant, target.host, target.port);
      HeadersAre(request.headers);
      VerbsAre(request.verb);
      GoesToIs(target, resolved, []);
      if CheckAddresses(AddressesOf(target, resolved), grant).Some? {
        var found := CheckAddresses(AddressesOf(target, resolved), grant).value;
        BarsMeta(AddressesOf(target, resolved), grant);
        if found.IsMetadata? || found.BadAddress? {
          AddressReason(target, resolved, grant, found.ip);
        }
        if other.IsMetadata? || other.BadAddress? {
          AddressReason(target, resolved, grant, other.ip);
        }
      }
    }
  }

  lemma BarsMeta(ips: seq<R.IpAddr>, grant: NetGrant)
    requires CheckAddresses(ips, grant).Some?
    ensures var reason := CheckAddresses(ips, grant).value;
            if reason.IsMetadata? then R.Canonical(reason.ip) in METADATA || reason.ip in METADATA
            else reason.BadAddress? && reason.kind == R.Classify(reason.ip)
                 && R.Canonical(reason.ip) !in METADATA && reason.ip !in METADATA
  {
    hide R.Canonical, R.Classify;
    var n := AddressBars(ips, grant, CheckAddresses(ips, grant).value);
  }

  /** Of an allowed request no reason holds. */
  lemma AllowedSaysNothing(request: Request, resolved: seq<R.IpAddr>, grant: NetGrant, deployment: Deployment,
      reason: DenyReason)
    requires Check(request, resolved, grant, deployment).Ok?
    ensures !Says(reason, request, resolved, grant, deployment)
  {
    hide Reachable, HeadersAllowed, HeadersFine, CheckAddresses, IsAgentHost, AgentName, Listed, Url.Parse, Url.Ipv4,
      GoesTo, AddressesOf, FirstBarred, R.Canonical, R.Classify;
    var target := Url.Parse(request.url).value;
    AgentNameIs(target.host);
    ListedIs(grant, target.host, target.port);
    HeadersAre(request.headers);
    VerbsAre(request.verb);
    GoesToIs(target, resolved, []);
    if reason.IsMetadata? || reason.BadAddress? {
      NothingBarred(target, resolved, grant, reason.ip);
    }
  }

  lemma NothingBarred(target: Url.Target, resolved: seq<R.IpAddr>, grant: NetGrant, ip: R.IpAddr)
    requires CheckAddresses(AddressesOf(target, resolved), grant).None?
    ensures !FirstBarred(target.host, resolved, grant, ip)
  {
    hide Reachable, GoesTo, AddressesOf, CheckAddresses;
    AllReachable(AddressesOf(target, resolved), grant);
    forall ips | GoesTo(target.host, resolved, ips) ensures ips == AddressesOf(target, resolved) {
      GoesToIs(target, resolved, ips);
    }
  }

  /** A request is denied for `reason` exactly when the reason holds of it and none before it in their
      order does. */
  lemma DeniedExactly(request: Request, resolved: seq<R.IpAddr>, grant: NetGrant, deployment: Deployment,
      reason: DenyReason)
    ensures Decide(request, resolved, grant, deployment) == Deny(reason) <==>
            Says(reason, request, resolved, grant, deployment)
            && forall other :: Order(other) < Order(reason) ==> !Says(other, request, resolved, grant, deployment)
  {
    hide Says, Check, Order;
    match Check(request, resolved, grant, deployment)
    case Ok(_) => AllowedSaysNothing(request, resolved, grant, deployment, reason);
    case Err(found) =>
      forall other
        ensures Order(other) <= Order(found) && Says(other, request, resolved, grant, deployment) ==> other == found
      {
        DenialSays(request, resolved, grant, deployment, found, other);
      }
      DenialSays(request, resolved, grant, deployment, found, found);
  }

  // ---------------------------------------------------------------- redirect chains

  /** What a redirect is answered, exactly: hops past the third are too many; then the URL must read, on
      the same host, and not go from https back to http; and then it is decided as any request. */
  lemma RedirectExactly(previous: Allowed, hop: u8, next: Request, resolved: seq<R.IpAddr>, grant: NetGrant,
      deployment: Deployment)
    ensures var verdict, url := DecideRedirect(previous, hop, next, resolved, grant, deployment), Url.Parse(next.url);
            var inReach := 1 <= hop <= 3;
            var sameHost := url.Ok? && url.value.host == previous.target.host;
            var downgrade := sameHost && previous.target.scheme == Url.Https && url.value.scheme == Url.Http;
            && (verdict == Deny(TooManyRedirects) <==> !inReach)
            && (verdict == Deny(RedirectOffHost) <==> inReach && url.Ok? && !sameHost)
            && (verdict == Deny(RedirectDowngrade) <==> inReach && downgrade)
            && (inReach && url.Err? ==> verdict == Deny(BadUrl(url.error)))
            && (inReach && sameHost && !downgrade ==> verdict == Decide(next, resolved, grant, deployment))
  {
    hide Decide, Url.Parse;
    DeniedForItself(next, resolved, grant, deployment);
  }

  /** A request by itself is not denied as a redirect is. */
  lemma DeniedForItself(request: Request, resolved: seq<R.IpAddr>, grant: NetGrant, deployment: Deployment)
    ensures Decide(request, resolved, grant, deployment) !in
            {Deny(TooManyRedirects), Deny(RedirectOffHost), Deny(RedirectDowngrade)}
  {
    hide Decide, Url.Parse;
    DeniedExactly(request, resolved, grant, deployment, TooManyRedirects);
    DeniedExactly(request, resolved, grant, deployment, RedirectOffHost);
    DeniedExactly(request, resolved, grant, deployment, RedirectDowngrade);
  }

  datatype Hop = Hop(request: Request, resolved: seq<R.IpAddr>)

  /** Hop `i` is what the policy allows: the first as a request, each later one as a redirect. */
  ghost predicate HopAllowed(hops: seq<Hop>, allowed: seq<Allowed>, i: nat, grant: NetGrant, deployment: Deployment)
    requires i < |hops| && i < |allowed|
  {
    if i == 0 then Decide(hops[0].request, hops[0].resolved, grant, deployment) == Allow(allowed[0])
    else
      && i < 0x100
      && DecideRedirect(allowed[i - 1], i, hops[i].request, hops[i].resolved, grant, deployment) == Allow(allowed[i])
  }

  /** A request allowed, then each redirect allowed from the one before, numbered from 1. */
  ghost predicate Chain(hops: seq<Hop>, allowed: seq<Allowed>, grant: NetGrant, deployment: Deployment) {
    && |allowed| == |hops| > 0
    && forall i :: 0 <= i < |hops| ==> HopAllowed(hops, allowed, i, grant, deployment)
  }

  lemma ChainPrefix(hops: seq<Hop>, allowed: seq<Allowed>, n: nat, grant: NetGrant, deployment: Deployment)
    requires Chain(hops, allowed, grant, deployment) && 0 < n <= |hops|
    ensures Chain(hops[..n], allowed[..n], grant, deployment)
  {
    hide Decide, DecideRedirect;
    forall i | 0 <= i < n ensures HopAllowed(hops[..n], allowed[..n], i, grant, deployment) {
      assert HopAllowed(hops, allowed, i, grant, deployment);
    }
  }

  /** One step of a chain. */
  lemma HopIsSound(hops: seq<Hop>, allowed: seq<Allowed>, i: nat, grant: NetGrant, deployment: Deployment)
    requires Chain(hops, allowed, grant, deployment) && i < |hops|
    ensures Sound(allowed[i], hops[i].resolved, grant, deployment) && i <= 3
    ensures i > 0 ==> allowed[i].target.host == allowed[i - 1].target.host
    ensures i > 0 && allowed[i - 1].target.scheme.Https? ==> allowed[i].target.scheme.Https?
  {
    hide Decide, Sound, Url.Parse;
    assert HopAllowed(hops, allowed, i, grant, deployment);
    AllowedExactly(hops[i].request, hops[i].resolved, grant, deployment, allowed[i]);
  }

  /** Every allowed chain: at most three redirects; one host throughout; never from https back to
      http; and each hop connects to exactly its checked addresses, in order, on its target's port,
      all of them public, or private under a private grant, and none the agent's, the page's or a
      metadata endpoint. */
  lemma {:induction false} AllowedChain(hops: seq<Hop>, allowed: seq<Allowed>, grant: NetGrant, deployment: Deployment)
    requires Chain(hops, allowed, grant, deployment)
    ensures |hops| <= 4
    ensures forall i :: 0 <= i < |hops| ==>
              Sound(allowed[i], hops[i].resolved, grant, deployment) && allowed[i].target.host == allowed[0].target.host
    ensures forall i, j :: 0 <= i <= j < |hops| && allowed[i].target.scheme.Https? ==> allowed[j].target.scheme.Https?
    decreases |hops|
  {
    hide Sound, Decide, DecideRedirect;
    var n := |hops| - 1;
    HopIsSound(hops, allowed, n, grant, deployment);
    if n > 0 {
      ChainPrefix(hops, allowed, n, grant, deployment);
      AllowedChain(hops[..n], allowed[..n], grant, deployment);
      assert forall i :: 0 <= i < n ==> allowed[..n][i] == allowed[i] && hops[..n][i] == hops[i];
      assert allowed[n - 1].target.host == allowed[0].target.host;
    }
  }

  /** A redirect to an absolute path, from an allowed request, with the same method, body, headers
      and addresses, is allowed: same scheme, host, port and addresses, the new path. */
  lemma PathRedirectIsAllowed(request: Request, resolved: seq<R.IpAddr>, hop: u8, location: string,
      grant: NetGrant, deployment: Deployment)
    requires Decide(request, resolved, grant, deployment).Allow? && 1 <= hop <= MAX_REDIRECTS
    requires StartsWith(location, "/") && !StartsWith(location, "//") && Url.Plain(location)
    ensures var previous := Decide(request, resolved, grant, deployment).allowed;
            var next := request.(url := Url.Follow(previous.target, location));
            DecideRedirect(previous, hop, next, resolved, grant, deployment) ==
              if |next.url| <= Url.MAX_URL_BYTES then Allow(previous.(target := previous.target.(path := location)))
              else Deny(BadUrl(Url.TooLong))
  {
    hide HeadersAllowed, CheckAddresses, IsAgentHost, Url.Parse, Url.Ipv4, Url.Follow, Connections;
    var previous := Decide(request, resolved, grant, deployment).allowed;
    Url.FollowedPathParses(request.url, previous.target, location);
  }
}
