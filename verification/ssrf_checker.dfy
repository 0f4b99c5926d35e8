/**
 * The server-side request forgery guard: a URL is safe when it is an
 * absolute http(s) URI whose host is neither internal nor denylisted and
 * every address it resolves to is public.
 *
 * Parsing the URI (Uri.TryCreate) and resolving the host (DNS) happen outside
 * the model: their outcomes are the `parsed` and `resolved` parameters, with
 * `None` standing for a failed parse and for a resolver exception.
 */
module SSRFChecker {
  import opened Common
  import opened Text

  newtype byte = x: int | 0 <= x < 256

  /** IPAddress.GetAddressBytes: 4 bytes for IPv4, 16 for IPv6. */
  type AddressBytes = b: seq<byte> | |b| == 4 || |b| == 16 witness [0, 0, 0, 0]

  /** The parts of an absolute URI the guard reads. */
  datatype Uri = Uri(scheme: string, host: string)

  /** The hosts of the denylist URLs. */
  const DenylistHosts: seq<string> := ["localhost", "g2hq.live", "scintillating-crisp-7687f7.netlify.app"]

  /** The denylist, as absolute URLs: https://localhost, https://g2hq.live and the netlify site with a trailing '/'. */
  const Urls: seq<string> := [
    "https://" + DenylistHosts[0],
    "https://" + DenylistHosts[1],
    "https://" + DenylistHosts[2] + "/"
  ]

  /** The IPv6 loopback address ::1. */
  const Ipv6Loopback: seq<byte> := [0, 0, 0, 0, 0, 0, 0, 0, 0, 0, 0, 0, 0, 0, 0, 1]

  /** IPAddress.IsLoopback: 127/8 for IPv4, ::1 for IPv6. */
  predicate IsLoopback(ip: AddressBytes)
  {
    if |ip| == 4 then ip[0] == 127 else ip == Ipv6Loopback
  }

  /** The byte tests, applied to whatever bytes the address has, in source order. */
  predicate IsPrivateIP(ip: AddressBytes)
  {
    if ip[0] == 10 then true
    else if ip[0] == 172 && ip[1] >= 16 && ip[1] <= 31 then true
    else if ip[0] == 192 && ip[1] == 168 then true
    else if ip[0] == 127 then true
    else if IsLoopback(ip) then true
    else if ip[0] == 169 && ip[1] == 254 then true
    else false
  }

  predicate IsInternalHost(host: string)
  {
    var lower := ToLower(host);
    lower == "localhost"
    || EndsWith(lower, ".local")
    || EndsWith(lower, ".internal")
    || EndsWith(lower, ".corp")
    || EndsWith(lower, ".intranet")
  }

  /** Uri.Host of an absolute URL without user info or port: the text between "://" and the next '/'. */
  function HostOf(url: string): string
  {
    var rest := if StartsWith(url, "https://") then url[8..] else if StartsWith(url, "http://") then url[7..] else url;
    UpTo(rest, '/')
  }

  function UpTo(s: string, stop: char): (r: string)
    ensures |r| <= |s| && r == s[..|r|]
    ensures stop !in r
    ensures |r| < |s| ==> s[|r|] == stop
  {
    if s == [] || s[0] == stop then [] else [s[0]] + UpTo(s[1..], stop)
  }

  predicate IsHostBlacklisted(host: string)
  {
    exists i :: 0 <= i < |Urls| && EqualsIgnoreCase(HostOf(Urls[i]), host)
  }

  /** The foreach over resolved addresses: stops with false at the first private one. */
  predicate AllPublic(addresses: seq<AddressBytes>)
  {
    if addresses == [] then true
    else if IsPrivateIP(addresses[0]) then false
    else AllPublic(addresses[1..])
  }

  predicate IsHttp(scheme: string)
  {
    scheme == "http" || scheme == "https"
  }

  predicate IsUrlSafe(parsed: Option<Uri>, resolved: Option<seq<AddressBytes>>)
  {
    if parsed.Some? && IsHttp(parsed.value.scheme) then
      if IsInternalHost(parsed.value.host) then false
      else if IsHostBlacklisted(parsed.value.host) then false
      else match resolved {
        case None => false
        case Some(addresses) => AllPublic(addresses)
      }
    else false
  }

  // ----- properties -----

  /** The well-known private and loopback prefixes are always refused. */
  lemma PrivatePrefixes(ip: AddressBytes)
    ensures ip[0] == 10 ==> IsPrivateIP(ip)
    ensures ip[0] == 127 ==> IsPrivateIP(ip)
    ensures ip[0] == 192 && ip[1] == 168 ==> IsPrivateIP(ip)
    ensures ip[0] == 169 && ip[1] == 254 ==> IsPrivateIP(ip)
  {
  }

  /** Within 172/8 exactly the 172.16/12 block is private. */
  lemma Block172(ip: AddressBytes)
    requires ip[0] == 172
    ensures IsPrivateIP(ip) <==> 16 <= ip[1] <= 31
  {
  }

  /** An IPv4 address outside every listed prefix is public. */
  lemma PublicIPv4(ip: AddressBytes)
    requires |ip| == 4
    requires ip[0] != 10 && ip[0] != 127
    requires !(ip[0] == 172 && 16 <= ip[1] <= 31)
    requires !(ip[0] == 192 && ip[1] == 168)
    requires !(ip[0] == 169 && ip[1] == 254)
    ensures !IsPrivateIP(ip)
  {
  }

  /** ::1 is refused; an IPv6 address is otherwise judged by its first two bytes. */
  lemma Ipv6Private(ip: AddressBytes)
    requires |ip| == 16
    ensures ip == Ipv6Loopback ==> IsPrivateIP(ip)
    ensures ip != Ipv6Loopback && ip[0] != 10 && ip[0] != 127 && ip[0] != 172 && ip[0] != 192 && ip[0] != 169
      ==> !IsPrivateIP(ip)
  {
  }

  /** The internal-host test does not depend on letter case. */
  lemma InternalHostIgnoresCase(host: string)
    ensures IsInternalHost(host) <==> IsInternalHost(ToLower(host))
  {
    ToLowerIdempotent(host);
  }

  lemma {:induction false} InternalSuffixes(host: string)
    ensures EndsWith(ToLower(host), ".corp") ==> IsInternalHost(host)
    ensures ToLower(host) == "localhost" ==> IsInternalHost(host)
    ensures !IsInternalHost(host) ==> ToLower(host) != "localhost" && !EndsWith(ToLower(host), ".local")
  {
  }

  /** The denylist URLs name exactly these three hosts. */
  lemma DenylistHostsAre()
    ensures HostOf(Urls[0]) == "localhost"
    ensures HostOf(Urls[1]) == "g2hq.live"
    ensures HostOf(Urls[2]) == "scintillating-crisp-7687f7.netlify.app"
  {
    FirstHost();
    SecondHost();
    ThirdHost();
  }

  lemma FirstHost()
    ensures HostOf(Urls[0]) == "localhost"
  {
    var host := DenylistHosts[0];
    assert Urls[0] == "https://" + host + "";
    HostOfHttps(host, "");
  }

  lemma SecondHost()
    ensures HostOf(Urls[1]) == "g2hq.live"
  {
    var host := DenylistHosts[1];
    assert Urls[1] == "https://" + host + "";
    HostOfHttps(host, "");
  }

  lemma ThirdHost()
    ensures HostOf(Urls[2]) == "scintillating-crisp-7687f7.netlify.app"
  {
    var host := DenylistHosts[2];
    assert forall i :: 0 <= i < |host| ==> host[i] != '/';
    HostOfHttps(host, "/");
  }

  lemma HostOfHttps(host: string, tail: string)
    requires '/' !in host
    requires tail == [] || tail[0] == '/'
    ensures HostOf("https://" + host + tail) == host
  {
    var url := "https://" + host + tail;
    assert url[..8] == "https://";
    assert url[8..] == host + tail;
    UpToPrefix(host, tail, '/');
  }

  lemma {:induction false} UpToPrefix(a: string, b: string, stop: char)
    requires stop !in a && (b == [] || b[0] == stop)
    ensures UpTo(a + b, stop) == a
  {
    if a == [] {
      assert a + b == b;
    } else {
      assert (a + b)[1..] == a[1..] + b;
      UpToPrefix(a[1..], b, stop);
    }
  }

  /** A host is denylisted iff it equals one of the three denylist hosts, ignoring case. */
  lemma BlacklistedIff(host: string)
    ensures IsHostBlacklisted(host) <==>
      EqualsIgnoreCase("localhost", host)
      || EqualsIgnoreCase("g2hq.live", host)
      || EqualsIgnoreCase("scintillating-crisp-7687f7.netlify.app", host)
  {
    if IsHostBlacklisted(host) {
      BlacklistedOnlyThese(host);
    }
    DenylistBlocks(host);
  }

  lemma BlacklistedOnlyThese(host: string)
    requires IsHostBlacklisted(host)
    ensures EqualsIgnoreCase("localhost", host)
      || EqualsIgnoreCase("g2hq.live", host)
      || EqualsIgnoreCase("scintillating-crisp-7687f7.netlify.app", host)
  {
    var i :| 0 <= i < |Urls| && EqualsIgnoreCase(HostOf(Urls[i]), host);
    var h := HostOf(Urls[i]);
    if i == 0 {
      FirstHost();
      assert h == "localhost";
    } else if i == 1 {
      SecondHost();
      assert h == "g2hq.live";
    } else {
      ThirdHost();
      assert h == "scintillating-crisp-7687f7.netlify.app";
    }
  }

  lemma DenylistBlocks(host: string)
    ensures EqualsIgnoreCase("localhost", host) ==> IsHostBlacklisted(host)
    ensures EqualsIgnoreCase("g2hq.live", host) ==> IsHostBlacklisted(host)
    ensures EqualsIgnoreCase("scintillating-crisp-7687f7.netlify.app", host) ==> IsHostBlacklisted(host)
  {
    if EqualsIgnoreCase("localhost", host) {
      FirstHost();
      assert EqualsIgnoreCase(HostOf(Urls[0]), host);
    }
    if EqualsIgnoreCase("g2hq.live", host) {
      SecondHost();
      assert EqualsIgnoreCase(HostOf(Urls[1]), host);
    }
    if EqualsIgnoreCase("scintillating-crisp-7687f7.netlify.app", host) {
      ThirdHost();
      assert EqualsIgnoreCase(HostOf(Urls[2]), host);
    }
  }

  lemma {:induction false} AllPublicIff(addresses: seq<AddressBytes>)
    ensures AllPublic(addresses) <==> forall i :: 0 <= i < |addresses| ==> !IsPrivateIP(addresses[i])
  {
    if addresses != [] {
      AllPublicIff(addresses[1..]);
      assert forall i :: 1 <= i < |addresses| ==> addresses[i] == addresses[1..][i - 1];
    }
  }

  /** Anything that is not an absolute http(s) URI is refused. */
  lemma NotHttpIsUnsafe(parsed: Option<Uri>, resolved: Option<seq<AddressBytes>>)
    requires parsed.None? || !IsHttp(parsed.value.scheme)
    ensures !IsUrlSafe(parsed, resolved)
  {
  }

  /** The guard fails closed: a resolver exception makes the URL unsafe. */
  lemma FailsClosed(parsed: Option<Uri>)
    ensures !IsUrlSafe(parsed, None)
  {
  }

  /** A single private address among the resolved ones is enough to refuse the URL. */
  lemma OnePrivateRefuses(parsed: Option<Uri>, addresses: seq<AddressBytes>, k: nat)
    requires k < |addresses| && IsPrivateIP(addresses[k])
    ensures !IsUrlSafe(parsed, Some(addresses))
  {
    AllPublicIff(addresses);
  }

  /** The full characterisation of a safe URL. */
  lemma UrlSafeIff(parsed: Option<Uri>, resolved: Option<seq<AddressBytes>>)
    ensures IsUrlSafe(parsed, resolved) <==>
      parsed.Some? && IsHttp(parsed.value.scheme)
      && !IsInternalHost(parsed.value.host)
      && !IsHostBlacklisted(parsed.value.host)
      && resolved.Some?
      && forall i :: 0 <= i < |resolved.value| ==> !IsPrivateIP(resolved.value[i])
  {
    if resolved.Some? {
      AllPublicIff(resolved.value);
    }
  }

  /** Loopback names are refused in any letter case, whatever they resolve to. */
  lemma LocalhostRefused(resolved: Option<seq<AddressBytes>>)
    ensures !IsUrlSafe(Some(Uri("http", "LocalHost")), resolved)
  {
    assert ToLower("LocalHost") == "localhost";
  }

  /** Internal suffixes are refused whatever they resolve to. */
  lemma CorpHostRefused(resolved: Option<seq<AddressBytes>>)
    ensures !IsUrlSafe(Some(Uri("https", "db.corp")), resolved)
  {
    assert ToLower("db.corp") == "db.corp";
    assert EndsWith("db.corp", ".corp");
  }
}
