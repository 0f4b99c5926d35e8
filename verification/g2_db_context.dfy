/**
 * Reference data seeded into the store when the schema is created: the three
 * plans, the three roles and the known header names, which the crawl engine
 * uses to leave ordinary headers out of its report.
 */
module G2DbContext {
  import opened Common
  import opened Text
  import opened Entities
  import Access

  /** Request header names not worth recording, in seeding order (displayed in blocks of twenty). */
  const KnownRequestHeader: seq<string> :=
  [
    "Accept",
    "Accept-Charset",
    "Accept-Encoding",
    "Accept-Language",
    "Access-Control-Request-Method",
    "Access-Control-Request-Headers",
    "Authorization",
    "Cache-Control",
    "Connection",
    "Content-Encoding",
    "Content-Length",
    "Content-MD5",
    "Content-Type",
    "Date",
    "Expect",
    "From",
    "Host",
    "HTTP2-Settings",
    "If-Match",
    "If-Modified-Since"
  ]
  + [
    "If-None-Match",
    "If-Range",
    "If-Unmodified-Since",
    "Max-Forwards",
    "Origin",
    "Pragma",
    "Prefer",
    "Proxy-Authorization",
    "Range",
    "TE",
    "Trailer",
    "Transfer-Encoding",
    "User-Agent",
    "Upgrade",
    "Via",
    "Warning",
    "Upgrade-Insecure-Requests",
    "X-Requested-With",
    "DNT",
    "X-Forwarded-For"
  ]
  + [
    "X-Forwarded-Host",
    "X-Forwarded-Proto",
    "Front-End-Https",
    "X-Http-Method-Override",
    "X-ATT-DeviceId",
    "X-Wap-Profile",
    "Proxy-Connection",
    "X-UIDH",
    "Save-Data",
    "Sec-GPC",
    "Sec-ch-ua",
    "Sec-ch-ua-mobile",
    "Sec-ch-ua-platform"
  ]

  /** Response header names not worth recording, in seeding order (displayed in blocks of twenty). */
  const KnownResponseHeader: seq<string> :=
  [
    "Accept-CH",
    "Access-Control-Allow-Origin",
    "Access-Control-Allow-Credentials",
    "Access-Control-Expose-Headers",
    "Access-Control-Max-Age",
    "Access-Control-Allow-Methods",
    "Access-Control-Allow-Headers",
    "Accept-Patch",
    "Accept-Ranges",
    "Age",
    "Allow",
    "Alt-Svc",
    "Cache-Control",
    "Connection",
    "Content-Disposition",
    "Content-Encoding",
    "Content-Language",
    "Content-Length",
    "Content-Location",
    "Content-MD5"
  ]
  + [
    "Content-Range",
    "Content-Type",
    "Date",
    "Delta-Base",
    "ETag",
    "Expires",
    "IM",
    "Last-Modified",
    "Link",
    "Location",
    "P3P",
    "Pragma",
    "Preference-Applied",
    "Proxy-Authenticate",
    "Public-Key-Pins",
    "Retry-After",
    "Strict-Transport-Security",
    "Trailer",
    "Transfer-Encoding",
    "Tk"
  ]
  + [
    "Upgrade",
    "Vary",
    "Via",
    "Warning",
    "X-Frame-Options",
    "Expect-CT",
    "NEL",
    "Permissions-Policy",
    "Refresh",
    "Report-To",
    "Status",
    "Timing-Allow-Origin",
    "X-Content-Duration",
    "X-Content-Type-Options",
    "X-UA-Compatible",
    "cross-origin-resource-policy",
    "cf-ray",
    "cf-cache-status",
    "referrer-policy",
    "content-security-policy"
  ]
  + [
    "referer",
    "content-security-policy-report-only",
    "cross-origin-opener-policy",
    "x-jsd-version-type",
    "x-cache",
    "x-served-by",
    "x-jsd-version"
  ]

  /** Select((name, index) => KnownHeader { Id = firstId + index, ... }). */
  function Project(names: seq<string>, firstId: int, kind: string, createdAt: int): (r: seq<KnownHeader>)
    ensures |r| == |names|
    ensures forall i :: 0 <= i < |r| ==>
      r[i].id == firstId + i && r[i].name == names[i] && r[i].kind == kind && r[i].createdAt == createdAt && !r[i].isDeleted
  {
    seq(|names|, i requires 0 <= i < |names| => KnownHeader(firstId + i, names[i], kind, createdAt, false))
  }

  /** The request seeds numbered from 1, followed by the response seeds numbered after them. */
  function SeedHeaders(request: seq<string>, response: seq<string>, createdAt: int): seq<KnownHeader>
  {
    Project(request, 1, "request", createdAt) + Project(response, |request| + 1, "response", createdAt)
  }

  function KnownHeaderSeeds(createdAt: int): seq<KnownHeader>
  {
    SeedHeaders(KnownRequestHeader, KnownResponseHeader, createdAt)
  }

  function PlanSeeds(createdAt: int): seq<Plan>
  {
    [
      Plan(1, "Free", "$0.00/mo", 1, 1, 0.0, 0.0, false, true, false, false, false, createdAt, createdAt),
      Plan(2, "Starter", "$20.00/mo", 10, 3, 20.0, 0.0, true, true, true, true, false, createdAt, createdAt),
      Plan(3, "Professional", "$50.00/mo", 50, 10, 50.0, 0.0, true, true, true, true, false, createdAt, createdAt)
    ]
  }

  const RoleSeeds: seq<Role> := [Role(1, "User"), Role(2, "Admin"), Role(3, "Super-Admin")]

  // ----- properties -----

  lemma ListSizes()
    ensures |KnownRequestHeader| == 53 && |KnownResponseHeader| == 67
  {
  }

  /**
   * For any two name lists, request seed i has Id i + 1 and response seed j
   * has Id |request| + j + 1, each with its own direction and not deleted.
   */
  lemma SeedLayout(request: seq<string>, response: seq<string>, createdAt: int)
    ensures var s := SeedHeaders(request, response, createdAt);
      |s| == |request| + |response|
      && (forall i :: 0 <= i < |request| ==> s[i] == KnownHeader(i + 1, request[i], "request", createdAt, false))
      && (forall j :: 0 <= j < |response| ==>
            s[|request| + j] == KnownHeader(|request| + j + 1, response[j], "response", createdAt, false))
  {
    var s := SeedHeaders(request, response, createdAt);
    var a := Project(request, 1, "request", createdAt);
    var b := Project(response, |request| + 1, "response", createdAt);
    assert s == a + b;
    forall j | 0 <= j < |response|
      ensures s[|request| + j] == KnownHeader(|request| + j + 1, response[j], "response", createdAt, false)
    {
      assert s[|request| + j] == b[j];
    }
  }

  /** Every seed's Id is its position plus one, so no two seeds share an Id. */
  lemma SeedIdsDistinct(request: seq<string>, response: seq<string>, createdAt: int)
    ensures var s := SeedHeaders(request, response, createdAt);
      (forall k :: 0 <= k < |s| ==> s[k].id == k + 1)
      && (forall k, m :: 0 <= k < m < |s| ==> s[k].id != s[m].id)
  {
    SeedLayout(request, response, createdAt);
    var s := SeedHeaders(request, response, createdAt);
    forall k | 0 <= k < |s|
      ensures s[k].id == k + 1
    {
      if k >= |request| {
        assert s[|request| + (k - |request|)].id == |request| + (k - |request|) + 1;
      }
    }
  }

  /** The seeded table: Ids 1..53 are request names, Ids 54..120 response names. */
  lemma SeededTable(createdAt: int)
    ensures var s := KnownHeaderSeeds(createdAt);
      |s| == 120
      && (forall k :: 0 <= k < |s| ==> s[k].id == k + 1 && !s[k].isDeleted)
      && (forall k :: 0 <= k < 53 ==> s[k].kind == "request" && s[k].name == KnownRequestHeader[k])
      && (forall k :: 53 <= k < 120 ==> s[k].kind == "response" && s[k].name == KnownResponseHeader[k - 53])
  {
    ListSizes();
    SeedLayout(KnownRequestHeader, KnownResponseHeader, createdAt);
    SeedIdsDistinct(KnownRequestHeader, KnownResponseHeader, createdAt);
    var s := KnownHeaderSeeds(createdAt);
    forall k | 53 <= k < 120
      ensures s[k].kind == "response" && s[k].name == KnownResponseHeader[k - 53]
    {
      assert s[53 + (k - 53)] == KnownHeader(53 + (k - 53) + 1, KnownResponseHeader[k - 53], "response", createdAt, false);
    }
  }

  /** Cache-Control and Connection are seeded once per direction, under different Ids. */
  lemma SharedNamesTwice(createdAt: int)
    ensures var s := KnownHeaderSeeds(createdAt);
      s[7] == KnownHeader(8, "Cache-Control", "request", createdAt, false)
      && s[53 + 12] == KnownHeader(66, "Cache-Control", "response", createdAt, false)
      && s[8] == KnownHeader(9, "Connection", "request", createdAt, false)
      && s[53 + 13] == KnownHeader(67, "Connection", "response", createdAt, false)
  {
    ListSizes();
    SeedLayout(KnownRequestHeader, KnownResponseHeader, createdAt);
    var s := KnownHeaderSeeds(createdAt);
    SameText(KnownRequestHeader[7], "Cache-Control");
    SameText(KnownRequestHeader[8], "Connection");
    SameText(KnownResponseHeader[12], "Cache-Control");
    SameText(KnownResponseHeader[13], "Connection");
    assert s[7] == KnownHeader(7 + 1, KnownRequestHeader[7], "request", createdAt, false);
    assert s[8] == KnownHeader(8 + 1, KnownRequestHeader[8], "request", createdAt, false);
    assert s[53 + 12] == KnownHeader(53 + 12 + 1, KnownResponseHeader[12], "response", createdAt, false);
    assert s[53 + 13] == KnownHeader(53 + 13 + 1, KnownResponseHeader[13], "response", createdAt, false);
  }

  /** The CDN headers cf-ray, x-cache and x-served-by are seeded as known response headers. */
  lemma CdnHeadersSeeded(createdAt: int)
    ensures var s := KnownHeaderSeeds(createdAt);
      s[53 + 56] == KnownHeader(110, "cf-ray", "response", createdAt, false)
      && s[53 + 64] == KnownHeader(118, "x-cache", "response", createdAt, false)
      && s[53 + 65] == KnownHeader(119, "x-served-by", "response", createdAt, false)
  {
    ListSizes();
    SeedLayout(KnownRequestHeader, KnownResponseHeader, createdAt);
    var s := KnownHeaderSeeds(createdAt);
    SameText(KnownResponseHeader[56], "cf-ray");
    SameText(KnownResponseHeader[64], "x-cache");
    SameText(KnownResponseHeader[65], "x-served-by");
    assert s[53 + 56] == KnownHeader(53 + 56 + 1, KnownResponseHeader[56], "response", createdAt, false);
    assert s[53 + 64] == KnownHeader(53 + 64 + 1, KnownResponseHeader[64], "response", createdAt, false);
    assert s[53 + 65] == KnownHeader(53 + 65 + 1, KnownResponseHeader[65], "response", createdAt, false);
  }

  /** The free plan allows one job a day, one at a time, without screenshots; the paid plans take screenshots. */
  lemma PlanSeedFacts(createdAt: int)
    ensures var p := PlanSeeds(createdAt);
      |p| == 3
      && p[0].id == 1 && p[0].name == "Free" && p[0].quota == 1 && p[0].concurrency == 1 && !p[0].screenshot
      && p[1].name == "Starter" && p[1].screenshot && p[1].quota == 10 && p[1].concurrency == 3
      && p[2].name == "Professional" && p[2].screenshot && p[2].quota == 50 && p[2].concurrency == 10
      && (forall k :: 0 <= k < 3 ==> p[k].id == k + 1 && !p[k].isDeleted)
  {
  }

  /** Of the seeded roles, Admin and Super-Admin pass the admin gate and only Super-Admin the super-admin gate. */
  lemma RoleSeedGates(id: int, email: string)
    ensures !Access.IsAdmin(Access.Caller(Some(id), Some(email), Some(RoleSeeds[0].name)))
    ensures Access.IsAdmin(Access.Caller(Some(id), Some(email), Some(RoleSeeds[1].name)))
    ensures Access.IsSuperAdmin(Access.Caller(Some(id), Some(email), Some(RoleSeeds[2].name)))
    ensures !Access.IsSuperAdmin(Access.Caller(Some(id), Some(email), Some(RoleSeeds[1].name)))
  {
    assert ToLower("User") == "user";
    assert ToLower("admin") == "admin";
    assert !Contains("user", "admin");
    assert ToLower("Admin") == "admin";
    ContainsItself("admin");
    var c := Access.Caller(Some(id), Some(email), Some(RoleSeeds[2].name));
    assert ToLower("Super-Admin") == "super-admin";
    Access.SuperAdminIsAdmin(c);
  }
}
