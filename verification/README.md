# G2 core, modelled in Dafny

G2 is a web service. A signed-in user submits a URL as a *job*. A crawler
loads the page in a headless browser and records every request and
response it sees, except headers that are known to be uninteresting. It
also records the technologies a detector finds and, on paid plans, a
screenshot. Each user is on a *plan*, which sets a daily quota and a limit
on concurrent jobs. Plans are bought through two payment providers
(ErcasPay and flutterwave), optionally with a *promo code*. Admins see
listings and dashboards, and users can send contact *messages*.

The model covers the service layer: authentication, jobs and the crawler,
users, plans, transactions and promo codes, messages, the statistics
endpoints, the two background sweeps, the SSRF guard and the validators.
It also models the database seed of known headers, plans and roles.

Conventions used throughout:

- Each table is a `seq` in primary-key order. `FirstOrDefault` is the first
  matching index, and `OrderByDescending(Id)` sorts by descending key
  (`Common.NewestFirst`).
- Paging is `Paging.Normalize` (page at least 1, limit clamped to 1..100,
  skip = (page - 1) * limit) followed by `Paging.Take`.
- Caller claims are `Access.Caller`. The gates are `Identified`, `IsAdmin`
  (the role contains "admin", ignoring case) and `IsSuperAdmin`.
- "Ignoring case" means ASCII lower-casing (`Text.ToLower`).
- Time is in integer seconds. The service clock `now` is UTC plus one hour.
- A service that begins a database transaction and returns early without
  committing leaves every table as it was.
- Services whose methods update rows are classes with `seq` fields. Their
  methods state the new tables in terms of `old(...)` and specification
  functions. Read-only endpoints are functions with lemmas.
- Outside effects are parameters: the DNS answer, the URI parser, the
  detector, memory counters, provider responses, hashes, tokens, the
  password check, and validator verdicts (`valid`).

One module per core file:

| file | module |
|---|---|
| common.dfy | Common, Text, Access, Paging |
| entities.dfy | Entities |
| ssrf_checker.dfy | SSRFChecker |
| login_provider.dfy | LoginProvider |
| add_job_validator.dfy | AddJobValidator |
| add_transaction_validator.dfy | AddTransactionValidator |
| g2_db_context.dfy | G2DbContext |
| consumer_service.dfy | ConsumerService |
| job_service.dfy | JobService |
| auth_service.dfy | AuthService |
| user_service.dfy | UserService |
| plan_service.dfy | PlanService |
| message_service.dfy | MessageService |
| stats_service.dfy | StatsService |
| transaction_service.dfy | TransactionService |
| transaction_background_service.dfy | TransactionBackgroundService |
| promo_code_service.dfy | PromoCodeService |
| user_background_service.dfy | UserBackgroundService |

## Model

| member | source | states |
|---|---|---|
| Common.DateOf | G2.Service/Stats/StatsService.cs:86 | DateTime.Date: the midnight at or before a timestamp, a multiple of a day |
| Common.DateOfIsMidnight | G2.Service/Stats/StatsService.cs:80-81 | the date of a midnight is that midnight |
| Common.FirstIndex | G2.Infrastructure/Repository/Database/Base/DbRepository.cs:99-104 | FirstOrDefault: the found row satisfies the predicate and no earlier row does; none found means no row does |
| Common.Filter | G2.Infrastructure/Repository/Database/Base/DbRepository.cs:45-68 | FindList: every row kept is a table row satisfying the predicate, and every satisfying row is kept |
| Common.FilterAppend | G2.Infrastructure/Repository/Database/Base/DbRepository.cs:45-68 | filtering keeps table order: the rows kept from a prefix come before those kept from the rest |
| Common.FilterCounts | G2.Infrastructure/Repository/Database/Base/DbRepository.cs:45-68 | every row satisfying the predicate is kept as often as it occurs; every other row is dropped |
| Common.NextId | G2.Service/Jobs/JobService.cs:115-134 | a new row's identity lies above every key in use |
| Common.NewestFirst | G2.Service/Jobs/JobService.cs:277 | OrderByDescending(Id): a permutation of the rows (same multiset) whose keys never increase |
| Common.InsertByKey | G2.Service/Jobs/JobService.cs:277 | inserting a row into a sorted list adds exactly that row and keeps the keys non-increasing |
| Common.CountWhereMonotone | G2.Service/User/UserService.cs:221-229 | a weaker filter never counts fewer rows |
| Common.CountWhereSplit | G2.Service/Jobs/JobService.cs:98-104 | counting over a concatenation adds the two counts |
| Text.ToLower | G2.Service/Helper/SSRFChecker.cs:81-90 | case folding keeps the length |
| Text.NatToString | G2.Service/Jobs/JobService.cs:111 | an interpolated count is a non-empty string of digits (its value is stated by Text.NatToStringRoundTrip) |
| Text.NatToStringRoundTrip | G2.Service/Jobs/JobService.cs:111 | the digits printed for n read back as n, with no leading zero |
| Text.IntToStringRoundTrip | G2.Service/Jobs/JobService.cs:111 | a negative integer prints as "-" then the digits of its magnitude, any other as its digits; the digits read back as the magnitude |
| Text.DigitChar | G2.Service/Jobs/JobService.cs:111 | the digit character for 0..9 has that value |
| Text.ToLowerIdempotent | G2.Service/Helper/SSRFChecker.cs:81-90 | lower-casing twice is lower-casing once |
| Text.ToLowerOfLower | G2.Service/Helper/LoginProvider.cs:5-11 | text with no upper-case letter is its own lower-case form |
| Text.ContainsItself | G2.Service/Messages/MessageService.cs:152-153 | every role contains itself, so "super-admin" passes its own gate |
| Access.SuperAdminIsAdmin | G2.Service/Plan/PlanService.cs:55-56 | a caller passing the super-admin gate passes the admin gate |
| Paging.Normalize | G2.Service/Jobs/JobService.cs:266-268 | the page is at least 1, the limit is clamped to 1..100, skip is (page - 1) * limit and never negative |
| Paging.Take | G2.Service/Jobs/JobService.cs:266-268 | Skip then Take: `limit` rows, or fewer when the list ends first, each the row `skip + k` of the ordered list |
| Paging.NewestPage | G2.Service/Jobs/JobService.cs:274-280 | a page of OrderByDescending(Id).Skip.Take holds at most limit rows of the table, ids never increasing down the page |
| Paging.RowOnItsPage | G2.Service/Transaction/TransactionService.cs:279-281 | every row of a listing appears on exactly the page its position names |
| Paging.PagesDisjoint | G2.Service/Transaction/TransactionService.cs:392-394 | two pages of the same size never share a position |
| Paging.Skip32 | G2.Service/Jobs/JobService.cs:268 | the skip as a 32-bit int multiplication computes it: in the signed 32-bit range, equal to the true skip modulo 2^32, and equal to it when it fits |
| Paging.Skip32GoesNegative | G2.Service/Jobs/JobService.cs:268 | page 21474838 with limit 100 wraps to a negative skip, while the intended skip is 2147483700 |
| Entities.QueueCopy | G2.Service/Jobs/ConsumerService.cs:248-264 | the requeued job message is never marked deleted |
| Entities.QueueCopyOfLive | G2.Service/Jobs/ConsumerService.cs:248-264 | requeueing a live record copies it unchanged |
| Entities.ActiveAccount | G2.Service/User/UserService.cs:152-153 | the found account has the id and is verified, enabled and live; none found iff no such row |
| Entities.PlanOf | G2.Service/Jobs/JobService.cs:95 | Include("Plan"): the plan row with the account's PlanId, deleted or not |
| SSRFChecker.UpTo | G2.Service/Helper/SSRFChecker.cs:13-43 | the prefix of a string up to a stop character, which it excludes |
| SSRFChecker.PrivatePrefixes | G2.Service/Helper/SSRFChecker.cs:50-79 | 10/8, 127/8, 192.168/16 and 169.254/16 are private |
| SSRFChecker.Block172 | G2.Service/Helper/SSRFChecker.cs:59 | within 172/8, exactly 172.16/12 is private |
| SSRFChecker.PublicIPv4 | G2.Service/Helper/SSRFChecker.cs:50-79 | an IPv4 address outside every listed prefix is public |
| SSRFChecker.Ipv6Private | G2.Service/Helper/SSRFChecker.cs:71 | ::1 is refused; other IPv6 addresses are judged by their first bytes |
| SSRFChecker.InternalHostIgnoresCase | G2.Service/Helper/SSRFChecker.cs:81-90 | the internal-host test ignores letter case |
| SSRFChecker.InternalSuffixes | G2.Service/Helper/SSRFChecker.cs:81-90 | localhost and .corp hosts are internal; a non-internal host is neither localhost nor .local |
| SSRFChecker.DenylistHostsAre | G2.Service/Helper/SSRFChecker.cs:7-11 | the denylist URLs name localhost, g2hq.live and the netlify host |
| SSRFChecker.FirstHost | G2.Service/Helper/SSRFChecker.cs:8 | the first denylist URL's host is localhost |
| SSRFChecker.SecondHost | G2.Service/Helper/SSRFChecker.cs:9 | the second denylist URL's host is g2hq.live |
| SSRFChecker.ThirdHost | G2.Service/Helper/SSRFChecker.cs:10 | the third denylist URL's host is the netlify host |
| SSRFChecker.HostOfHttps | G2.Service/Helper/SSRFChecker.cs:92-99 | Uri.Host of "https://host/..." is the host |
| SSRFChecker.UpToPrefix | G2.Service/Helper/SSRFChecker.cs:92-99 | the prefix up to the stop character of `a + b` is `a` when `b` starts with it |
| SSRFChecker.BlacklistedIff | G2.Service/Helper/SSRFChecker.cs:92-99 | a host is denylisted iff it equals one of the three hosts, ignoring case |
| SSRFChecker.BlacklistedOnlyThese | G2.Service/Helper/SSRFChecker.cs:92-99 | a denylisted host is one of the three |
| SSRFChecker.DenylistBlocks | G2.Service/Helper/SSRFChecker.cs:92-99 | each of the three hosts is denylisted in any letter case |
| SSRFChecker.AllPublicIff | G2.Service/Helper/SSRFChecker.cs:28-32 | the loop over resolved addresses passes iff none of them is private |
| SSRFChecker.NotHttpIsUnsafe | G2.Service/Helper/SSRFChecker.cs:18-19 | a URI that does not parse, or whose scheme is not http(s), is unsafe |
| SSRFChecker.FailsClosed | G2.Service/Helper/SSRFChecker.cs:39-42 | a resolver exception makes the URL unsafe |
| SSRFChecker.OnePrivateRefuses | G2.Service/Helper/SSRFChecker.cs:28-32 | one private resolved address refuses the URL |
| SSRFChecker.UrlSafeIff | G2.Service/Helper/SSRFChecker.cs:13-43 | safe iff parsed, http(s), not internal, not denylisted, resolved, and every address public |
| SSRFChecker.LocalhostRefused | G2.Service/Helper/SSRFChecker.cs:21 | "LocalHost" is refused whatever it resolves to |
| SSRFChecker.CorpHostRefused | G2.Service/Helper/SSRFChecker.cs:21 | a .corp host is refused whatever it resolves to |
| LoginProvider.ProviderListFixed | G2.Service/Helper/LoginProvider.cs:5-9 | the list holds two distinct providers |
| LoginProvider.SupportedIff | G2.Service/Helper/LoginProvider.cs:11 | supported iff the lower-case name is google or github |
| LoginProvider.MixedCaseAccepted | G2.Service/Helper/LoginProvider.cs:11 | matching ignores case |
| LoginProvider.OthersRefused | G2.Service/Helper/LoginProvider.cs:11 | other names, and the empty name, are refused |
| AddJobValidator.EmptyUrlFailsVerify | G2.Service/Jobs/Validation/AddJobValidator.cs:19-22 | a null or empty URL fails VerifyUrl |
| AddJobValidator.VerifyUrlIff | G2.Service/Jobs/Validation/AddJobValidator.cs:17-27 | VerifyUrl holds iff the text parses as an absolute http(s) URI |
| AddJobValidator.AcceptedIff | G2.Service/Jobs/Validation/AddJobValidator.cs:11-14 | a URL is accepted iff it passes VerifyUrl, the SSRF guard and NotEmpty |
| AddJobValidator.AcceptedIsSafe | G2.Service/Jobs/Validation/AddJobValidator.cs:29-32 | an accepted URL passes the SSRF guard and is http(s) |
| AddJobValidator.EmptyUrlMessages | G2.Service/Jobs/Validation/AddJobValidator.cs:11-14 | an empty URL collects all three messages, in rule order |
| AddJobValidator.UnsafeUrlMessage | G2.Service/Jobs/Validation/AddJobValidator.cs:11-14 | a URL failing only the SSRF guard gets one "Invalid url" |
| AddTransactionValidator.ProviderEnabledIff | G2.Service/Transaction/Validation/AddTransactionValidator.cs:34-36 | exactly flutterwave and ercaspay are enabled, in any letter case |
| AddTransactionValidator.LowerNames | G2.Service/Transaction/Validation/AddTransactionValidator.cs:34-36 | the provider names are stored in lower case |
| AddTransactionValidator.MixedCaseProviders | G2.Service/Transaction/Validation/AddTransactionValidator.cs:22-24 | examples of ProviderEnabledIff: mixed-case provider names pass; others fail |
| AddTransactionValidator.OnlyDigitsCases | G2.Service/Transaction/Validation/AddTransactionValidator.cs:38 | the empty string is all digits; one non-digit spoils a string |
| AddTransactionValidator.CvvValidIff | G2.Service/Transaction/Validation/AddTransactionValidator.cs:40 | a CVV is valid iff it is exactly three digits |
| AddTransactionValidator.CvvExamples | G2.Service/Transaction/Validation/AddTransactionValidator.cs:40 | examples of CvvValidIff: "123" passes; "12", "1234" and "12a" fail |
| AddTransactionValidator.UnsupportedProviderMessage | G2.Service/Transaction/Validation/AddTransactionValidator.cs:22-24 | an unsupported provider is reported as "Provider is not supported" |
| AddTransactionValidator.BlankProviderMessage | G2.Service/Transaction/Validation/AddTransactionValidator.cs:22-24 | "Provider is required" is reported iff the provider is all white space as Char.IsWhiteSpace counts it, a no-break space included |
| G2DbContext.Project | G2.Infrastructure/Repository/Database/Base/G2DbContext.cs:140-156 | one seed row per name, in order: Id is the first id plus the index, with the name, the kind and the seed time, live |
| G2DbContext.ListSizes | G2.Infrastructure/Repository/Database/Base/G2DbContext.cs:170-296 | 53 request names and 67 response names are seeded |
| G2DbContext.SeedLayout | G2.Infrastructure/Repository/Database/Base/G2DbContext.cs:140-156 | request seeds come first with Ids from 1; response seeds follow, numbered after them |
| G2DbContext.SeedIdsDistinct | G2.Infrastructure/Repository/Database/Base/G2DbContext.cs:140-156 | every seed's Id is its position plus one, so Ids are distinct |
| G2DbContext.SeededTable | G2.Infrastructure/Repository/Database/Base/G2DbContext.cs:140-156 | Ids 1..53 are request names and Ids 54..120 are response names |
| G2DbContext.SharedNamesTwice | G2.Infrastructure/Repository/Database/Base/G2DbContext.cs:179-180 | Cache-Control and Connection are seeded once per direction, under different Ids |
| G2DbContext.CdnHeadersSeeded | G2.Infrastructure/Repository/Database/Base/G2DbContext.cs:285-294 | cf-ray, x-cache and x-served-by are seeded as known response headers |
| G2DbContext.PlanSeedFacts | G2.Infrastructure/Repository/Database/Base/G2DbContext.cs:59-111 | the free plan allows one job a day, one at a time, with no screenshot; the paid plans take screenshots |
| G2DbContext.RoleSeedGates | G2.Infrastructure/Repository/Database/Base/G2DbContext.cs:113-138 | of the seeded roles, Admin and Super-Admin pass the admin gate and only Super-Admin the super-admin gate |
| ConsumerService.Unexpected | G2.Service/Jobs/ConsumerService.cs:158-166 | exactly the headers no known header of that direction names, ignoring case |
| ConsumerService.LiveHeaders | G2.Service/Jobs/ConsumerService.cs:64-65 | the known headers loaded are exactly the live ones |
| ConsumerService.KnownInLive | G2.Service/Jobs/ConsumerService.cs:64-65 | a live known header of the right direction and name makes a header known |
| ConsumerService.SeededCdnHeadersDropped | G2.Service/Jobs/ConsumerService.cs:201-213 | with the seeded table, cf-ray, x-cache and x-served-by are never recorded as response headers |
| ConsumerService.CdnHeaderKnown | G2.Service/Jobs/ConsumerService.cs:201-213 | each CDN header is known for responses in the seeded table |
| ConsumerService.FindSite | G2.Service/Jobs/ConsumerService.cs:142-143 | the lookup finds a site with that URL, ignoring case, or reports that none has it |
| ConsumerService.FindSiteUnique | G2.Service/Jobs/ConsumerService.cs:142-143 | with unique URLs the lookup finds the one site, whatever the bag's order |
| ConsumerService.NewSite | G2.Service/Jobs/ConsumerService.cs:144-183 | a new site has the request URL, no response headers, and a POST body exactly for POST |
| ConsumerService.StepKeepsUniqueUrls | G2.Service/Jobs/ConsumerService.cs:128-214 | one event never adds a second site for a URL |
| ConsumerService.CrawlKeepsUniqueUrls | G2.Service/Jobs/ConsumerService.cs:128-214 | the capture list never holds two sites for one URL |
| ConsumerService.StepKeepsFiltered | G2.Service/Jobs/ConsumerService.cs:158-166 | one event records only unknown headers |
| ConsumerService.CrawlRecordsOnlyUnexpected | G2.Service/Jobs/ConsumerService.cs:201-213 | every recorded header, request or response, is unknown for its direction |
| ConsumerService.CancelledIsFinal | G2.Service/Jobs/ConsumerService.cs:130-140 | once the run is cancelled, no event changes the capture or the flag; only requested ids join the set |
| ConsumerService.CrawlCancelSet | G2.Service/Jobs/ConsumerService.cs:191-199 | the set gains the requested ids and loses at most this job's id, only after it was there, and it stays out unless requested again |
| ConsumerService.CancellationNoticed | G2.Service/Jobs/ConsumerService.cs:130-140 | a pending cancellation is picked up by the next safe event and its id leaves the set |
| ConsumerService.QuietKeepsCapture | G2.Service/Jobs/ConsumerService.cs:130-140 | events the handlers skip, and cancellation requests, capture nothing and leave the flag as it was |
| ConsumerService.CancelNoticedNext | G2.Service/Jobs/ConsumerService.cs:130-140 | after a CancelJob lands mid-crawl, the next safe event raises the flag and captures nothing |
| ConsumerService.CancelDuringCrawl | G2.Service/Jobs/JobService.cs:163 | a CancelJob landing while the page is open ends the capture: the run ends cancelled holding exactly what it had captured when the request arrived |
| ConsumerService.CaptureSurvivesCancel | G2.Service/Jobs/ConsumerService.cs:128-199 | a site captured before a mid-crawl cancellation is still in the result |
| ConsumerService.ExtendsTransitive | G2.Service/Jobs/ConsumerService.cs:201-213 | extending the capture list is transitive |
| ConsumerService.StepExtends | G2.Service/Jobs/ConsumerService.cs:201-213 | one event only appends sites and headers; nothing recorded is lost |
| ConsumerService.CrawlExtends | G2.Service/Jobs/ConsumerService.cs:128-214 | the crawl only appends to what was captured |
| ConsumerService.CrawlAddsOnlySafeRequests | G2.Service/Jobs/ConsumerService.cs:115-126 | every site added comes from a request that passed the SSRF guard |
| ConsumerService.StepRecordsRequest | G2.Service/Jobs/ConsumerService.cs:141-156 | a safe request in a live run appends its new site when no site has the URL, and changes nothing otherwise |
| ConsumerService.StepRecordsResponse | G2.Service/Jobs/ConsumerService.cs:201-213 | a safe response in a live run appends its unexpected headers to its URL's site and leaves every other site as it was |
| ConsumerService.CrawlSplit | G2.Service/Jobs/ConsumerService.cs:128-214 | handling a list of events is handling a prefix, then the rest |
| ConsumerService.LiveAtEvent | G2.Service/Jobs/ConsumerService.cs:130-140 | in a run that ends uncancelled, every safe event was handled by a live run, and what it recorded survives to the end |
| ConsumerService.CrawlRecordsRequest | G2.Service/Jobs/ConsumerService.cs:141-156 | every safe request of a run that ends uncancelled is captured; a request for a new URL leaves a site with its URL, headers, query and body |
| ConsumerService.CrawlRecordsResponse | G2.Service/Jobs/ConsumerService.cs:201-213 | every safe response for a captured URL, in a run that ends uncancelled, has its unexpected headers recorded on that site after the earlier ones |
| ConsumerService.LiveRecord | G2.Service/Jobs/ConsumerService.cs:68-69 | the record is found iff it is stored and not deleted |
| ConsumerService.Technologies | G2.Service/Jobs/ConsumerService.cs:101-105 | one technology per detected one, in order, carrying its Name and Version |
| ConsumerService.ScreenshotAllowed | G2.Service/Jobs/ConsumerService.cs:220-231 | a decision is made only when an active account carries the owner id |
| ConsumerService.ScreenshotFlag | G2.Service/Jobs/ConsumerService.cs:220-231 | the decision is the Screenshot flag of the plan of an active account with the owner id; none when there is no active account |
| ConsumerService.MarkFailed | G2.Service/Jobs/ConsumerService.cs:266-278 | the catch block writes Status "Failed" and both timestamps |
| ConsumerService.MarkComplete | G2.Service/Jobs/ConsumerService.cs:234-242 | the success path writes Status "Complete" and both timestamps |
| ConsumerService.AdmissionRule | G2.Service/Jobs/ConsumerService.cs:63-76 | completion, or any touch of the cancel set, happens only for an admitted job; requeue happens iff the setup went through, the record is live and memory is short |
| ConsumerService.RequeueCopiesRecord | G2.Service/Jobs/ConsumerService.cs:248-264 | a requeue puts the stored record back on the queue and writes nothing |
| ConsumerService.MissingRecordChangesNothing | G2.Service/Jobs/ConsumerService.cs:52-278 | a run escapes iff its setup throws or there is no live record, and then it has changed nothing |
| ConsumerService.CompletedRecord | G2.Service/Jobs/ConsumerService.cs:234-246 | a completed run writes the report, "Complete" and timestamps to its record and to no other |
| ConsumerService.FailedRecord | G2.Service/Jobs/ConsumerService.cs:266-278 | every caught failure writes "Failed" with both timestamps to the run's record only |
| ConsumerService.CancelledCrawlCompletes | G2.Service/Jobs/ConsumerService.cs:234-242 | a cancelled crawl still ends "Complete", with the sites captured before the cancellation; the cancel set ends as the requests and the removal of this job's id leave it |
| ConsumerService.TechnologiesIgnoreOtherFields | G2.Service/Jobs/ConsumerService.cs:101-105 | only Name and Version of a detected technology reach the output |
| ConsumerService.Consumer.constructor | G2.Service/Jobs/ConsumerService.cs:31-43 | a new consumer holds the given store, with no run in flight |
| ConsumerService.Consumer.Acquire | G2.Service/Jobs/ConsumerService.cs:51 | a run takes a slot only when fewer than 10 are taken |
| ConsumerService.Consumer.Release | G2.Service/Jobs/ConsumerService.cs:279-282 | the finally block gives the slot back |
| ConsumerService.Consumer.ShouldJobBeCancelled | G2.Service/Jobs/ConsumerService.cs:299-302 | true iff the id is in the "job:cancel" set |
| ConsumerService.Consumer.CancelJob | G2.Service/Jobs/ConsumerService.cs:304-307 | the id leaves the "job:cancel" set and nothing else does |
| ConsumerService.Consumer.RequestCancel | G2.Service/Jobs/JobService.cs:163 | JobService.CancelJob arriving mid-run adds the id to the "job:cancel" set |
| ConsumerService.Consumer.OnRequest | G2.Service/Jobs/ConsumerService.cs:128-185 | the request handler performs exactly one crawl step |
| ConsumerService.Consumer.OnResponse | G2.Service/Jobs/ConsumerService.cs:189-214 | the response handler performs one crawl step; it faults iff a live, safe response has no site |
| ConsumerService.Consumer.WriteFailed | G2.Service/Jobs/ConsumerService.cs:266-278 | the catch block's write is MarkFailed |
| ConsumerService.Consumer.RunJob | G2.Service/Jobs/ConsumerService.cs:45-285 | the effect on jobs, queue and cancel set is that of Run; the slot is given back on every branch of the try, and stays taken when the setup before the try throws |
| ConsumerService.Consumer.Execute | G2.Service/Jobs/ConsumerService.cs:72-278 | the try block: its effect on jobs, queue and cancel set is that of Run once the setup went through |
| ConsumerService.Consumer.Launch | G2.Service/Jobs/ConsumerService.cs:78-246 | an admitted run fails when detection or the browser launch fails, and otherwise goes on as Browsed says |
| ConsumerService.Consumer.Capture | G2.Service/Jobs/ConsumerService.cs:107-246 | the admitted branch crawls the events, then completes or fails the record, as Browsed says |
| ConsumerService.Consumer.Browse | G2.Service/Jobs/ConsumerService.cs:128-218 | the page visit hands every event to its handler in order, and applies each CancelJob that lands meanwhile: the state is that of Crawl |
| JobService.FreePlan | G2.Service/Jobs/JobService.cs:85-86 | the plan named "free", ignoring case |
| JobService.ExpiryResetEffect | G2.Service/Jobs/JobService.cs:83-92 | the reset changes only PlanId and PlanExpiration and leaves no expired plan |
| JobService.ExpiredFallsBackToSeededFree | G2.Service/Jobs/JobService.cs:88 | with the seeded plans an expired account falls back to plan 1 |
| JobService.Running | G2.Service/Jobs/JobService.cs:107 | today's jobs that are not complete |
| JobService.ConcurrencyMessageMisstatesLimit | G2.Service/Jobs/JobService.cs:111 | for the Starter plan (quota 10, limit 3) the message as written prints "10", the quota, so it differs from the intended message |
| JobService.AdmissionIff | G2.Service/Jobs/JobService.cs:98-112 | admitted iff under the quota plus referral quota and under the concurrency limit; the quota is checked first |
| JobService.Submit | G2.Service/Jobs/JobService.cs:55-112 | the order of refusals: invalid format, unauthorised, missing account, quota, concurrency |
| JobService.AcceptedStaysWithinQuota | G2.Service/Jobs/JobService.cs:98-104 | after an admitted job is stored, today's count stays within the quota |
| JobService.QuotaUsesResetPlan | G2.Service/Jobs/JobService.cs:83-95 | a submission is checked against the plan in force after the expiry reset |
| JobService.NewJob | G2.Service/Jobs/JobService.cs:115-134 | the inserted record has the URL, Status "Waiting" and the caller as owner, and is live |
| JobService.JobByIdIff | G2.Service/Jobs/JobService.cs:181-206 | a job is returned iff it is live and the caller is an admin or its owner |
| JobService.OwnedJob | G2.Service/Jobs/JobService.cs:158-160 | the caller's own live job with the id |
| JobService.ProgressCases | G2.Service/Jobs/JobService.cs:209-253 | progress is 100 once completed, 0 while waiting or cancelled, and otherwise the cached entry |
| JobService.UserJobsAreOwn | G2.Service/Jobs/JobService.cs:256-299 | a user's listing holds only their live jobs, at most one page, ids never increasing; TotalSize counts them all |
| JobService.JobsListingAdminOnly | G2.Service/Jobs/JobService.cs:302-351 | only admins list all jobs; TotalSize counts every live job; rows match the query, ids never increasing |
| JobService.JobService.constructor | G2.Service/Jobs/JobService.cs:31-52 | the service holds the given tables |
| JobService.JobService.AddJob | G2.Service/Jobs/JobService.cs:55-143 | refused submissions change nothing; admitted ones store NewJob, enqueue it and keep the expiry reset |
| JobService.JobService.Store | G2.Service/Jobs/JobService.cs:115-134 | the insert: the reset account, the new job under the next key, and its copy on the queue; the store stays ordered by key |
| JobService.JobService.CancelJob | G2.Service/Jobs/JobService.cs:146-178 | the caller's own live job becomes "Cancelled" and its id joins the cancel set |
| JobService.CancelledJobShowsNoProgress | G2.Service/Jobs/JobService.cs:227-247 | after a cancellation the job's progress reads 0 |
| AuthService.RecordFailure | G2.Service/Authentication/AuthService.cs:126-143 | the first failure sets the counter to 1; later ones add 1 and lock at MaxLoginAttempts |
| AuthService.LockoutAfterFiveFailures | G2.Service/Authentication/AuthService.cs:48 | from a clean cache, after n failures the counter reads n, and the lockout key is set exactly from the fifth failure on |
| AuthService.ActiveUser | G2.Service/Authentication/AuthService.cs:106-108 | the account with the email, ignoring case, that is enabled, live and verified |
| AuthService.RoleOf | G2.Service/Authentication/AuthService.cs:108 | Include("Role"): the role row with the account's RoleId |
| AuthService.LoginGrantedIff | G2.Service/Authentication/AuthService.cs:94-190 | granted iff an active account has the email, it is not locked, it has a stored salt and hash, the password is right, its role exists, and on mobile the role contains "admin" |
| AuthService.PasswordlessLoginFaults | G2.Service/Authentication/AuthService.cs:121-122 | an active, unlocked account with no salt or hash (a GitHub sign-in) makes VerifyPassword throw: the attempt ends "Failed", neither counted nor granted |
| AuthService.LockedLoginIsNotCounted | G2.Service/Authentication/AuthService.cs:115-119 | a locked account never reaches the password check, so the counter does not move |
| AuthService.Existing | G2.Service/Authentication/AuthService.cs:207-215 | an unverified account older than one hour is replaced; any other existing account refuses |
| AuthService.ExistingRuleCases | G2.Service/Authentication/AuthService.cs:207-215 | the three cases of an existing email, both directions |
| AuthService.NewAccount | G2.Service/Authentication/AuthService.cs:246-250 | a new account is disabled, unverified, on the free plan, with no referral quota |
| AuthService.ApplyReferral | G2.Service/Authentication/AuthService.cs:255-273 | a matching referral code adds a Referral row and one referral quota |
| AuthService.ReferralAddsOne | G2.Service/Authentication/AuthService.cs:255-273 | exactly one Referral row and exactly one user's quota, by exactly 1 |
| AuthService.AuthService.constructor | G2.Service/Authentication/AuthService.cs:51-92 | the service holds the given tables and cache |
| AuthService.AuthService.Login | G2.Service/Authentication/AuthService.cs:94-190 | the login decision, the failure counter and the refresh token it stores; an account without salt or hash answers "Failed" and changes nothing |
| AuthService.AuthService.VerifyAccount | G2.Service/Authentication/AuthService.cs:453-517 | the pending code is consumed and the account verified and enabled; otherwise a failure is counted |
| AuthService.AuthService.Register | G2.Service/Authentication/AuthService.cs:192-306 | a new disabled account on the free plan, its verification row and the referral bonus |
| AuthService.PendingVerification | G2.Service/Authentication/AuthService.cs:472-476 | LastOrDefault over rows in descending key order: the oldest unused, unexpired row of the user with the token, ignoring case; none found means no row qualifies |
| AuthService.CodeSingleUse | G2.Service/Authentication/AuthService.cs:472-476 | a code is accepted only before its expiry, and a used code never again |
| UserService.NameExamples | G2.Service/User/UserService.cs:145-148 | examples of the name rule: a missing or empty name passes; letters and spaces pass; a digit fails |
| UserService.Updated | G2.Service/User/UserService.cs:159-162 | the name when sent, the email when sent and the account has no provider, and UpdatedAt |
| UserService.UpdateLaws | G2.Service/User/UserService.cs:159-162 | provider accounts keep their email; an empty update changes only UpdatedAt; updating twice is updating once |
| UserService.ProfileQuota | G2.Service/User/UserService.cs:201-238 | the profile quota is the plan's plus the referral bonus; usage counts today's jobs, never fewer than the quota check counts |
| UserService.UsersListingAdminOnly | G2.Service/User/UserService.cs:276-323 | only admins list users; TotalSize counts every live account; rows pass the provider and query filters, ids never increasing |
| UserService.UserService.constructor | G2.Service/User/UserService.cs:25-40 | the service holds the given users |
| UserService.UserService.UpdateUser | G2.Service/User/UserService.cs:133-175 | a name with other characters is refused unchanged; otherwise the caller's active row becomes Updated |
| UserService.UserService.ResetPassword | G2.Service/User/UserService.cs:85-131 | only an active account without a provider gets the new hash and salt |
| UserService.UserService.RegenerateAuthToken | G2.Service/User/UserService.cs:42-83 | the active caller's AuthToken becomes the fresh token, which is returned |
| UserService.UserService.DeactivateAccount | G2.Service/User/UserService.cs:240-274 | IsDisabled is set as asked on the active account; a null value fails; a disabled account stays disabled |
| PlanService.Card | G2.Service/Plan/PlanService.cs:100 | the card's price is the price less the discount |
| PlanService.Created | G2.Service/Plan/PlanService.cs:63-66 | the plan AddPlan is meant to store: the request's fields, Quota 0, Concurrency 0, no console app, live |
| PlanService.CreatedPlanIsListed | G2.Service/Plan/PlanService.cs:63-69 | the intended new plan takes a key no plan has, and GetPlan then returns its card |
| PlanService.Patched | G2.Service/Plan/PlanService.cs:195-202 | each field sent replaces the stored one; every other field is kept; UpdatedAt is set |
| PlanService.PatchLaws | G2.Service/Plan/PlanService.cs:195-202 | an empty patch changes only UpdatedAt; a patch applied twice is applied once; no update changes Quota or Concurrency |
| PlanService.AllPlansAreLive | G2.Service/Plan/PlanService.cs:85-113 | the public listing holds exactly the live plans, as cards |
| PlanService.GetPlan | G2.Service/Plan/PlanService.cs:115-135 | a plan is returned iff a live plan has the id; otherwise "Plan does not exist" |
| PlanService.CountPlanUsers | G2.Service/Plan/PlanService.cs:236-243 | the name-to-user-count map exists iff live plan names are distinct, and then counts live users per plan |
| PlanService.PlanService.constructor | G2.Service/Plan/PlanService.cs:25-40 | the service holds the given plans and users |
| PlanService.PlanService.AddPlan | G2.Service/Plan/PlanService.cs:42-83 | as written: invalid input and non-super-admins are refused; a super-admin always gets "Failed" because the AddPlanDto mapping throws; never a success |
| PlanService.PlanService.DeletePlan | G2.Service/Plan/PlanService.cs:137-172 | super-admins soft-delete the plan with the id, deleted or not; users stay on it |
| PlanService.PlanService.UpdatePlan | G2.Service/Plan/PlanService.cs:174-222 | super-admins replace the plan with the id by Patched |
| PlanService.PlanService.GetPlansAdmin | G2.Service/Plan/PlanService.cs:224-267 | admins get each live plan's card with its user count; "Failed" when two live plans share a name |
| MessageService.Submitted | G2.Service/Messages/MessageService.cs:83-87 | the new message is the draft, sent by the caller, unread, live |
| MessageService.Author | G2.Service/Messages/MessageService.cs:191-192 | the author row with the message's UserId, deleted or not |
| MessageService.View | G2.Service/Messages/MessageService.cs:196-210 | the DTO's UserId is the message's, beside the author's email and name |
| MessageService.ViewReportsReader | G2.Service/Messages/MessageService.cs:202 | as written, the DTO names the reader as sender, and differs from the intended DTO only there |
| MessageService.GetMessageIff | G2.Service/Messages/MessageService.cs:179-219 | a message is returned iff the caller is an admin and a live message with the id has an author |
| MessageService.MessageListing | G2.Service/Messages/MessageService.cs:220-264 | only admins list messages; each row passes the filters, with its author; at most one page, ids never increasing |
| MessageService.ListingIgnoresDeletion | G2.Service/Messages/MessageService.cs:236-240 | the listing filter ignores IsDeleted |
| MessageService.MessageService.constructor | G2.Service/Messages/MessageService.cs:26-43 | the service holds the given messages |
| MessageService.MessageService.SubmitMessage | G2.Service/Messages/MessageService.cs:63-100 | a signed-in caller's valid draft is stored as Submitted under the next key |
| MessageService.MessageService.UpdateMessage | G2.Service/Messages/MessageService.cs:102-144 | admins change only Unread and UpdatedAt of a live message |
| MessageService.MessageService.DeleteMessage | G2.Service/Messages/MessageService.cs:146-178 | a role containing "super-admin" soft-deletes a live message and changes nothing else |
| StatsService.Without | G2.Service/Stats/StatsService.cs:86-91 | the rows not created on a date, in order |
| StatsService.WithoutSize | G2.Service/Stats/StatsService.cs:86-91 | removing a date's rows removes exactly their count |
| StatsService.CountOnWithout | G2.Service/Stats/StatsService.cs:86-91 | removing one date's rows does not change another date's count |
| StatsService.BucketDatesOccur | G2.Service/Stats/StatsService.cs:86 | every bucket's date is the date of some row |
| StatsService.GroupByDateTotal | G2.Service/Stats/StatsService.cs:86-91 | the amounts add up to the number of rows |
| StatsService.GroupByDateBuckets | G2.Service/Stats/StatsService.cs:86-91 | each amount is its date's count, at least 1, and no date appears twice |
| StatsService.GroupByDateCovers | G2.Service/Stats/StatsService.cs:86-91 | every row's date has a bucket |
| StatsService.GroupByDateLaws | G2.Service/Stats/StatsService.cs:86-91 | amounts add up to the rows; each amount is its date's count, at least 1; dates are distinct; every row's date has a bucket |
| StatsService.DefaultSpanMissesToday | G2.Service/Stats/StatsService.cs:80-83 | as written, a row created one hour after midnight today is outside the default window |
| StatsService.DefaultSpan | G2.Service/Stats/StatsService.cs:80-83 | the corrected window holds a time iff its date is within the last seven days or today |
| StatsService.InSpan | G2.Service/Stats/StatsService.cs:75-76 | exactly the times within the inclusive bounds |
| StatsService.SummaryLaws | G2.Service/Stats/StatsService.cs:60-99 | only admins get a summary; given bounds are used as they are; amounts add up to the rows in the window |
| StatsService.JobsWindow | G2.Service/Stats/StatsService.cs:60-91 | with both bounds, the job summary's amounts add up to the jobs created inside them, and each such job's date has a bucket |
| StatsService.PaymentWindow | G2.Service/Stats/StatsService.cs:101-132 | with both bounds, the payment summary's amounts add up to the transactions created inside them, and each such transaction's date has a bucket |
| StatsService.UsersWindow | G2.Service/Stats/StatsService.cs:142-173 | with both bounds, the sign-up summary's amounts add up to the users created inside them, and each such user's date has a bucket |
| StatsService.ColumnWindow | G2.Service/Stats/StatsService.cs:73-91 | for any table: the amounts add up to the rows created inside the bounds, and each such row's date has a bucket |
| StatsService.InSpanCount | G2.Service/Stats/StatsService.cs:75-76 | the CreatedAt values inside a window are as many as the rows created inside it |
| TransactionService.CheckPromo | G2.Service/Transaction/TransactionService.cs:107-123 | none, missing code, expired or used up, or redeemable, as the checkout decides |
| TransactionService.CheckoutSucceedsIff | G2.Service/Transaction/TransactionService.cs:67-224 | checkout succeeds iff every gate passes, and otherwise changes nothing |
| TransactionService.CheckoutEffect | G2.Service/Transaction/TransactionService.cs:121-123 | a success adds one transaction and, with a promo code, one use of that code only |
| TransactionService.ChargeAppends | G2.Service/Transaction/TransactionService.cs:127-218 | an accepted charge commits the promo table and appends one pending, live transaction under the next key, of the named provider |
| TransactionService.RedemptionCharges | G2.Service/Transaction/TransactionService.cs:103-218 | once the plan is known, success uses the promo code once (or not at all without one) and appends one pending transaction of the plan |
| TransactionService.CheckoutCharges | G2.Service/Transaction/TransactionService.cs:67-218 | an accepted checkout is an accepted charge of the caller's live plan: users and plans unchanged, one pending transaction appended |
| TransactionService.NewTransactionIsPending | G2.Service/Transaction/TransactionService.cs:146-159 | the new transaction is "Pending", live, the caller's, and keyed above all others |
| TransactionService.UnsupportedProviderCreatesNothing | G2.Service/Transaction/TransactionService.cs:217-218 | a provider other than the two never yields a transaction |
| TransactionService.PromoRefusal | G2.Service/Transaction/TransactionService.cs:111-118 | a missing code and an expired or used-up code are refused with their own statuses |
| TransactionService.Activate | G2.Service/Transaction/TransactionService.cs:354-358 | the owner moves to the transaction's plan with a one-month or one-year expiration |
| TransactionService.ErcaspayTouchesOnlyPendingMatch | G2.Service/Transaction/TransactionService.cs:340-347 | only the pending transaction with both references is touched |
| TransactionService.ErcaspayUpdate | G2.Service/Transaction/TransactionService.cs:351-365 | a verified "successful" notice activates the plan; others only set the status |
| TransactionService.FlutterwaveWithoutHashChangesNothing | G2.Service/Transaction/TransactionService.cs:443-450 | without the hash header, or with a wrong hash, nothing changes |
| TransactionService.FlutterwaveMarksFailed | G2.Service/Transaction/TransactionService.cs:486-491 | a matched notice that is not a verified completed charge marks the transaction "Failed" only |
| TransactionService.FlutterwavePlanSwitch | G2.Service/Transaction/TransactionService.cs:466-478 | an account changes only for a verified completed charge, and then by activation |
| TransactionService.VerifyPaymentActivates | G2.Service/Transaction/TransactionService.cs:506-549 | verifying a successful charge sets the status and activates the plan |
| TransactionService.TransactionByIdIff | G2.Service/Transaction/TransactionService.cs:228-265 | admins see any transaction, others their own, deleted ones included |
| TransactionService.UserTransactionsAreOwn | G2.Service/Transaction/TransactionService.cs:268-317 | a user's listing holds only their transactions, at most one page, ids never increasing; TotalSize counts them all |
| TransactionService.TransactionsListingAdminOnly | G2.Service/Transaction/TransactionService.cs:380-434 | only admins list all transactions; TotalSize counts every live one; rows match the query, ids never increasing |
| TransactionService.TransactionService.constructor | G2.Service/Transaction/TransactionService.cs:38-65 | the service holds the given tables |
| TransactionService.TransactionService.AddTransaction | G2.Service/Transaction/TransactionService.cs:67-226 | the new tables and answer are those of Checkout |
| TransactionService.TransactionService.Redeem | G2.Service/Transaction/TransactionService.cs:103-218 | the promo step and the charge: the new tables and answer are those of Redemption |
| TransactionService.TransactionService.Dispatch | G2.Service/Transaction/TransactionService.cs:127-218 | the provider branch: the transaction and the promo use stored, or a rollback |
| TransactionService.TransactionService.ActivatePlan | G2.Service/Transaction/TransactionService.cs:354-358 | the owner row is updated as Activate says, or nothing changes |
| TransactionService.TransactionService.UpdateErcaspayTransaction | G2.Service/Transaction/TransactionService.cs:320-378 | the new tables and answer are those of ErcaspayWebhook |
| TransactionService.TransactionService.UpdateFlutterwaveTransaction | G2.Service/Transaction/TransactionService.cs:437-504 | the new tables and answer are those of FlutterwaveWebhook |
| TransactionService.TransactionService.VerifyFlutterwave | G2.Service/Transaction/TransactionService.cs:506-551 | the new tables and answer are those of VerifyPayment |
| TransactionBackgroundService.Refreshed | G2.Service/Transaction/TransactionBackgroundService.cs:43-61 | a swept row changes only its status and UpdatedAt |
| TransactionBackgroundService.Swept | G2.Service/Transaction/TransactionBackgroundService.cs:36-64 | the sweep keeps the table's length |
| TransactionBackgroundService.SweepTouchesOnlySelected | G2.Service/Transaction/TransactionBackgroundService.cs:36-39 | unselected rows never change; selected ones get UpdatedAt; an abort changes nothing |
| TransactionBackgroundService.SweepStatusRules | G2.Service/Transaction/TransactionBackgroundService.cs:45-60 | ErcasPay rows take the verified status, flutterwave rows keep theirs, others become "Failed" |
| TransactionBackgroundService.UnknownProviderLeavesPending | G2.Service/Transaction/TransactionBackgroundService.cs:57-60 | a row of an unknown provider is never selected again |
| TransactionBackgroundService.TransactionSweeper.constructor | G2.Service/Transaction/TransactionBackgroundService.cs:16-21 | the sweeper holds the given transactions |
| TransactionBackgroundService.TransactionSweeper.UpdatePendingTransactions | G2.Service/Transaction/TransactionBackgroundService.cs:23-74 | the loop commits the swept table, or rolls back when a verification throws |
| PromoCodeService.Created | G2.Service/PromoCode/PromoCodeService.cs:65-68 | a new code has the request's fields, no uses, and is live |
| PromoCodeService.Patched | G2.Service/PromoCode/PromoCodeService.cs:200-203 | Code, Discount, UsageLimit and ExpiredAt replaced when sent; the rest kept |
| PromoCodeService.PatchLaws | G2.Service/PromoCode/PromoCodeService.cs:200-203 | an empty patch keeps the code; a patch twice is the patch once; an expiry can never be cleared |
| PromoCodeService.TargetAsWritten | G2.Service/PromoCode/PromoCodeService.cs:103-104 | as written, the first live code, whatever the id |
| PromoCodeService.TargetAsWrittenIgnoresId | G2.Service/PromoCode/PromoCodeService.cs:193-194 | as written, the id plays no part in the lookup |
| PromoCodeService.Target | G2.Service/PromoCode/PromoCodeService.cs:167-168 | the live code with the id |
| PromoCodeService.DeleteHitsWrongCode | G2.Service/PromoCode/PromoCodeService.cs:103-110 | as written, deleting code 2 deletes code 1 |
| PromoCodeService.VerifyPromoCodeIff | G2.Service/PromoCode/PromoCodeService.cs:218-260 | a price is quoted iff valid, the code is live, unexpired and not used up, and the plan is live |
| PromoCodeService.VerifiableIsRedeemable | G2.Service/PromoCode/PromoCodeService.cs:230-232 | every code the price check accepts is one checkout would redeem |
| PromoCodeService.RedeemableButNotVerifiable | G2.Service/PromoCode/PromoCodeService.cs:230-232 | a code on its expiry day is redeemable but not quoted |
| PromoCodeService.PromoCodeListing | G2.Service/PromoCode/PromoCodeService.cs:124-153 | only admins list codes; live codes of the table only, at most one page, ids never increasing |
| PromoCodeService.GetPromoCode | G2.Service/PromoCode/PromoCodeService.cs:155-177 | admins get the live code with the id, or success with no body |
| PromoCodeService.PromoCodeService.constructor | G2.Service/PromoCode/PromoCodeService.cs:25-42 | the service holds the given codes |
| PromoCodeService.PromoCodeService.AddPromoCode | G2.Service/PromoCode/PromoCodeService.cs:44-88 | a super-admin's valid request stores Created under the next key |
| PromoCodeService.PromoCodeService.DeletePromoCode | G2.Service/PromoCode/PromoCodeService.cs:90-122 | the live code with the id is soft-deleted; nothing else changes |
| PromoCodeService.PromoCodeService.UpdatePromoCode | G2.Service/PromoCode/PromoCodeService.cs:179-216 | the live code with the id becomes Patched; nothing else changes |
| UserBackgroundService.Downgrade | G2.Service/User/UserBackgroundService.cs:32-35 | the bulk update keeps the table's length |
| UserBackgroundService.DowngradeExactly | G2.Service/User/UserBackgroundService.cs:32-35 | exactly the expired paid accounts change, each to plan 1 with no expiration |
| UserBackgroundService.DowngradeIdempotent | G2.Service/User/UserBackgroundService.cs:32-35 | a second sweep the same day changes nothing |
| UserBackgroundService.FreePlanKeepsExpiration | G2.Service/User/UserBackgroundService.cs:33 | accounts on plan 1 keep their expiration, even a past one |
| UserBackgroundService.UserSweeper.constructor | G2.Service/User/UserBackgroundService.cs:14-19 | the sweeper holds the given users |
| UserBackgroundService.UserSweeper.DowngradePlan | G2.Service/User/UserBackgroundService.cs:21-45 | the update applied row by row commits the downgraded table; a database error rolls it back |

## Left out

- Uri parsing, DNS resolution, the technology detector, the browser, memory counters, the password hash check, JWT and GUID generation, and e-mail sending are parameters of the model. The hash check's throw on a missing salt or hash is modelled; its throw on a salt that is not Base64 is not, since every stored salt comes from Convert.ToBase64String.
- Payment provider HTTP calls are parameters. Their network exceptions are modelled only where they abort a sweep.
- Threads, the semaphore's waiting, the message queue and the Redis connection are not modelled. The semaphore is a counter; the cache is a map or a set.
- Case-insensitive comparison is ASCII only. Culture-specific folding is not modelled.
- UserService.NameAcceptable: char.IsLetter is taken as the ASCII letters; other Unicode letters are refused by the model.
- Prices and discounts are exact reals, not floats. Flutterwave's amount check compares them exactly.
- DateTime.AddMonths and AddYears are inputs (`Clock`), not calendar arithmetic. Cache entry lifetimes are not modelled.
- FluentValidation rule sets other than the job and transaction validators are the input `valid`. This includes the NotEmpty rule on UpdateMessageDto's Unread flag.
- JSON serialisation of responses is not modelled. Listings return whole rows where the source projects a subset of fields.
- The BackgroundService ExecuteAsync loops and their delays are not modelled; each sweep is one call.
- EF Core change tracking and row versions are not modelled.
- UserService.GetReferrals, MessageService.GetContactDetails and StatsService.Health are not modelled. They are plain reads or host metrics.
- AuthService operations other than Login, Register and VerifyAccount are not modelled: RenewToken, ForgotPassword, ResetPassword, ResendVerificationCode and the Google and GitHub sign-ins.
- UserService.GetMyProfile: the plan name in the profile is copied from the plan row and is not stated separately.
- Paging.Normalize: states the intended non-negative skip; the 32-bit wrap-around is stated by Paging.Skip32 (see Findings).
- StatsService.SummaryLaws: uses the corrected default window, not the one the source builds (see Findings).
- JobService.AdmissionIff: the concurrency refusal uses the intended message, which prints Plan.Concurrency; the source prints Plan.Quota (see Findings).
- JobService.Submit: the concurrency refusal uses the intended message, which prints Plan.Concurrency; the source prints Plan.Quota (see Findings).
- JobService.JobService.AddJob: the concurrency refusal uses the intended message, which prints Plan.Concurrency; the source prints Plan.Quota (see Findings).
- MessageService.GetMessageIff: the returned DTO is the intended View, whose UserId is the message's; the source fills it from the reader's claims (see Findings).
- MessageService.GetMessage: returns the intended View, not the DTO as written (see Findings).
- ConsumerService.Consumer.RunJob: an exception in the setup before the try block leaves the slot taken, as written; what the host then does with the escaped exception is not modelled.
- AddTransactionValidator.CvvValidIff: char.IsDigit is taken as the ASCII digits 0-9. Other Unicode decimal digits (Arabic-Indic, full-width) are refused by the model but accepted by the source.
- AddTransactionValidator.OnlyDigits: char.IsDigit is taken as the ASCII digits 0-9, as for CvvValidIff.
- ConsumerService.RunCrawl: a CancelJob is interleaved with the page visit only, as a CancelRequested event; its write of Status "Cancelled" to the job row during the run is not modelled, and the run's own final write is what the model records.
- ConsumerService.CrawlState: the captured sites are a ConcurrentBag, whose enumeration order is unspecified; the model keeps them in insertion order. Lookups do not depend on the order when URLs are unique (ConsumerService.FindSiteUnique), but the order of sites in the stored report does.
- PromoCodeService.PromoCodeService.DeletePromoCode: uses the intended lookup by id (see Findings).
- PromoCodeService.PromoCodeService.UpdatePromoCode: uses the intended lookup by id (see Findings).

Other behaviour that is modelled as written, and that may surprise a reader:

- The transaction sweep selects pending transactions created within the last hour, not older ones.
- VerifyPromoCode refuses codes on their expiry day, which checkout still accepts.
- The profile's usage counts deleted jobs.
- No plan can be added: AddPlan always answers "Failed" (see Findings).
- No update can change a plan's Quota or Concurrency.
- GetPlansAdmin fails when two live plans share a name.
- The message listing includes deleted messages.
- DeleteMessage does not set UpdatedAt.
- The statistics count deleted rows and rows of every status.
- x-served-by is seeded as a known response header, so it is never recorded.

## Findings

| source | as written | input that shows it | evidently intended | confidence | as-written member | corrected member |
|---|---|---|---|---|---|---|
| G2.Service/Jobs/JobService.cs:268 | skip = (page - 1) * limit in 32-bit int arithmetic | page 21474838, limit 100 gives a negative skip | the non-negative skip (page - 1) * limit | not executed | Paging.Skip32GoesNegative | Paging.Normalize |
| G2.Service/Jobs/JobService.cs:111 | the concurrency refusal prints Plan.Quota as the limit | Starter plan (quota 10, concurrency 3) says "10 concurrent jobs" | print Plan.Concurrency | not executed | JobService.ConcurrencyMessageMisstatesLimit | JobService.ConcurrencyMessage |
| G2.Service/PromoCode/PromoCodeService.cs:103-104 | Delete and Update look up the first live code and ignore the id | codes 1 and 2 live; deleting 2 deletes 1 | the live code with that id | not executed | PromoCodeService.DeleteHitsWrongCode | PromoCodeService.Target |
| G2.Service/Messages/MessageService.cs:202 | GetMessage's DTO takes UserId from the reader's claims | an admin reads user 5's message and sees the admin's id | the message's UserId | not executed | MessageService.ViewReportsReader | MessageService.View |
| G2.Service/Stats/StatsService.cs:80-83 | the default window ends at today's midnight | a row created at 01:00 today is not counted | include all of today | not executed | StatsService.DefaultSpanMissesToday | StatsService.DefaultSpan |
| G2.Service/Plan/PlanService.cs:63 | AddPlanDto is mapped to Plan, but the AutoMapper profile (G2.API/Helper/AutoMapper.cs:15-24) registers no such map, so Map throws and the catch answers "Failed" | any valid AddPlan request from a super-admin | store the new plan and answer "Plan created" with its card | not executed | PlanService.PlanService.AddPlan | PlanService.CreatedPlanIsListed |
