/**
 * The rule chain on a job submission's Url: Must(VerifyUrl), then
 * MustAsync(IsUrlSafe), then NotEmpty. Every rule of the chain runs, so a
 * value may collect several messages.
 */
module AddJobValidator {
  import opened Common
  import opened Text
  import SSRFChecker

  /**
   * Uri.TryCreate(url, UriKind.Absolute): it fails on a null or empty string;
   * otherwise its outcome is the parser's, given as `parsed`.
   */
  function TryCreate(url: Option<string>, parsed: Option<SSRFChecker.Uri>): Option<SSRFChecker.Uri>
  {
    if url.None? || url.value == "" then None else parsed
  }

  predicate VerifyUrl(url: Option<string>, parsed: Option<SSRFChecker.Uri>)
  {
    if url.None? || url.value == "" then false
    else
      var uri := TryCreate(url, parsed);
      uri.Some? && (uri.value.scheme == "http" || uri.value.scheme == "https")
  }

  /** FluentValidation's NotEmpty on a string: not null, and not empty or white space only. */
  predicate NotEmpty(url: Option<string>)
  {
    url.Some? && !IsBlank(url.value)
  }

  /** The messages the chain reports, in rule order; an empty list means the Url is accepted. */
  function Validate(url: Option<string>, parsed: Option<SSRFChecker.Uri>,
                    resolved: Option<seq<SSRFChecker.AddressBytes>>): seq<string>
  {
    (if VerifyUrl(url, parsed) then [] else ["Invalid url"])
    + (if SSRFChecker.IsUrlSafe(TryCreate(url, parsed), resolved) then [] else ["Invalid url"])
    + (if NotEmpty(url) then [] else ["Url is required"])
  }

  /** A null or empty URL never passes VerifyUrl. */
  lemma EmptyUrlFailsVerify(url: Option<string>, parsed: Option<SSRFChecker.Uri>)
    requires url.None? || url.value == ""
    ensures !VerifyUrl(url, parsed)
  {
  }

  /** VerifyUrl holds iff the text is an absolute URI with scheme http or https. */
  lemma VerifyUrlIff(url: Option<string>, parsed: Option<SSRFChecker.Uri>)
    ensures VerifyUrl(url, parsed) <==>
      url.Some? && url.value != "" && parsed.Some? && SSRFChecker.IsHttp(parsed.value.scheme)
  {
  }

  /** A submission is accepted iff it passes VerifyUrl, the SSRF guard and NotEmpty. */
  lemma AcceptedIff(url: Option<string>, parsed: Option<SSRFChecker.Uri>,
                    resolved: Option<seq<SSRFChecker.AddressBytes>>)
    ensures Validate(url, parsed, resolved) == [] <==>
      VerifyUrl(url, parsed) && SSRFChecker.IsUrlSafe(parsed, resolved) && NotEmpty(url)
  {
  }

  /** An accepted Url always passes the SSRF guard. */
  lemma AcceptedIsSafe(url: Option<string>, parsed: Option<SSRFChecker.Uri>,
                       resolved: Option<seq<SSRFChecker.AddressBytes>>)
    requires Validate(url, parsed, resolved) == []
    ensures SSRFChecker.IsUrlSafe(parsed, resolved)
    ensures parsed.Some? && SSRFChecker.IsHttp(parsed.value.scheme)
  {
    AcceptedIff(url, parsed, resolved);
  }

  /** A missing or empty Url collects all three messages. */
  lemma EmptyUrlMessages(url: Option<string>, parsed: Option<SSRFChecker.Uri>,
                         resolved: Option<seq<SSRFChecker.AddressBytes>>)
    requires url.None? || url.value == ""
    ensures Validate(url, parsed, resolved) == ["Invalid url", "Invalid url", "Url is required"]
  {
  }

  /** A Url that fails only the SSRF guard is reported once as "Invalid url". */
  lemma UnsafeUrlMessage(url: Option<string>, parsed: Option<SSRFChecker.Uri>,
                         resolved: Option<seq<SSRFChecker.AddressBytes>>)
    requires VerifyUrl(url, parsed) && NotEmpty(url)
    requires !SSRFChecker.IsUrlSafe(parsed, resolved)
    ensures Validate(url, parsed, resolved) == ["Invalid url"]
  {
  }
}
