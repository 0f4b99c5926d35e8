/** The external sign-in providers the service accepts. */
module LoginProvider {
  import opened Text

  /** The fixed provider list, in lower case. */
  const Providers: seq<string> := ["google", "github"]

  predicate Supported(provider: string)
  {
    ToLower(provider) in Providers
  }

  /** Exactly two providers are listed, and they are distinct. */
  lemma ProviderListFixed()
    ensures |Providers| == 2 && Providers[0] != Providers[1]
  {
  }

  /** A provider is supported iff its lower-case form is "google" or "github". */
  lemma SupportedIff(provider: string)
    ensures Supported(provider) <==> ToLower(provider) == "google" || ToLower(provider) == "github"
  {
  }

  /** Matching ignores case. */
  lemma MixedCaseAccepted()
    ensures Supported("GitHub") && Supported("GOOGLE")
  {
    assert ToLower("GitHub") == "github";
    assert ToLower("GOOGLE") == "google";
  }

  /** Any other provider is refused. */
  lemma OthersRefused()
    ensures !Supported("gitlab") && !Supported("") && !Supported("facebook")
  {
    assert ToLower("gitlab") == "gitlab";
    assert ToLower("facebook") == "facebook";
  }
}
