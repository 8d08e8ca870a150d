/** The server's allowlist of YouTube hosts (`isYouTubeUrl`, server.js).
    The URL parser is outside the model: its answer for a given URL is
    given as the host name it yields, or `None` when `new URL` throws. */
module UrlPolicy {
  import opened JsValues
  import opened JsStrings

  const YouTubeSuffix := "youtube.com"
  const ShortLinkHost := "youtu.be"
  const NoCookieSuffix := "youtube-nocookie.com"

  /** The allowlist on an already lower-cased host name. The two suffix
      tests are raw string suffixes, not bounded by a dot. */
  predicate AllowedHost(host: string)
  {
    EndsWith(host, YouTubeSuffix) || host == ShortLinkHost || EndsWith(host, NoCookieSuffix)
  }

  /** `isYouTubeUrl(url)`, given what parsing `url` produced: false on a parse
      failure, otherwise the allowlist applied to the lower-cased host. */
  function IsYouTubeUrl(parsedHost: Option<string>): (ok: bool)
    ensures parsedHost.None? ==> !ok
    ensures parsedHost.Some? ==> (ok <==> AllowedHost(Lower(parsedHost.value)))
  {
    match parsedHost
    case None => false
    case Some(host) => AllowedHost(Lower(host))
  }

  /** Case does not matter: a host and its lower-cased form are accepted alike. */
  lemma CaseInsensitive(host: string)
    ensures IsYouTubeUrl(Some(host)) == IsYouTubeUrl(Some(Lower(host)))
  {
    LowerIdempotent(host);
  }

  /** Every host that ends with `youtube.com` or `youtube-nocookie.com`, whatever
      comes before it (a subdomain or any other text), is accepted. */
  lemma {:induction false} AnyPrefixOfAllowedSuffixAccepted(prefix: string)
    ensures IsYouTubeUrl(Some(Lower(prefix) + YouTubeSuffix))
    ensures IsYouTubeUrl(Some(Lower(prefix) + NoCookieSuffix))
  {
    var h1 := Lower(prefix) + YouTubeSuffix;
    var h2 := Lower(prefix) + NoCookieSuffix;
    assert Lower(YouTubeSuffix) == YouTubeSuffix;
    assert Lower(NoCookieSuffix) == NoCookieSuffix;
    assert Lower(h1) == h1 by {
      assert Lower(h1) == Lower(Lower(prefix)) + Lower(YouTubeSuffix);
      LowerIdempotent(prefix);
    }
    assert Lower(h2) == h2 by {
      assert Lower(h2) == Lower(Lower(prefix)) + Lower(NoCookieSuffix);
      LowerIdempotent(prefix);
    }
    EndsWithConcat(Lower(prefix), YouTubeSuffix);
    EndsWithConcat(Lower(prefix), NoCookieSuffix);
  }

  /** Because the suffix test is not dot-bounded, a look-alike host such as
      `notyoutube.com` is accepted. */
  lemma LookalikeHostAccepted()
    ensures IsYouTubeUrl(Some("notyoutube.com"))
  {
    var v := "notyoutube.com";
    assert v == ['n', 'o', 't', 'y', 'o', 'u', 't', 'u', 'b', 'e', '.', 'c', 'o', 'm'];
    assert forall i :: 0 <= i < |v| ==> LowerChar(v[i]) == v[i];
    assert Lower(v) == v;
    assert v == "not" + YouTubeSuffix;
    EndsWithConcat("not", YouTubeSuffix);
  }

  /** The privacy-enhanced embedding host is accepted. */
  lemma NoCookieHostAccepted()
    ensures IsYouTubeUrl(Some("www.youtube-nocookie.com"))
  {
    var v := "www.youtube-nocookie.com";
    assert v == ['w', 'w', 'w', '.', 'y', 'o', 'u', 't', 'u', 'b', 'e', '-',
                 'n', 'o', 'c', 'o', 'o', 'k', 'i', 'e', '.', 'c', 'o', 'm'];
    assert forall i :: 0 <= i < |v| ==> LowerChar(v[i]) == v[i];
    assert Lower(v) == v;
    assert v == "www." + NoCookieSuffix;
    EndsWithConcat("www.", NoCookieSuffix);
  }

  /** The short-link host is matched exactly: its subdomains are not accepted. */
  lemma ShortLinkIsExact()
    ensures IsYouTubeUrl(Some("youtu.be"))
    ensures IsYouTubeUrl(Some("YOUTU.BE"))
    ensures !IsYouTubeUrl(Some("www.youtu.be"))
  {
    assert Lower("YOUTU.BE") == "youtu.be";
    assert Lower("youtu.be") == "youtu.be";
    assert Lower("www.youtu.be") == "www.youtu.be";
  }

  /** A host outside the list is refused even when the path names YouTube. */
  lemma ForeignHostRefused()
    ensures !IsYouTubeUrl(Some("evil.com"))
  {
    assert Lower("evil.com") == "evil.com";
  }
}
