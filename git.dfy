/** Building the clone URL for a private HTTPS repository. */
module Git {
  import opened Wrappers
  import opened Text

  const Https := "https://"

  /** `_auth_url`: with a non-empty token and an https URL, the token and an
      "@" go right after the scheme (`str.replace(..., 1)`); otherwise the
      URL is returned as it is. */
  function AuthUrl(repoUrl: string, token: Option<string>): (r: string)
    ensures token.None? || token == Some("") || !(Https <= repoUrl) ==> r == repoUrl
    ensures token.Some? && token.value != "" && Https <= repoUrl ==>
      r == Https + token.value + "@" + repoUrl[|Https|..]
  {
    if token.Some? && token.value != "" && Https <= repoUrl then
      ReplaceFirst(repoUrl, Https, Https + token.value + "@")
    else
      repoUrl
  }

  /** In the rewritten case the URL still starts with the scheme, is one
      character longer than URL and token together, and everything after the
      inserted "token@" is the rest of the original URL, untouched: a later
      "https://" in it is not replaced. */
  lemma AuthUrlShape(repoUrl: string, token: string)
    requires token != "" && Https <= repoUrl
    ensures var r := AuthUrl(repoUrl, Some(token));
      && Https <= r
      && |r| == |repoUrl| + |token| + 1
      && r[|Https|..|Https| + |token|] == token
      && r[|Https| + |token|] == '@'
      && r[|Https| + |token| + 1..] == repoUrl[|Https|..]
  {
    var r := AuthUrl(repoUrl, Some(token));
    assert r == Https + token + "@" + repoUrl[|Https|..];
  }

  /** Taking "token@" back out of the rewritten URL gives the original. */
  lemma AuthUrlStrip(repoUrl: string, token: string)
    requires token != "" && Https <= repoUrl
    ensures var r := AuthUrl(repoUrl, Some(token));
      Https + r[|Https| + |token| + 1..] == repoUrl
  {
    AuthUrlShape(repoUrl, token);
    assert repoUrl == Https + repoUrl[|Https|..];
  }
}
