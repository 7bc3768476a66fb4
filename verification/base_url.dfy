/**
 * `getAutoBaseUrl` of next.config.ts: the front end's public base URL, from
 * NODE_ENV and VERCEL_URL. The environment is passed in; an unset variable is
 * `None`.
 */
module BaseUrl {
  import opened Wrappers
  import opened JsStrings

  const LocalUrl: string := "http://localhost:3000"
  const ProductionUrl: string := "http://162.14.126.179"

  function GetAutoBaseUrl(nodeEnv: Option<string>, vercelUrl: Option<string>): (url: string)
    ensures nodeEnv == Some("development") ==> url == LocalUrl
    ensures nodeEnv == Some("production") ==> url == ProductionUrl
    ensures nodeEnv != Some("development") && nodeEnv != Some("production") ==>
      url == if vercelUrl.None? || vercelUrl.value == "" then LocalUrl
             else if StartsWith(vercelUrl.value, "http") then vercelUrl.value
             else "https://" + vercelUrl.value
    ensures StartsWith(url, "http")
  {
    if nodeEnv == Some("development") then LocalUrl
    else if nodeEnv == Some("production") then ProductionUrl
    else if vercelUrl.None? || vercelUrl.value == "" then LocalUrl
    else if StartsWith(vercelUrl.value, "http") then vercelUrl.value
    else
      assert ("https://" + vercelUrl.value)[..4] == "http";
      "https://" + vercelUrl.value
  }

  /** Outside development and production, feeding the result back in as VERCEL_URL gives it back: the scheme is added at most once. */
  lemma BaseUrlStable(nodeEnv: Option<string>, vercelUrl: Option<string>)
    requires nodeEnv != Some("development") && nodeEnv != Some("production")
    ensures GetAutoBaseUrl(nodeEnv, Some(GetAutoBaseUrl(nodeEnv, vercelUrl))) == GetAutoBaseUrl(nodeEnv, vercelUrl)
  {
  }

  /** A bare host gets "https://", but a host whose name starts with "http" is taken for a URL as it is. */
  lemma BaseUrlExamples()
    ensures GetAutoBaseUrl(None, Some("app.vercel.app")) == "https://app.vercel.app"
    ensures GetAutoBaseUrl(None, Some("httpbin.vercel.app")) == "httpbin.vercel.app"
    ensures GetAutoBaseUrl(Some("test"), None) == LocalUrl
  {
    assert !StartsWith("app.vercel.app", "http") by {
      assert "app.vercel.app"[..4][0] == 'a';
    }
    assert StartsWith("httpbin.vercel.app", "http");
  }
}
