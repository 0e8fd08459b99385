/** The API base URL of the front end, normalised to end in "/api". */
module Config {
  import opened Wrappers

  const DefaultApiUrl: string := "https://cgpa-calculator-wine.vercel.app/api"
  const ApiSuffix: string := "/api"

  predicate EndsWith(s: string, suffix: string) {
    |suffix| <= |s| && s[|s| - |suffix|..] == suffix
  }

  /** `process.env.REACT_APP_API_URL || default`: an absent or empty value falls back. */
  function BaseUrl(env: Option<string>): (url: string)
    ensures env == None || env == Some("") ==> url == DefaultApiUrl
    ensures env.Some? && env.value != "" ==> url == env.value
  {
    if env.Some? && env.value != "" then env.value else DefaultApiUrl
  }

  /** The suffix rule: keep a URL ending in "/api"; else drop one trailing '/' and append "/api". */
  function Normalise(url: string): (r: string)
    ensures EndsWith(r, ApiSuffix)
    ensures EndsWith(url, ApiSuffix) ==> r == url
  {
    if EndsWith(url, ApiSuffix) then url
    else
      var stem := if EndsWith(url, "/") then url[..|url| - 1] else url;
      EndsWithAppended(stem, ApiSuffix);
      stem + ApiSuffix
  }

  lemma EndsWithAppended(p: string, suffix: string)
    ensures EndsWith(p + suffix, suffix)
  {
    assert (p + suffix)[|p|..] == suffix;
  }

  /** Normalising a normalised URL changes nothing. */
  lemma NormaliseIdempotent(url: string)
    ensures Normalise(Normalise(url)) == Normalise(url)
  {
  }

  /**
   * The two rewriting branches (the kept case is part of the contract of
   * `Normalise`): a URL ending in '/' but not "/api" loses exactly that one
   * '/' before "/api" is appended; any other gets "/api" appended.
   */
  lemma NormaliseCases(url: string)
    ensures !EndsWith(url, ApiSuffix) && EndsWith(url, "/") ==>
      |url| >= 1 && url[|url| - 1] == '/' && Normalise(url) == url[..|url| - 1] + ApiSuffix
    ensures !EndsWith(url, ApiSuffix) && !EndsWith(url, "/") ==> Normalise(url) == url + ApiSuffix
  {
  }

  /** A URL ending in "/api/" is not recognised and gains a second "/api". */
  lemma NormaliseDoublesApiAfterSlash(p: string)
    ensures Normalise(p + "/api/") == p + "/api/api"
  {
    var url := p + "/api/";
    assert url[|url| - 1..] == "/";
    assert url[|url| - 4..] == "api/";
    assert url[..|url| - 1] == p + "/api";
    assert p + "/api" + "/api" == p + "/api/api";
  }

  /** The built-in default is already normalised, so an unset variable yields it unchanged. */
  lemma DefaultIsNormal()
    ensures Normalise(BaseUrl(None)) == DefaultApiUrl
    ensures Normalise(BaseUrl(Some(""))) == DefaultApiUrl
  {
    assert DefaultApiUrl[|DefaultApiUrl| - 4..] == ApiSuffix;
  }

  /** The module's initialisation: `let baseUrl` reassigned under the suffix test. */
  method ConfigureApiUrl(env: Option<string>) returns (apiUrl: string)
    ensures apiUrl == Normalise(BaseUrl(env))
    ensures EndsWith(apiUrl, ApiSuffix)
  {
    var baseUrl := if env.Some? && env.value != "" then env.value else DefaultApiUrl;
    if !EndsWith(baseUrl, ApiSuffix) {
      baseUrl := if EndsWith(baseUrl, "/") then baseUrl[..|baseUrl| - 1] else baseUrl;
      baseUrl := baseUrl + ApiSuffix;
    }
    apiUrl := baseUrl;
  }
}
