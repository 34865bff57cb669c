/**
 * The URL and headers of every CRM call: the API base URL, the path, the
 * call's own query parameters and then the API parameters (by default the
 * access token), and the JSON headers. Each route derives its settings from
 * the environment, falling back to the hosted API of the nation's slug.
 */
module ApiUtilities {
  import opened Wrappers
  import opened Text
  import opened FieldMapping

  /** `API_URL` and `API_PARAMETERS` as a route derives them. */
  datatype ApiSettings = ApiSettings(apiUrl: string, apiParameters: string)

  /**
   * The environment a route reads: the nation's slug, the API token and the
   * two optional overrides, `""` when unset.
   */
  datatype Env = Env(slug: string, apiToken: string, apiUrl: string, apiParameters: string)

  /** `env.X || default`: an unset or empty override falls back to the hosted API and the access token. */
  function Derived(env: Env): ApiSettings {
    ApiSettings(
      if env.apiUrl != "" then env.apiUrl else "https://" + env.slug + ".nationbuilder.com/api/v1",
      if env.apiParameters != "" then env.apiParameters else "access_token=" + env.apiToken)
  }

  /** `GenerateURL`: the URL grows by appending, and `parameters` counts only when truthy. */
  function GenerateUrl(settings: ApiSettings, path: string, parameters: Option<string>): string {
    var url := settings.apiUrl;
    var url := url + "/" + path;
    var url := if Truthy(parameters) then url + "?" + parameters.value else url;
    var url := url + (if Truthy(parameters) then "&" else "?");
    url + settings.apiParameters
  }

  /** What every URL starts with: the base URL, a slash and the path. */
  function Base(settings: ApiSettings, path: string): string {
    settings.apiUrl + "/" + path
  }

  /**
   * The URL is the base, then `?`, then the call's parameters followed by
   * `&` when it has any, then the API parameters: so it starts with the
   * base, ends with the API parameters, and the call's parameters sit
   * between the `?` and the `&`.
   */
  lemma UrlShape(settings: ApiSettings, path: string, parameters: Option<string>)
    ensures var r := GenerateUrl(settings, path, parameters);
      var base := Base(settings, path);
      var query := if Truthy(parameters) then parameters.value + "&" else "";
      |r| == |base| + 1 + |query| + |settings.apiParameters| &&
      r[..|base|] == base && r[|base|] == '?' &&
      r[|base| + 1..|base| + 1 + |query|] == query &&
      r[|r| - |settings.apiParameters|..] == settings.apiParameters
  {
    var r := GenerateUrl(settings, path, parameters);
    var base := Base(settings, path);
    var query := if Truthy(parameters) then parameters.value + "&" else "";
    assert r == base + "?" + query + settings.apiParameters;
  }

  /**
   * The function adds exactly one `?`, and one `&` exactly when the call has
   * parameters: every other `?` or `&` of the URL comes from the settings,
   * the path or the parameters.
   */
  lemma UrlSeparators(settings: ApiSettings, path: string, parameters: Option<string>)
    ensures var r := GenerateUrl(settings, path, parameters);
      var given := settings.apiUrl + "/" + path + (if Truthy(parameters) then parameters.value else "") + settings.apiParameters;
      Occurrences(r, '?') == Occurrences(given, '?') + 1 &&
      Occurrences(r, '&') == Occurrences(given, '&') + (if Truthy(parameters) then 1 else 0)
  {
    var base := Base(settings, path);
    var p := if Truthy(parameters) then parameters.value else "";
    var tail := settings.apiParameters;
    var r := GenerateUrl(settings, path, parameters);
    forall c: char
      ensures Occurrences(r, c) == Occurrences(base + p + tail, c) + Occurrences("?", c)
                                   + (if Truthy(parameters) then Occurrences("&", c) else 0)
    {
      if Truthy(parameters) {
        assert r == base + "?" + p + "&" + tail;
        OccurrencesAppend(base + "?" + p + "&", tail, c);
        OccurrencesAppend(base + "?" + p, "&", c);
        OccurrencesAppend(base + "?", p, c);
        OccurrencesAppend(base, "?", c);
        OccurrencesAppend(base + p, tail, c);
        OccurrencesAppend(base, p, c);
      } else {
        assert r == base + "?" + tail;
        assert base + p + tail == base + tail;
        OccurrencesAppend(base + "?", tail, c);
        OccurrencesAppend(base, "?", c);
        OccurrencesAppend(base, tail, c);
      }
    }
    assert Occurrences("?", '?') == 1 && Occurrences("?", '&') == 0;
    assert Occurrences("&", '&') == 1 && Occurrences("&", '?') == 0;
  }

  /** With the default settings every URL goes to the nation's hosted API and ends with its access token. */
  lemma DefaultUrl(env: Env, path: string, parameters: Option<string>)
    requires env.apiUrl == "" && env.apiParameters == ""
    ensures var r := GenerateUrl(Derived(env), path, parameters);
      var host := "https://" + env.slug + ".nationbuilder.com/api/v1/" + path;
      var token := "access_token=" + env.apiToken;
      |r| > |host| + |token| &&
      r[..|host|] == host && r[|r| - |token|..] == token
  {
    var settings := Derived(env);
    UrlShape(settings, path, parameters);
    assert Base(settings, path) == "https://" + env.slug + ".nationbuilder.com/api/v1/" + path;
  }

  /** `GenerateHeaders`: the same two JSON headers on every call. */
  function GenerateHeaders(): (h: map<string, string>)
    ensures h.Keys == {"Accept", "Content-Type"}
    ensures forall k :: k in h ==> h[k] == "application/json"
  {
    map["Accept" := "application/json", "Content-Type" := "application/json"]
  }
}
