/** frontend/api.js: the `api(path, options)` helper every page uses to call
    the backend. It puts the path under `/api`, merges the JSON content type,
    the caller's headers and the stored token into one headers object, and
    hands both to `fetch`. The stored token is a parameter here and the
    `fetch` call is the returned `Request`. */
module FrontendApi {
  import opened Wrappers
  import opened Text

  const Prefix := "/api"

  /** The options a caller passes: its own `headers` (possibly absent) and
      every other option (method, body, ...) by name. */
  datatype Options = Options(headers: Option<map<string, string>>, other: map<string, string>)

  /** What `fetch` is called with. */
  datatype Request = Request(url: string, options: Options)

  /** `path.startsWith('/api') ? path : `/api${path}``. */
  function ApiUrl(path: string): (url: string)
    ensures StartsWith(url, Prefix)
    ensures StartsWith(path, Prefix) ==> url == path
    ensures !StartsWith(path, Prefix) ==> url == Prefix + path
  {
    if StartsWith(path, Prefix) then path else Prefix + path
  }

  /** Prefixing twice is prefixing once. */
  lemma ApiUrlIdempotent(path: string)
    ensures ApiUrl(ApiUrl(path)) == ApiUrl(path)
  {
  }

  /** `if (token)`: a stored token counts unless it is absent or empty. */
  predicate HasToken(token: Option<string>) {
    token.Some? && token.value != []
  }

  /** `options.headers || {}`. */
  function Given(headers: Option<map<string, string>>): map<string, string> {
    if headers.Some? then headers.value else map[]
  }

  /** The headers object `api()` builds: the JSON content type, overridden by
      the caller's headers, then the bearer token when one is stored. */
  function MergedHeaders(token: Option<string>, headers: Option<map<string, string>>): (h: map<string, string>)
    ensures "Content-Type" in h
  {
    var merged := map["Content-Type" := "application/json"] + Given(headers);
    if HasToken(token) then merged["Authorization" := "Bearer " + token.value] else merged
  }

  /** The merged headers key by key: a stored token decides `Authorization`,
      the caller decides every other header it sets, and `Content-Type`
      defaults to JSON. */
  lemma MergedHeadersContents(token: Option<string>, headers: Option<map<string, string>>)
    ensures var h := MergedHeaders(token, headers); var caller := Given(headers);
      (HasToken(token) ==> h["Authorization"] == "Bearer " + token.value) &&
      ("Authorization" in h <==> HasToken(token) || "Authorization" in caller) &&
      (forall k :: k != "Authorization" ==> (k in h <==> k == "Content-Type" || k in caller)) &&
      (forall k :: k in caller && (k != "Authorization" || !HasToken(token)) ==> k in h && h[k] == caller[k]) &&
      ("Content-Type" !in caller ==> h["Content-Type"] == "application/json")
  {
  }

  /** The headers are built in a local object that the token check then
      updates. */
  method Headers(token: Option<string>, options: Options) returns (h: map<string, string>)
    ensures h == MergedHeaders(token, options.headers)
  {
    h := map["Content-Type" := "application/json"];
    if options.headers.Some? {
      h := h + options.headers.value;
    }
    if token.Some? && token.value != [] {
      h := h["Authorization" := "Bearer " + token.value];
    }
  }

  /** `api(path, options)`: the prefixed URL, and the caller's options with
      `headers` replaced by the merged headers. */
  method Api(path: string, options: Options, token: Option<string>) returns (r: Request)
    ensures r.url == ApiUrl(path)
    ensures r.options.other == options.other
    ensures r.options.headers == Some(MergedHeaders(token, options.headers))
  {
    var headers := Headers(token, options);
    var url := if StartsWith(path, Prefix) then path else Prefix + path;
    r := Request(url, options.(headers := Some(headers)));
  }

  /** The prefix test is on characters, not on path segments: `/apiary`
      is taken to be under `/api` already and is left as it is. */
  lemma PrefixIsTextual()
    ensures ApiUrl("/apiary") == "/apiary"
    ensures ApiUrl("/participants") == "/api/participants"
  {
    assert "/apiary" == Prefix + "ary";
    assert "/participants"[1] != Prefix[1];
  }
}
