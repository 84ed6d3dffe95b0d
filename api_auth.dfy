/** Authentication of source websites (lib/utils/api-auth.ts): reading the
    API key from the request headers and looking it up among the active
    websites. */
module ApiAuth {
  import opened Types
  import opened Strings
  import opened Store

  /** Request headers as the Fetch standard's `Headers` keeps them: names are
      stored lower-cased, so lookups ignore case. */
  type Headers = map<string, string>

  function HeaderGet(h: Headers, name: string): Option<string>
  {
    if ToLower(name) in h then Some(h[ToLower(name)]) else None
  }

  /** `getApiKeyFromHeaders`: the "X-API-Key" header, falling back to
      "x-api-key" when the first is absent or empty. */
  function GetApiKeyFromHeaders(h: Headers): Option<string>
  {
    var first := HeaderGet(h, "X-API-Key");
    if Truthy(first) then first else HeaderGet(h, "x-api-key")
  }

  /** Header names are case-insensitive, so the fallback reads the same
      header again: the result is just the "x-api-key" value (possibly
      empty). */
  lemma FallbackIsSameHeader(h: Headers)
    ensures GetApiKeyFromHeaders(h) == HeaderGet(h, "x-api-key")
  {
    var upper, lower := ToLower("X-API-Key"), ToLower("x-api-key");
    assert forall i :: 0 <= i < 9 ==> upper[i] == lower[i];
    assert upper == lower;
  }

  /** The active websites whose key is exactly `key`, in table order. */
  function ActiveMatches(websites: seq<Website>, key: string): (r: seq<Website>)
    ensures forall w :: w in r <==> w in websites && w.is_active && w.api_key == key
  {
    if websites == [] then []
    else
      var rest := ActiveMatches(websites[1..], key);
      if websites[0].is_active && websites[0].api_key == key then [websites[0]] + rest else rest
  }

  /** `validateApiKey`: the website for a non-empty key when exactly one
      active website has that key (`.single()` fails otherwise); no website
      for a missing or empty key. It only reads the table. */
  function ValidateApiKey(websites: seq<Website>, apiKey: Option<string>): (r: Option<Website>)
    ensures !Truthy(apiKey) ==> r.None?
    ensures r.Some? ==> r.value in websites && r.value.is_active && r.value.api_key == apiKey.value
    ensures Truthy(apiKey) ==> (r.Some? <==> |ActiveMatches(websites, apiKey.value)| == 1)
  {
    if !Truthy(apiKey) then None
    else
      var matches := ActiveMatches(websites, apiKey.value);
      if |matches| == 1 then Some(matches[0]) else None
  }

  /** With unique keys at most one website matches. */
  lemma {:induction false} AtMostOneMatch(websites: seq<Website>, key: string)
    requires UniqueWebsites(websites)
    ensures |ActiveMatches(websites, key)| <= 1
  {
    if websites != [] {
      var rest := websites[1..];
      assert UniqueWebsites(rest) by {
        forall i, j | 0 <= i < j < |rest| ensures rest[i].id != rest[j].id && rest[i].api_key != rest[j].api_key {
          assert rest[i] == websites[i + 1] && rest[j] == websites[j + 1];
        }
      }
      AtMostOneMatch(rest, key);
      if websites[0].api_key == key {
        forall j | 0 <= j < |rest| ensures rest[j].api_key != key {
          assert rest[j] == websites[j + 1];
        }
        var m := ActiveMatches(rest, key);
        assert |m| == 0 || m[0] in m;
      }
    }
  }

  /** An active website's own (non-empty) key finds exactly that website. */
  lemma ValidateFindsActiveWebsite(websites: seq<Website>, w: Website)
    requires UniqueWebsites(websites) && w in websites && w.is_active && w.api_key != ""
    ensures ValidateApiKey(websites, Some(w.api_key)) == Some(w)
  {
    AtMostOneMatch(websites, w.api_key);
    var m := ActiveMatches(websites, w.api_key);
    assert w in m;
  }

  /** An inactive website's key finds nothing. */
  lemma ValidateRejectsInactiveWebsite(websites: seq<Website>, w: Website)
    requires UniqueWebsites(websites) && w in websites && !w.is_active
    ensures ValidateApiKey(websites, Some(w.api_key)).None?
  {
  }
}
