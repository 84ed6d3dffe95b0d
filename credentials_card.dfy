/** The API credentials card of a website
    (components/dashboard/api-credentials-card.tsx): the masked API key, the
    webhook secret row, the environment-variable block and endpoint snippet
    for the integrating site, and the guarded key regeneration. */
module CredentialsCard {
  import opened Types
  import opened Strings

  const ApiUrl := "https://db.onebooking.co"

  /** Thirty-two U+2022 BULLET characters. */
  function Bullets(): (r: string)
    ensures |r| == 32 && forall i :: 0 <= i < 32 ==> r[i] == '\U{2022}'
  {
    seq(32, _ => '\U{2022}')
  }

  /** `maskedKey`: the first 15 characters of the key (fewer for a shorter
      key), then a fixed run of 32 bullets. */
  function MaskedKey(apiKey: string): (r: string)
    ensures |r| == Min(15, |apiKey|) + 32
    ensures r[..Min(15, |apiKey|)] == apiKey[..Min(15, |apiKey|)]
    ensures forall i :: Min(15, |apiKey|) <= i < |r| ==> r[i] == '\U{2022}'
  {
    apiKey[..Min(15, |apiKey|)] + Bullets()
  }

  /** Whatever the key, the mask shows at most its first 15 characters:
      every other position holds a bullet, and the mask has the same length
      for every key of 15 or more characters. */
  lemma MaskRevealsAtMostFifteen(apiKey: string, other: string)
    requires |apiKey| >= 15 && |other| >= 15 && apiKey[..15] == other[..15]
    ensures MaskedKey(apiKey) == MaskedKey(other)
    ensures forall i :: 0 <= i < |MaskedKey(apiKey)| && MaskedKey(apiKey)[i] != '\U{2022}' ==> i < 15
  {
  }

  /** The key shown in the card. */
  function ShownKey(apiKey: string, showApiKey: bool): string
  {
    if showApiKey then apiKey else MaskedKey(apiKey)
  }

  /** The webhook secret row appears only for a non-empty secret. */
  predicate ShowsSecretRow(webhookSecret: Option<string>)
  {
    Truthy(webhookSecret)
  }

  /** `envVarsText`: three `NAME=value` lines. */
  function EnvVarsLines(apiKey: string, websiteId: string): seq<string>
  {
    ["ONEBOOKING_API_URL=" + ApiUrl, "ONEBOOKING_API_KEY=" + apiKey, "WEBSITE_ID=" + websiteId]
  }

  function EnvVarsText(apiKey: string, websiteId: string): string
  {
    Join(EnvVarsLines(apiKey, websiteId), "\n")
  }

  /** The block is exactly three lines, in order: the API URL, the key and
      the website id, each after its variable name. */
  lemma EnvVarsLayout(apiKey: string, websiteId: string)
    requires '\n' !in apiKey && '\n' !in websiteId
    ensures var lines := Split(EnvVarsText(apiKey, websiteId), '\n');
      |lines| == 3 &&
      lines[0] == "ONEBOOKING_API_URL=" + ApiUrl &&
      lines[1] == "ONEBOOKING_API_KEY=" + apiKey &&
      lines[2] == "WEBSITE_ID=" + websiteId
  {
    var url := ApiUrl;
    assert '\n' !in "ONEBOOKING_API_URL=" && '\n' !in url;
    NoBreakConcat("ONEBOOKING_API_URL=", url);
    NoBreakConcat("ONEBOOKING_API_KEY=", apiKey);
    NoBreakConcat("WEBSITE_ID=", websiteId);
    JoinSplit(EnvVarsLines(apiKey, websiteId), '\n');
  }

  /** The endpoint snippet: the sync URL, then the header with the first 20
      characters of the key followed by "...". */
  function EndpointSnippet(apiKey: string): string
  {
    Join(["POST " + ApiUrl + "/api/bookings/sync", "Header: X-API-Key: " + apiKey[..Min(20, |apiKey|)] + "..."], "\n")
  }

  /** The snippet's header line shows the key's first 20 characters and
      nothing more of it. */
  lemma SnippetRevealsTwenty(apiKey: string)
    requires '\n' !in apiKey
    ensures var lines := Split(EndpointSnippet(apiKey), '\n');
      |lines| == 2 && lines[1] == "Header: X-API-Key: " + apiKey[..Min(20, |apiKey|)] + "..."
  {
    var head := "POST " + ApiUrl;
    var post := head + "/api/bookings/sync";
    assert '\n' !in "POST " && '\n' !in ApiUrl && '\n' !in "/api/bookings/sync";
    NoBreakConcat("POST ", ApiUrl);
    NoBreakConcat(head, "/api/bookings/sync");
    var shown := apiKey[..Min(20, |apiKey|)];
    assert forall x :: x in shown ==> x in apiKey;
    var header := "Header: X-API-Key: " + shown;
    NoBreakConcat("Header: X-API-Key: ", shown);
    NoBreakConcat(header, "...");
    JoinSplit([post, header + "..."], '\n');
  }

  class CredentialsPanel {
    const websiteId: string
    const apiKey: string
    var showApiKey: bool
    var copiedField: Option<string>
    var regenerating: bool

    constructor (websiteId: string, apiKey: string)
      ensures this.websiteId == websiteId && this.apiKey == apiKey
      ensures !showApiKey && copiedField.None? && !regenerating
    {
      this.websiteId := websiteId;
      this.apiKey := apiKey;
      showApiKey := false;
      copiedField := None;
      regenerating := false;
    }

    /** The eye button. */
    method ToggleShowKey()
      modifies this
      ensures showApiKey == !old(showApiKey)
      ensures copiedField == old(copiedField) && regenerating == old(regenerating)
    {
      showApiKey := !showApiKey;
    }

    /** `handleCopy(text, field)`: after a successful clipboard write the
        field is marked as copied; a failed write changes nothing. */
    method Copy(field: string, written: bool)
      modifies this
      ensures copiedField == if written then Some(field) else old(copiedField)
      ensures showApiKey == old(showApiKey) && regenerating == old(regenerating)
    {
      if written {
        copiedField := Some(field);
      }
    }

    /** The start of `handleRegenerateKey`: without the user's confirmation
        nothing happens and no request is made; with it, the card shows it
        is busy and posts to the website's regenerate-key endpoint. */
    method BeginRegenerate(confirmed: bool) returns (request: Option<string>)
      modifies this
      ensures request.Some? <==> confirmed
      ensures confirmed ==> request.value == "/api/websites/" + websiteId + "/regenerate-key" && regenerating
      ensures !confirmed ==> regenerating == old(regenerating)
      ensures showApiKey == old(showApiKey) && copiedField == old(copiedField)
    {
      if !confirmed {
        return None;
      }
      regenerating := true;
      request := Some("/api/websites/" + websiteId + "/regenerate-key");
    }

    /** The end of `handleRegenerateKey`: the busy flag is lowered whatever
        happened; an ok response refreshes the page and anything else
        (a failed status or an exception) raises the alert. */
    method FinishRegenerate(ok: bool) returns (refresh: bool, alert: Option<string>)
      modifies this
      ensures !regenerating
      ensures refresh <==> ok
      ensures alert.None? <==> ok
      ensures !ok ==> alert == Some("Failed to regenerate API key. Please try again.")
      ensures showApiKey == old(showApiKey) && copiedField == old(copiedField)
    {
      if ok {
        refresh, alert := true, None;
      } else {
        refresh, alert := false, Some("Failed to regenerate API key. Please try again.");
      }
      regenerating := false;
    }
  }
}
