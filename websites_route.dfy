/** The websites endpoint (app/api/websites/route.ts): `GET` lists the
    registered source websites by name for any signed-in user; `POST`
    registers a new website for an admin, generating its API key and
    webhook secret.

    The session user is passed in as an optional user id, the random bytes
    of the two credentials as byte sequences, and the time of the request
    as `now`. A body that is not JSON is `None`. */
module WebsitesRoute {
  import opened Types
  import opened Store
  import opened Signature
  import Ordering

  // ---------------------------------------------------------------------
  // GET

  function WebsiteName(w: Website): string
  {
    w.name
  }

  /** `GET /api/websites`: 401 without a session user, otherwise every
      website ordered by name. */
  function ListWebsites(user: Option<string>, websites: seq<Website>): (r: Response<seq<Website>>)
    ensures r.status == 401 <==> user.None?
    ensures user.None? ==> r == Fail(401, "Unauthorized", AuthFailed)
    ensures user.Some? ==>
      r.status == 200 && r.body.Success? &&
      multiset(r.body.data) == multiset(websites) && Ordering.SortedBy(r.body.data, WebsiteName, false)
  {
    if user.None? then Fail(401, "Unauthorized", AuthFailed)
    else Response(200, Success(Ordering.SortBy(websites, WebsiteName, false), None))
  }

  // ---------------------------------------------------------------------
  // POST

  /** The fields of the registration body the route reads. */
  datatype RegisterBody = RegisterBody(
    id: Option<string>,
    name: Option<string>,
    domain: Option<string>,
    webhook_url: Option<string>,
    logo_url: Option<string>)

  /** The admin row of the session user, if any. */
  function FindAdmin(admins: seq<AdminUser>, userId: string): (r: Option<AdminUser>)
    ensures r.Some? ==> r.value in admins && r.value.id == userId
    ensures r.None? ==> forall i :: 0 <= i < |admins| ==> admins[i].id != userId
  {
    if admins == [] then None
    else if admins[0].id == userId then Some(admins[0])
    else FindAdmin(admins[1..], userId)
  }

  /** Only superadmins and admins may register websites. */
  predicate MayRegister(admins: seq<AdminUser>, userId: string)
  {
    var a := FindAdmin(admins, userId);
    a.Some? && (a.value.role == Superadmin || a.value.role == Admin)
  }

  predicate HasRequiredFields(body: RegisterBody)
  {
    Truthy(body.id) && Truthy(body.name) && Truthy(body.domain)
  }

  /** `id.substring(0, 2)`. */
  function KeyPrefix(id: string): (p: string)
    ensures |p| == if |id| < 2 then |id| else 2
    ensures p == id[..|p|]
  {
    if |id| < 2 then id else id[..2]
  }

  /** The row inserted for a complete body. */
  function NewWebsite(body: RegisterBody, now: string, keyBytes: seq<bv8>, secretBytes: seq<bv8>): Website
    requires HasRequiredFields(body) && |keyBytes| == 24 && |secretBytes| == 24
  {
    Website(body.id.value, body.name.value, body.domain.value,
            GenerateApiKey(KeyPrefix(body.id.value), keyBytes),
            OrNull(body.webhook_url), Some(GenerateWebhookSecret(secretBytes)), OrNull(body.logo_url),
            true, now, now)
  }

  /** The insert violates the id or API-key uniqueness of the table. */
  predicate Conflicts(websites: seq<Website>, w: Website)
  {
    exists i :: 0 <= i < |websites| && (websites[i].id == w.id || websites[i].api_key == w.api_key)
  }

  /** `POST /api/websites` as a function of the tables before it: the
      response and the websites table after it. */
  function RegisterSpec(websites: seq<Website>, admins: seq<AdminUser>, user: Option<string>,
                        body: Option<RegisterBody>, now: string, keyBytes: seq<bv8>, secretBytes: seq<bv8>)
    : (Response<Website>, seq<Website>)
    requires |keyBytes| == 24 && |secretBytes| == 24
  {
    if user.None? then (Fail(401, "Unauthorized", AuthFailed), websites)
    else if !MayRegister(admins, user.value) then (Fail(403, "Forbidden", Forbidden), websites)
    else if body.None? then (Fail(500, "Internal server error", ServerError), websites)
    else if !HasRequiredFields(body.value) then
      (Fail(400, "Missing required fields: id, name, domain", InvalidPayload), websites)
    else
      var w := NewWebsite(body.value, now, keyBytes, secretBytes);
      if Conflicts(websites, w) then (Fail(409, "Website with this ID already exists", Duplicate), websites)
      else (Response(201, Success(w, Some("Website registered successfully"))), websites + [w])
  }

  /** The handler: guard by guard, then an insert that the table's unique
      constraints may refuse. */
  method Register(db: Database, user: Option<string>, body: Option<RegisterBody>, now: string,
                  keyBytes: seq<bv8>, secretBytes: seq<bv8>)
    returns (response: Response<Website>)
    requires db.Valid() && |keyBytes| == 24 && |secretBytes| == 24
    modifies db`websites
    ensures db.Valid()
    ensures (response, db.websites) == RegisterSpec(old(db.websites), db.adminUsers, user, body, now, keyBytes, secretBytes)
  {
    if user.None? {
      return Fail(401, "Unauthorized", AuthFailed);
    }
    var admin := FindAdmin(db.adminUsers, user.value);
    if admin.None? || !(admin.value.role == Superadmin || admin.value.role == Admin) {
      return Fail(403, "Forbidden", Forbidden);
    }
    if body.None? {
      return Fail(500, "Internal server error", ServerError);
    }
    var b := body.value;
    if !Truthy(b.id) || !Truthy(b.name) || !Truthy(b.domain) {
      return Fail(400, "Missing required fields: id, name, domain", InvalidPayload);
    }
    var prefix := KeyPrefix(b.id.value);
    var apiKey := GenerateApiKey(prefix, keyBytes);
    var webhookSecret := GenerateWebhookSecret(secretBytes);
    var website := Website(b.id.value, b.name.value, b.domain.value, apiKey, OrNull(b.webhook_url),
                           Some(webhookSecret), OrNull(b.logo_url), true, now, now);
    assert website == NewWebsite(b, now, keyBytes, secretBytes);
    if Conflicts(db.websites, website) {
      return Fail(409, "Website with this ID already exists", Duplicate);
    }
    InsertKeepsWebsitesUnique(db.websites, website);
    db.websites := db.websites + [website];
    response := Response(201, Success(website, Some("Website registered successfully")));
  }

  // ---------------------------------------------------------------------
  // Properties

  /** A row that clashes with no id and no API key keeps both unique. */
  lemma InsertKeepsWebsitesUnique(websites: seq<Website>, w: Website)
    requires UniqueWebsites(websites) && !Conflicts(websites, w)
    ensures UniqueWebsites(websites + [w])
  {
    var r := websites + [w];
    forall i, j | 0 <= i < j < |r| ensures r[i].id != r[j].id && r[i].api_key != r[j].api_key {
      if j == |websites| {
        assert r[i] == websites[i];
      }
    }
  }

  /** The guards answer in order: 401 exactly without a session user, 403
      exactly for a user who is not an admin or superadmin, and 400 exactly
      for an admin whose JSON body lacks id, name or domain. A refused
      request leaves the table as it was. */
  lemma RegisterGuards(websites: seq<Website>, admins: seq<AdminUser>, user: Option<string>,
                       body: Option<RegisterBody>, now: string, keyBytes: seq<bv8>, secretBytes: seq<bv8>)
    requires |keyBytes| == 24 && |secretBytes| == 24
    ensures var (r, after) := RegisterSpec(websites, admins, user, body, now, keyBytes, secretBytes);
      (r.status == 401 <==> user.None?) &&
      (r.status == 403 <==> user.Some? && !MayRegister(admins, user.value)) &&
      (r.status == 400 <==> user.Some? && MayRegister(admins, user.value) && body.Some? && !HasRequiredFields(body.value)) &&
      (r.status != 201 ==> after == websites && r.body.Failure?)
  {
  }

  /** A registered website: the id, name and domain of the body, an API key
      made of the first two characters of the id, "_sk_live_" and the hex of
      the random bytes, a fresh "whsec_" secret, null for an absent or empty
      webhook or logo URL, active, and appended to the table. */
  lemma RegisteredRow(websites: seq<Website>, admins: seq<AdminUser>, user: Option<string>,
                      body: Option<RegisterBody>, now: string, keyBytes: seq<bv8>, secretBytes: seq<bv8>)
    requires |keyBytes| == 24 && |secretBytes| == 24
    requires RegisterSpec(websites, admins, user, body, now, keyBytes, secretBytes).0.status == 201
    ensures var (r, after) := RegisterSpec(websites, admins, user, body, now, keyBytes, secretBytes);
      var w := r.body.data;
      var id := body.value.id.value;
      var n := if |id| < 2 then |id| else 2;
      r.body.Success? && r.body.message == Some("Website registered successfully") &&
      after == websites + [w] &&
      Truthy(body.value.id) && w.id == id && w.name == body.value.name.value && w.domain == body.value.domain.value &&
      w.api_key[..n] == id[..n] && w.api_key[n..n + 9] == ApiKeyInfix &&
      HexDecode(w.api_key[n + 9..]) == keyBytes &&
      w.webhook_secret.Some? && w.webhook_secret.value[..6] == WebhookSecretPrefix &&
      HexDecode(w.webhook_secret.value[6..]) == secretBytes &&
      (w.webhook_url.None? <==> !Truthy(body.value.webhook_url)) &&
      (w.logo_url.None? <==> !Truthy(body.value.logo_url)) &&
      w.is_active && w.created_at == now && w.updated_at == now
  {
    var id := body.value.id.value;
    var key := GenerateApiKey(KeyPrefix(id), keyBytes);
    var n := |KeyPrefix(id)|;
    assert key[..n] == KeyPrefix(id) == id[..n];
  }

  /** Registering an id that is already taken answers 409 DUPLICATE and
      leaves the table unchanged. */
  lemma RegisterDuplicateId(websites: seq<Website>, admins: seq<AdminUser>, user: Option<string>,
                            body: Option<RegisterBody>, now: string, keyBytes: seq<bv8>, secretBytes: seq<bv8>, i: nat)
    requires |keyBytes| == 24 && |secretBytes| == 24
    requires user.Some? && MayRegister(admins, user.value) && body.Some? && HasRequiredFields(body.value)
    requires i < |websites| && websites[i].id == body.value.id.value
    ensures RegisterSpec(websites, admins, user, body, now, keyBytes, secretBytes) ==
      (Fail(409, "Website with this ID already exists", Duplicate), websites)
  {
    assert Conflicts(websites, NewWebsite(body.value, now, keyBytes, secretBytes));
  }

  /** Every registration keeps website ids and API keys unique. */
  lemma RegisterKeepsWebsitesUnique(websites: seq<Website>, admins: seq<AdminUser>, user: Option<string>,
                                    body: Option<RegisterBody>, now: string, keyBytes: seq<bv8>, secretBytes: seq<bv8>)
    requires |keyBytes| == 24 && |secretBytes| == 24 && UniqueWebsites(websites)
    ensures UniqueWebsites(RegisterSpec(websites, admins, user, body, now, keyBytes, secretBytes).1)
  {
    if user.Some? && MayRegister(admins, user.value) && body.Some? && HasRequiredFields(body.value) {
      var w := NewWebsite(body.value, now, keyBytes, secretBytes);
      if !Conflicts(websites, w) {
        InsertKeepsWebsitesUnique(websites, w);
      }
    }
  }
}
