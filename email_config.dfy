/** Per-brand sender details for customer e-mail (lib/email/config.ts):
    a fixed table keyed by website id, a default for unknown websites, and
    the formatted "from" address. */
module EmailConfig {
  import opened Types

  datatype BrandEmailConfig = BrandEmailConfig(
    senderEmail: string,
    senderName: string,
    supportEmail: string,
    brandColor: string)

  /** The five known brands. */
  const BrandEmailConfigs: map<string, BrandEmailConfig> := map[
    "hanuman-world" := BrandEmailConfig("support@hanumanworldphuket.com", "Hanuman World Phuket", "support@hanumanworldphuket.com", "#16a34a"),
    "flying-hanuman" := BrandEmailConfig("support@flyinghanuman.com", "Flying Hanuman", "support@flyinghanuman.com", "#ea580c"),
    "sky-rock" := BrandEmailConfig("support@skyrock.app", "Sky Rock Khao Lak", "support@skyrock.app", "#0ea5e9"),
    "hanuman-luge" := BrandEmailConfig("support@hanumanluge.com", "Hanuman Luge", "support@hanumanluge.com", "#9333ea"),
    "banana-beach" := BrandEmailConfig("support@bananabeach.app", "Banana Beach", "support@bananabeach.app", "#eab308")
  ]

  const DefaultEmailConfig: BrandEmailConfig :=
    BrandEmailConfig("noreply@onebooking.co", "OneBooking", "support@onebooking.co", "#1a237e")

  /** Every brand sends from its own support address, and the default
      sender is the only no-reply one. */
  lemma BrandTable()
    ensures |BrandEmailConfigs| == 5
    ensures forall id :: id in BrandEmailConfigs ==> BrandEmailConfigs[id].senderEmail == BrandEmailConfigs[id].supportEmail
    ensures DefaultEmailConfig.senderEmail != DefaultEmailConfig.supportEmail
  {
  }

  /** `getEmailConfig(websiteId)`: the brand entry for a known id, the default
      for a missing, empty or unknown one. */
  function GetEmailConfig(websiteId: Option<string>): (c: BrandEmailConfig)
    ensures !Truthy(websiteId) ==> c == DefaultEmailConfig
    ensures Truthy(websiteId) && websiteId.value in BrandEmailConfigs ==> c == BrandEmailConfigs[websiteId.value]
    ensures Truthy(websiteId) && websiteId.value !in BrandEmailConfigs ==> c == DefaultEmailConfig
  {
    if !Truthy(websiteId) then DefaultEmailConfig
    else if websiteId.value in BrandEmailConfigs then BrandEmailConfigs[websiteId.value]
    else DefaultEmailConfig
  }

  /** `r` reads "name <email>": the name, a space and an opening angle
      bracket, the address, and a closing angle bracket. */
  predicate IsFromAddress(r: string, name: string, email: string)
  {
    |r| == |name| + |email| + 3 &&
    r[..|name|] == name && r[|name|..|name| + 2] == " <" &&
    r[|name| + 2..|r| - 1] == email && r[|r| - 1] == '>'
  }

  lemma FromAddressLayout(name: string, email: string)
    ensures IsFromAddress(name + " <" + email + ">", name, email)
  {
    var r := name + " <" + email + ">";
    assert r[..|name|] == name;
    assert r[|name|..|name| + 2] == " <";
    assert r[|name| + 2..|r| - 1] == email;
  }

  /** `getFromAddress(websiteId, customName)`: "Name <email>". A non-empty
      custom name replaces the brand's sender name; the address is always
      the brand's sender e-mail. */
  function GetFromAddress(websiteId: Option<string>, customName: Option<string>): (r: string)
    ensures IsFromAddress(r, if Truthy(customName) then customName.value else GetEmailConfig(websiteId).senderName,
                          GetEmailConfig(websiteId).senderEmail)
  {
    var config := GetEmailConfig(websiteId);
    var name := OrElse(customName, config.senderName);
    FromAddressLayout(name, config.senderEmail);
    name + " <" + config.senderEmail + ">"
  }
}
