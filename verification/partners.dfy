/**
 * The partner registry: the fixed table of partners A and B, each with an optional
 * API key read from the environment at start-up, and the rule that decides whether a
 * request's key is accepted. The table is never written after construction, so the
 * registry is a set of pure lookups over the configuration.
 */
module Partners {
  import opened Wrappers
  import opened Types

  datatype Partner = Partner(id: string, apiKey: Option<string>, name: string)

  /** The environment: PARTNER_A_API_KEY and PARTNER_B_API_KEY, each possibly unset. */
  datatype PartnerConfig = PartnerConfig(aApiKey: Option<string>, bApiKey: Option<string>)

  function PartnerA(config: PartnerConfig): Partner
  {
    Partner("A", config.aApiKey, "Partner A")
  }

  function PartnerB(config: PartnerConfig): Partner
  {
    Partner("B", config.bApiKey, "Partner B")
  }

  /** The `partners` map. */
  function Table(config: PartnerConfig): map<string, Partner>
  {
    map["A" := PartnerA(config), "B" := PartnerB(config)]
  }

  /** getPartner. */
  function GetPartner(config: PartnerConfig, partnerId: string): (p: Option<Partner>)
    ensures p.Some? <==> partnerId == "A" || partnerId == "B"
    ensures p.Some? ==> p.value.id == partnerId
    ensures partnerId == "A" ==> p == Some(PartnerA(config))
    ensures partnerId == "B" ==> p == Some(PartnerB(config))
  {
    var table := Table(config);
    if partnerId in table then Some(table[partnerId]) else None
  }

  /** partnerExists. */
  function PartnerExists(config: PartnerConfig, partnerId: string): (b: bool)
    ensures b <==> partnerId == "A" || partnerId == "B"
  {
    partnerId in Table(config)
  }

  /** The API key configured for an existing partner. */
  function ConfiguredKey(config: PartnerConfig, partnerId: string): Option<string>
  {
    match GetPartner(config, partnerId)
    case Some(p) => p.apiKey
    case None => None
  }

  /** validateApiKey: an unknown partner is refused; a partner without a key is open; otherwise the keys must match exactly. */
  function ValidateApiKey(config: PartnerConfig, partnerId: string, providedApiKey: Option<string>): (ok: bool)
    ensures !PartnerExists(config, partnerId) ==> !ok
    ensures PartnerExists(config, partnerId) && !Present(ConfiguredKey(config, partnerId)) ==> ok
    ensures PartnerExists(config, partnerId) && Present(ConfiguredKey(config, partnerId)) ==>
              (ok <==> Present(providedApiKey) && providedApiKey == ConfiguredKey(config, partnerId))
  {
    match GetPartner(config, partnerId)
    case None => false
    case Some(partner) =>
      if !Present(partner.apiKey) then true
      else if !Present(providedApiKey) then false
      else partner.apiKey.value == providedApiKey.value
  }

  /** requiresApiKey. */
  function RequiresApiKey(config: PartnerConfig, partnerId: string): (b: bool)
    ensures b <==> PartnerExists(config, partnerId) && Present(ConfiguredKey(config, partnerId))
  {
    match GetPartner(config, partnerId)
    case Some(partner) => Present(partner.apiKey)
    case None => false
  }

  /** getAllPartners: the values of the table, A then B. */
  function GetAllPartners(config: PartnerConfig): (ps: seq<Partner>)
    ensures |ps| == 2 && ps[0].id == "A" && ps[1].id == "B"
    ensures forall i :: 0 <= i < |ps| ==> GetPartner(config, ps[i].id) == Some(ps[i])
  {
    [Table(config)["A"], Table(config)["B"]]
  }

  /** For an existing partner, a key is required exactly when a request without one is refused. */
  lemma RequiresKeyIffKeylessRefused(config: PartnerConfig, partnerId: string)
    requires PartnerExists(config, partnerId)
    ensures RequiresApiKey(config, partnerId) <==> !ValidateApiKey(config, partnerId, None)
  {
  }

  /** A partner that requires a key accepts its own configured key and nothing else. */
  lemma OnlyTheConfiguredKeyIsAccepted(config: PartnerConfig, partnerId: string, provided: string)
    requires RequiresApiKey(config, partnerId)
    ensures ValidateApiKey(config, partnerId, Some(provided)) <==> Some(provided) == ConfiguredKey(config, partnerId)
  {
  }
}
