/**
 * The unlock dialog's choice of wording by price tier, and its guard on
 * being open. Icons, colours and the WhatsApp hand-off are not modelled.
 */
module UnlockModal {
  import opened Wrappers

  const LUXURY_FROM := 1500000.0
  const ECONOMY_UP_TO := 500000.0

  datatype Tier = Luxury | Economy | Standard

  /** The dialog's title and button text, and whether the button shows a lock. */
  datatype ModalConfig = ModalConfig(tier: Tier, title: string, buttonText: string, lockIcon: bool)

  predicate IsLuxury(price: real)
  {
    price >= LUXURY_FROM
  }

  predicate IsEconomy(price: real)
  {
    price <= ECONOMY_UP_TO
  }

  /** `getModalConfig`: luxury first, then economy, else standard. */
  function GetModalConfig(price: real): (c: ModalConfig)
  {
    if IsLuxury(price) then ModalConfig(Luxury, "Acesso Private", "Solicitar Acesso VIP", true)
    else if IsEconomy(price) then ModalConfig(Economy, "Oportunidade Única", "Ver Parcelas e Descontos", false)
    else ModalConfig(Standard, "Desbloquear Detalhes", "Falar com Corretor", false)
  }

  /** Each price falls in exactly one tier: at least 1,500,000, at most 500,000, or strictly between. */
  lemma TierOfPrice(price: real)
    ensures GetModalConfig(price).tier == Luxury <==> price >= 1500000.0
    ensures GetModalConfig(price).tier == Economy <==> price <= 500000.0
    ensures GetModalConfig(price).tier == Standard <==> 500000.0 < price < 1500000.0
  {
  }

  /** The wording of each tier, and the lock icon only on the luxury one. */
  lemma TierWording(price: real)
    ensures var c := GetModalConfig(price);
      && (c.tier == Luxury ==> c.title == "Acesso Private" && c.buttonText == "Solicitar Acesso VIP")
      && (c.tier == Economy ==> c.title == "Oportunidade Única" && c.buttonText == "Ver Parcelas e Descontos")
      && (c.tier == Standard ==> c.title == "Desbloquear Detalhes" && c.buttonText == "Falar com Corretor")
      && (c.lockIcon <==> c.tier == Luxury)
  {
  }

  /** What the dialog renders: nothing while closed, else its configuration. */
  function Render(isOpen: bool, price: real): (r: Option<ModalConfig>)
    ensures r.None? <==> !isOpen
    ensures r.Some? ==> r.value == GetModalConfig(price)
  {
    if !isOpen then None else Some(GetModalConfig(price))
  }
}
