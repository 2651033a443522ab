/** The onboarding wizard: four steps (business type, basic information,
    reservation channels, design), then a `POST /api/shops`. */
module OnboardingPage {
  import opened Common
  import opened Types
  import ShopsRoute
  import PublicSite

  const LastStep: int := 3

  /** What `handleSubmit` sends. A URL the chosen method does not use is
      sent as `null` (None). */
  datatype ShopPayload = ShopPayload(
    name: string,
    businessType: string,
    phone: string,
    address: string,
    reservationUrl: Option<string>,
    lineUrl: Option<string>,
    brandColor: string,
    template: string)

  /** `reservationMethod === 'url' || reservationMethod === 'all'`. */
  predicate SendsReservationUrl(channel: string) { channel == "url" || channel == "all" }

  /** `reservationMethod === 'line' || reservationMethod === 'all'`. */
  predicate SendsLineUrl(channel: string) { channel == "line" || channel == "all" }

  /** `canProceed()` for a step and the fields it needs. */
  function CanProceedAt(step: int, businessType: string, shopName: string, phone: string, address: string): (ok: bool)
    ensures step == 0 ==> (ok <==> businessType != "")
    ensures step == 1 ==> (ok <==> shopName != "" && phone != "" && address != "")
    ensures step == 2 || step == 3 ==> ok
    ensures step < 0 || step > 3 ==> !ok
  {
    match step
    case 0 => businessType != ""
    case 1 => shopName != "" && phone != "" && address != ""
    case 2 => true
    case 3 => true
    case _ => false
  }

  /** The body the shop route receives: `null` reads as absent. */
  function AsShopBody(p: ShopPayload): (b: ShopsRoute.ShopBody)
    ensures b.name == Some(p.name)
    ensures b.reservationUrl == p.reservationUrl.GetOr("") && b.lineUrl == p.lineUrl.GetOr("")
  {
    ShopsRoute.ShopBody(Some(p.name), p.businessType, p.phone, p.address,
      p.reservationUrl.GetOr(""), p.lineUrl.GetOr(""), p.brandColor)
  }

  class Wizard {
    var step: int
    var businessType: string
    var shopName: string
    var phone: string
    var address: string
    var reservationMethod: string
    var reservationUrl: string
    var lineUrl: string
    var template: string
    var brandColor: string

    ghost predicate Valid()
      reads this
    {
      0 <= step <= LastStep
    }

    constructor()
      ensures Valid() && step == 0
      ensures businessType == "" && shopName == "" && phone == "" && address == ""
      ensures reservationMethod == "all" && reservationUrl == "" && lineUrl == ""
      ensures template == "beauty" && brandColor == "#0ea5e9"
    {
      step := 0;
      businessType, shopName, phone, address := "", "", "", "";
      reservationMethod, reservationUrl, lineUrl := "all", "", "";
      template, brandColor := "beauty", "#0ea5e9";
    }

    function CanProceed(): bool
      reads this
    {
      CanProceedAt(step, businessType, shopName, phone, address)
    }

    /** The body `handleSubmit` posts. */
    function Payload(): (p: ShopPayload)
      reads this
      ensures p.reservationUrl == (if SendsReservationUrl(reservationMethod) then Some(reservationUrl) else None)
      ensures p.lineUrl == (if SendsLineUrl(reservationMethod) then Some(lineUrl) else None)
      ensures p.name == shopName && p.phone == phone && p.address == address
      ensures p.businessType == businessType && p.brandColor == brandColor && p.template == template
    {
      ShopPayload(shopName, businessType, phone, address,
        if SendsReservationUrl(reservationMethod) then Some(reservationUrl) else None,
        if SendsLineUrl(reservationMethod) then Some(lineUrl) else None,
        brandColor, template)
    }

    /** `handleNext`: advances below the last step; on the last step it
        submits (the returned payload) and stays. */
    method Next() returns (submitted: Option<ShopPayload>)
      requires Valid()
      modifies this`step
      ensures Valid()
      ensures old(step) < LastStep ==> step == old(step) + 1 && submitted.None?
      ensures old(step) == LastStep ==> step == old(step) && submitted == Some(Payload())
    {
      if step < LastStep {
        step := step + 1;
        submitted := None;
      } else {
        submitted := Some(Payload());
      }
    }

    /** `handleBack`: steps back unless on the first step. */
    method Back()
      requires Valid()
      modifies this`step
      ensures Valid()
      ensures step == if old(step) > 0 then old(step) - 1 else old(step)
    {
      if step > 0 {
        step := step - 1;
      }
    }

    /** The next button: disabled (nothing happens) while `canProceed()` is
        false. */
    method PressNext() returns (submitted: Option<ShopPayload>)
      requires Valid()
      modifies this`step
      ensures Valid()
      ensures !old(CanProceed()) ==> step == old(step) && submitted.None?
      ensures old(CanProceed()) && old(step) < LastStep ==> step == old(step) + 1 && submitted.None?
      ensures old(CanProceed()) && old(step) == LastStep ==> step == old(step) && submitted == Some(Payload())
    {
      if !CanProceed() {
        return None;
      }
      submitted := Next();
    }
  }

  /** A shop created from a phone-only onboarding shows only the phone
      button: neither URL is sent, so neither is stored. */
  lemma PhoneOnlyShowsOnlyPhone(p: ShopPayload, rows: seq<ShopsRoute.ShopRow>, newId: string, randomText: string, now: int)
    requires p.reservationUrl.None? && p.lineUrl.None?
    requires ShopsRoute.Create(rows, AsShopBody(p), newId, randomText, now).1.Ok?
    ensures var shop := ShopsRoute.Create(rows, AsShopBody(p), newId, randomText, now).1.data;
      var b := PublicSite.FooterButtons(shop);
      !PublicSite.Shows(b, Reservation) && !PublicSite.Shows(b, Line) &&
      (PublicSite.Shows(b, Phone) <==> p.phone != "")
  {
    ShopsRoute.CreatedShopShowsConfiguredButtons(rows, AsShopBody(p), newId, randomText, now);
  }
}
