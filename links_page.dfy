/** The links editor: reservation, LINE and map URLs, the three footer
    switches, and the site's QR code and short URL. */
module LinksPage {
  import opened Common
  import opened Types
  import QrRoute

  /** `toggleCtaSetting(key)`: flips the named switch and nothing else. */
  function ToggleCta(s: CtaSettings, k: CtaKind): (r: CtaSettings)
    ensures r.order == s.order
    ensures r.showReservation == (if k == Reservation then !s.showReservation else s.showReservation)
    ensures r.showLine == (if k == Line then !s.showLine else s.showLine)
    ensures r.showPhone == (if k == Phone then !s.showPhone else s.showPhone)
  {
    match k
    case Reservation => s.(showReservation := !s.showReservation)
    case Line => s.(showLine := !s.showLine)
    case Phone => s.(showPhone := !s.showPhone)
  }

  /** Toggling a switch twice gives the settings back. */
  lemma ToggleCtaTwice(s: CtaSettings, k: CtaKind)
    ensures ToggleCta(ToggleCta(s, k), k) == s
  {
  }

  /** Toggles of different switches commute. */
  lemma ToggleCtaCommutes(s: CtaSettings, j: CtaKind, k: CtaKind)
    ensures ToggleCta(ToggleCta(s, j), k) == ToggleCta(ToggleCta(s, k), j)
  {
  }

  const SiteHost: string := ".pocketcms.jp"

  /** `https://${subdomain}.pocketcms.jp`. */
  function SiteUrl(subdomain: string): (url: string)
    ensures StartsWith(url, "https://")
    ensures |url| == 8 + |subdomain| + |SiteHost| && url[8..8 + |subdomain|] == subdomain
    ensures url[8 + |subdomain|..] == SiteHost
  {
    "https://" + subdomain + SiteHost
  }

  /** The site URL is never empty, so asking the QR route for it never
      fails with 400: it succeeds exactly when the library renders the URL,
      and the image is of that URL. */
  lemma SiteQrNeverBadRequest(subdomain: string, render: string -> Option<string>)
    ensures !QrRoute.Get(SiteUrl(subdomain), render).BadRequest?
    ensures QrRoute.Get(SiteUrl(subdomain), render).Ok? <==> render(SiteUrl(subdomain)).Some?
    ensures QrRoute.Get(SiteUrl(subdomain), render).Ok? ==> QrRoute.Get(SiteUrl(subdomain), render).data.url == SiteUrl(subdomain)
  {
  }

  /** What `handleSave` sends to `PUT /api/shops/<id>`. */
  datatype LinksUpdate = LinksUpdate(reservationUrl: string, lineUrl: string, googleMapUrl: string, ctaSettings: CtaSettings)

  class LinksEditor {
    var shop: Option<Shop>
    var reservationUrl: string
    var lineUrl: string
    var googleMapUrl: string
    var ctaSettings: CtaSettings
    var qrCode: Option<string>
    var shortUrl: Option<string>

    constructor()
      ensures shop.None? && reservationUrl == "" && lineUrl == "" && googleMapUrl == ""
      ensures ctaSettings == DefaultCtaSettings
      ensures qrCode.None? && shortUrl.None?
    {
      shop := None;
      reservationUrl, lineUrl, googleMapUrl := "", "", "";
      ctaSettings := DefaultCtaSettings;
      qrCode, shortUrl := None, None;
    }

    /** `fetchShop`, given the first shop of the listing: missing URLs load
        as "", and stored settings replace the current ones only when
        present. */
    method Load(first: Option<Shop>)
      modifies this`shop, this`reservationUrl, this`lineUrl, this`googleMapUrl, this`ctaSettings
      ensures first.None? ==> (shop == old(shop) && ctaSettings == old(ctaSettings) &&
        reservationUrl == old(reservationUrl) && lineUrl == old(lineUrl) && googleMapUrl == old(googleMapUrl))
      ensures first.Some? ==> shop == first
      ensures first.Some? ==> (reservationUrl == first.value.reservationUrl.GetOr("") &&
        lineUrl == first.value.lineUrl.GetOr("") && googleMapUrl == first.value.googleMapUrl.GetOr(""))
      ensures first.Some? ==> ctaSettings == first.value.ctaSettings.GetOr(old(ctaSettings))
    {
      if first.Some? {
        var s := first.value;
        shop := first;
        reservationUrl := s.reservationUrl.GetOr("");
        lineUrl := s.lineUrl.GetOr("");
        googleMapUrl := s.googleMapUrl.GetOr("");
        if s.ctaSettings.Some? {
          ctaSettings := s.ctaSettings.value;
        }
      }
    }

    /** `generateQrAndShortUrl`, given the two route answers: each is shown
        only when it succeeded. */
    method ShowLinks(qr: Response<QrRoute.QrImage>, short: Response<QrRoute.ShortLink>)
      modifies this`qrCode, this`shortUrl
      ensures qrCode == if qr.Ok? then Some(qr.data.qrCode) else old(qrCode)
      ensures shortUrl == if short.Ok? then Some(short.data.shortUrl) else old(shortUrl)
    {
      if qr.Ok? {
        qrCode := Some(qr.data.qrCode);
      }
      if short.Ok? {
        shortUrl := Some(short.data.shortUrl);
      }
    }

    method Toggle(k: CtaKind)
      modifies this`ctaSettings
      ensures ctaSettings == ToggleCta(old(ctaSettings), k)
    {
      ctaSettings := ToggleCta(ctaSettings, k);
    }

    /** `handleSave`: nothing without a shop; otherwise the shop's id and
        the three URLs and the switches. */
    method Save() returns (sent: Option<(string, LinksUpdate)>)
      ensures shop.None? <==> sent.None?
      ensures sent.Some? ==> sent.value == (shop.value.id, LinksUpdate(reservationUrl, lineUrl, googleMapUrl, ctaSettings))
    {
      if shop.None? {
        return None;
      }
      sent := Some((shop.value.id, LinksUpdate(reservationUrl, lineUrl, googleMapUrl, ctaSettings)));
    }

    /** A successful save shows the shop the route returned. */
    method Saved(resp: Response<Shop>)
      modifies this`shop
      ensures shop == if resp.Ok? then Some(resp.data) else old(shop)
    {
      if resp.Ok? {
        shop := Some(resp.data);
      }
    }
  }
}
