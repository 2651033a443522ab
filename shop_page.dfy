/** The shop-information editor: name, phone, address, the weekly business
    hours, and payment methods and parking (which are never saved). */
module ShopPage {
  import opened Common
  import opened Types

  const DaysInWeek: nat := 7

  /** `defaultBusinessHours`: Sunday (0) to Saturday (6), open Monday to
      Saturday, 10:00 to 20:00 every day. */
  function DefaultBusinessHours(): (hours: seq<BusinessHour>)
    ensures |hours| == DaysInWeek
    ensures forall i :: 0 <= i < |hours| ==> hours[i].dayOfWeek == i
    ensures forall i :: 0 <= i < |hours| ==> (hours[i].isOpen <==> 1 <= i <= 6)
    ensures forall i :: 0 <= i < |hours| ==> hours[i].openTime == "10:00" && hours[i].closeTime == "20:00"
  {
    seq(DaysInWeek, i requires 0 <= i < DaysInWeek => BusinessHour(i, 1 <= i <= 6, "10:00", "20:00"))
  }

  /** The edits the hour rows make: the open checkbox and the two times. */
  datatype HourEdit = SetOpen(isOpen: bool) | SetOpenTime(openTime: string) | SetCloseTime(closeTime: string)

  /** `{ ...hour, [field]: value }`. */
  function ApplyEdit(h: BusinessHour, e: HourEdit): (r: BusinessHour)
    ensures r.dayOfWeek == h.dayOfWeek
    ensures r.isOpen == (if e.SetOpen? then e.isOpen else h.isOpen)
    ensures r.openTime == (if e.SetOpenTime? then e.openTime else h.openTime)
    ensures r.closeTime == (if e.SetCloseTime? then e.closeTime else h.closeTime)
  {
    match e
    case SetOpen(v) => h.(isOpen := v)
    case SetOpenTime(v) => h.(openTime := v)
    case SetCloseTime(v) => h.(closeTime := v)
  }

  /** Each entry is the day its position says. */
  predicate DayIndexed(hours: seq<BusinessHour>) {
    forall i :: 0 <= i < |hours| ==> hours[i].dayOfWeek == i
  }

  /** What `handleSave` sends to `PUT /api/shops/<id>`. */
  datatype ShopUpdate = ShopUpdate(name: string, phone: string, address: string, businessHours: seq<BusinessHour>)

  class ShopEditor {
    var shop: Option<Shop>
    var name: string
    var phone: string
    var address: string
    var businessHours: seq<BusinessHour>
    var selectedPayments: seq<string>
    var parking: string

    ghost predicate Valid()
      reads this
    {
      NoDup(selectedPayments)
    }

    constructor()
      ensures Valid()
      ensures shop.None? && name == "" && phone == "" && address == ""
      ensures businessHours == DefaultBusinessHours() && selectedPayments == [] && parking == ""
    {
      shop := None;
      name, phone, address := "", "", "";
      businessHours := DefaultBusinessHours();
      selectedPayments, parking := [], "";
    }

    /** `fetchShop`, given the first shop of the listing (if any): the form
        takes its fields, and its hours only when it has some. */
    method Load(first: Option<Shop>)
      modifies this`shop, this`name, this`phone, this`address, this`businessHours
      ensures first.None? ==> (shop == old(shop) && name == old(name) && phone == old(phone) &&
        address == old(address) && businessHours == old(businessHours))
      ensures first.Some? ==> (shop == first && name == first.value.name && phone == first.value.phone &&
        address == first.value.address)
      ensures first.Some? && |first.value.businessHours| > 0 ==> businessHours == first.value.businessHours
      ensures first.Some? && |first.value.businessHours| == 0 ==> businessHours == old(businessHours)
    {
      if first.Some? {
        var s := first.value;
        shop := first;
        name, phone, address := s.name, s.phone, s.address;
        if |s.businessHours| > 0 {
          businessHours := s.businessHours;
        }
      }
    }

    /** `updateBusinessHour(index, field, value)`: copies the list into a
        fresh array, replaces the entry at `index`, and stores the copy. */
    method UpdateBusinessHour(index: nat, e: HourEdit)
      requires index < |businessHours|
      modifies this`businessHours
      ensures |businessHours| == |old(businessHours)|
      ensures businessHours[index] == ApplyEdit(old(businessHours)[index], e)
      ensures forall i :: 0 <= i < |businessHours| && i != index ==> businessHours[i] == old(businessHours)[i]
      ensures DayIndexed(old(businessHours)) ==> DayIndexed(businessHours)
    {
      var hours := businessHours;
      var updated := new BusinessHour[|hours|](i requires 0 <= i < |hours| => hours[i]);
      updated[index] := ApplyEdit(updated[index], e);
      businessHours := updated[..];
    }

    /** `togglePayment(method)`. */
    method TogglePayment(payment: string)
      requires Valid()
      modifies this`selectedPayments
      ensures Valid()
      ensures selectedPayments == ToggleMember(old(selectedPayments), payment)
    {
      ToggleKeepsNoDup(selectedPayments, payment);
      selectedPayments := ToggleMember(selectedPayments, payment);
    }

    /** `handleSave`: nothing without a loaded shop; otherwise the shop's id
        and the four saved fields. Payments and parking are not sent. */
    method Save() returns (sent: Option<(string, ShopUpdate)>)
      ensures shop.None? <==> sent.None?
      ensures sent.Some? ==> sent.value == (shop.value.id, ShopUpdate(name, phone, address, businessHours))
    {
      if shop.None? {
        return None;
      }
      sent := Some((shop.value.id, ShopUpdate(name, phone, address, businessHours)));
    }
  }

  /** Editing the default week keeps seven day-indexed entries, and leaves
      every other day as it was. */
  lemma EditedDefaultsStayAWeek(index: nat, e: HourEdit)
    requires index < DaysInWeek
    ensures var hours := DefaultBusinessHours()[index := ApplyEdit(DefaultBusinessHours()[index], e)];
      |hours| == DaysInWeek && DayIndexed(hours) &&
      forall i :: 0 <= i < DaysInWeek && i != index ==> hours[i] == DefaultBusinessHours()[i]
  {
  }

  /** Sunday is the only day the defaults close. */
  lemma DefaultsCloseOnlySunday()
    ensures forall i :: 0 <= i < DaysInWeek ==> (!DefaultBusinessHours()[i].isOpen <==> i == 0)
  {
  }
}
