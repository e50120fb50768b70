/** The transport records the app exchanges with its server. The server is
    authoritative; the app holds copies of these in screen state only. */
module Records {
  import opened Common

  /** The item form's values as the add-item screen hands them to `addItem`.
      The price stays the text the vendor typed (see README: floats are not modelled). */
  datatype ItemData = ItemData(
    category: string,
    city: string,
    name: string,
    imageUrl: string,
    description: string,
    price: string)

  /** One entry of an item's price list. */
  datatype CityPrice = CityPrice(city: string, price: string)

  /** The record `addItem` posts to the server. */
  datatype FormattedItem = FormattedItem(
    name: string,
    description: string,
    prices: seq<CityPrice>,
    category: string,
    image: string,
    vendor: string)

  /** An item as the server lists it: its `_id` and the fields the list only displays. */
  datatype Item = Item(id: string, details: map<string, string>)

  /** A booking as the server lists it: its `_id`, its status, and the fields the
      booking tiles only display (amount, date, time slot, address). */
  datatype Booking = Booking(id: string, status: string, details: map<string, string>)

  function ItemId(i: Item): string { i.id }

  function BookingId(b: Booking): string { b.id }

  /** The decoded reply of the bookings endpoint. `pending` is `None` when the
      reply's `pending` member is missing or not an array. */
  datatype BookingsBody = BookingsBody(
    pending: Option<seq<Booking>>,
    confirmed: seq<Booking>,
    cancelled: seq<Booking>,
    hasNewBookings: bool)

  /** The two values the profile screen's radio buttons give `paymentMode`. */
  datatype PaymentMode = Upi | Bank

  /** The profile screen's form state. */
  datatype ProfileForm = ProfileForm(
    companyName: string,
    phone: string,
    address: string,
    location: string,
    paymentMode: PaymentMode,
    paymentDetails: string,
    accountNumber: string,
    ifscCode: string,
    accountHolderName: string)

  datatype BankDetails = BankDetails(accountNumber: string, ifscCode: string, accountHolderName: string)

  /** The profile payload: every form field, plus `upiId` and `bankDetails`
      (`None` standing for `null`). */
  datatype ProfilePayload = ProfilePayload(
    form: ProfileForm,
    upiId: Option<string>,
    bankDetails: Option<BankDetails>)

  /** The payment information of a payload as a tagged union: what the two
      nullable members mean when exactly one of them is set. */
  datatype PaymentInfo = UpiId(id: string) | BankAccount(details: BankDetails)
}
