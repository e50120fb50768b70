/** The bookings screen: three lists loaded once from the server, a tab that
    selects which one is shown, and the confirm action that moves a booking
    from the pending list to the end of the confirmed list. */
module BookingsScreen {
  import opened Common
  import opened Records
  import opened Lists
  import opened Session

  const ConfirmedStatus: string := "confirmed"
  const LoadFailed: string := "Failed to load bookings."

  datatype Tab = PendingTab | ConfirmedTab | CancelledTab

  /** The pending and confirmed lists after the server confirmed `id`: every
      booking with that id leaves pending, the others keep their order, and
      the first of them is appended to confirmed with its status overwritten. */
  function ConfirmMove(pending: seq<Booking>, confirmed: seq<Booking>, id: string)
    : (r: (seq<Booking>, seq<Booking>))
    ensures forall b :: b in r.0 <==> b in pending && b.id != id
    ensures r.0 == RemoveById(pending, BookingId, id)
    ensures (forall i :: 0 <= i < |pending| ==> pending[i].id != id) ==> r == (pending, confirmed)
    ensures (exists i :: 0 <= i < |pending| && pending[i].id == id) ==>
              && |r.1| == |confirmed| + 1
              && r.1[..|confirmed|] == confirmed
              && exists i :: 0 <= i < |pending| && pending[i].id == id
                             && (forall j :: 0 <= j < i ==> pending[j].id != id)
                             && r.1[|confirmed|] == pending[i].(status := ConfirmedStatus)
  {
    var newlyConfirmed := FindById(pending, BookingId, id);
    if newlyConfirmed.None? then
      RemoveAbsentId(pending, BookingId, id);
      (RemoveById(pending, BookingId, id), confirmed)
    else
      var moved := newlyConfirmed.value.(status := ConfirmedStatus);
      assert (confirmed + [moved])[..|confirmed|] == confirmed;
      (RemoveById(pending, BookingId, id), confirmed + [moved])
  }

  /** Confirming the same booking twice: the second move changes nothing. */
  lemma ConfirmTwice(pending: seq<Booking>, confirmed: seq<Booking>, id: string)
    ensures var r := ConfirmMove(pending, confirmed, id);
            ConfirmMove(r.0, r.1, id) == r
  {
    var r := ConfirmMove(pending, confirmed, id);
    assert forall i :: 0 <= i < |r.0| ==> r.0[i] in r.0;
  }

  /** With unique booking ids, confirming a pending booking moves exactly one
      booking: the two lists together hold as many bookings as before. */
  lemma ConfirmKeepsTotal(pending: seq<Booking>, confirmed: seq<Booking>, k: nat)
    requires UniqueIds(pending, BookingId) && k < |pending|
    ensures var r := ConfirmMove(pending, confirmed, pending[k].id);
            |r.0| + |r.1| == |pending| + |confirmed|
  {
    RemoveUniqueId(pending, BookingId, k);
  }

  /** The bookings screen's state. */
  class Bookings {
    var pending: seq<Booking>
    var confirmed: seq<Booking>
    var cancelled: seq<Booking>
    var selectedTab: Tab
    var loading: bool
    var error: string
    var hasNewBookings: bool

    constructor ()
      ensures pending == [] && confirmed == [] && cancelled == []
      ensures selectedTab == PendingTab && loading && error == "" && !hasNewBookings
    {
      pending, confirmed, cancelled := [], [], [];
      selectedTab, loading, error, hasNewBookings := PendingTab, true, "", false;
    }

    /** `loadBookings`: takes the three lists only from a reply whose `pending`
        is an array, sets the error otherwise, and always clears `loading`. */
    method LoadBookings(storage: Storage, reply: Reply<BookingsBody>) returns (effects: seq<Effect>)
      modifies this
      ensures effects == FetchBookings(storage.items, reply).effects
      ensures !loading && selectedTab == old(selectedTab)
      ensures var r := FetchBookings(storage.items, reply).result;
              if r.Success? && r.value.data.pending.Some? then
                && pending == r.value.data.pending.value
                && confirmed == r.value.data.confirmed
                && cancelled == r.value.data.cancelled
                && hasNewBookings == r.value.data.hasNewBookings
                && error == old(error)
              else
                && pending == old(pending) && confirmed == old(confirmed) && cancelled == old(cancelled)
                && hasNewBookings == old(hasNewBookings)
                && error == LoadFailed
    {
      var c := FetchBookings(storage.items, reply);
      effects := c.effects;
      if c.result.Success? && c.result.value.data.pending.Some? {
        var data := c.result.value.data;
        pending := data.pending.value;
        confirmed := data.confirmed;
        cancelled := data.cancelled;
        hasNewBookings := data.hasNewBookings;
      } else {
        error := LoadFailed;
      }
      loading := false;
    }

    /** `handleConfirm`: once the server confirmed the booking, move it; when
        the server call fails, change nothing. The cancelled list is never touched. */
    method HandleConfirm(storage: Storage, bookingId: string, reply: Reply<Booking>) returns (effects: seq<Effect>)
      modifies this
      ensures effects == ConfirmBooking(storage.items, bookingId, reply).effects
      ensures (pending, confirmed) ==
                if ConfirmBooking(storage.items, bookingId, reply).result.Success?
                then ConfirmMove(old(pending), old(confirmed), bookingId)
                else (old(pending), old(confirmed))
      ensures cancelled == old(cancelled) && selectedTab == old(selectedTab)
      ensures loading == old(loading) && error == old(error) && hasNewBookings == old(hasNewBookings)
    {
      var c := ConfirmBooking(storage.items, bookingId, reply);
      effects := c.effects;
      if c.result.Success? {
        var newlyConfirmed := FindById(pending, BookingId, bookingId);
        pending := RemoveById(pending, BookingId, bookingId);
        if newlyConfirmed.Some? {
          confirmed := confirmed + [newlyConfirmed.value.(status := ConfirmedStatus)];
        }
      }
    }

    /** A tab press. */
    method SelectTab(tab: Tab)
      modifies this
      ensures selectedTab == tab
      ensures pending == old(pending) && confirmed == old(confirmed) && cancelled == old(cancelled)
      ensures loading == old(loading) && error == old(error) && hasNewBookings == old(hasNewBookings)
    {
      selectedTab := tab;
    }

    /** `filteredBookings`: exactly the list of the selected tab. */
    function FilteredBookings(): (r: seq<Booking>)
      reads this
      ensures selectedTab == PendingTab ==> r == pending
      ensures selectedTab == ConfirmedTab ==> r == confirmed
      ensures selectedTab == CancelledTab ==> r == cancelled
    {
      match selectedTab
      case PendingTab => pending
      case ConfirmedTab => confirmed
      case CancelledTab => cancelled
    }
  }
}
