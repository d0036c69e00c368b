/**
 * The booking wizard store: one draft (`currentBooking`), a step counter
 * (`bookingStep`) and the append-only list of committed `bookings`.
 * Timestamps are integer milliseconds; the uuid, the clock and the random
 * numbers the source draws are passed in as parameters.
 */
module Bookings {
  import opened Common

  datatype Traveler = Traveler(id: string, name: string, age: string, isPrimary: bool)

  /**
   * The draft's `travelers` field has two shapes in the source: the empty
   * list `startBooking` puts there, and the `{travelers, specialRequests}`
   * object the traveler screen hands to `setTravelers`.
   */
  datatype Travelers =
    | List(items: seq<Traveler>)
    | Payload(travelers: seq<Traveler>, specialRequests: string)

  datatype TravelDates = TravelDates(startDate: int, endDate: int)

  datatype Status = Draft | Confirmed | Cancelled

  /** `None` stands for `null` and for a field the record does not carry yet. */
  datatype Booking = Booking(
    id: string,
    tourId: string,
    travelDates: Option<TravelDates>,
    travelers: Travelers,
    totalPrice: int,
    paymentMethod: Option<string>,
    status: Status,
    createdAt: int,
    confirmationCode: Option<string>,
    confirmedAt: Option<int>,
    cancelledAt: Option<int>)

  /** The record `startBooking` installs. */
  function NewDraft(id: string, tourId: string, now: int): Booking
  {
    Booking(id, tourId, None, List([]), 0, None, Draft, now, None, None, None)
  }

  // ---------------------------------------------------------------------
  // Confirmation codes: "ROME-" and four characters of A-Z0-9
  // ---------------------------------------------------------------------

  const CodePrefix: string := "ROME-"

  /** The k-th character of "ABCDEFGHIJKLMNOPQRSTUVWXYZ0123456789". */
  function AlphabetChar(k: nat): char
    requires k < 36
  {
    if k < 26 then ('A' as int + k) as char else ('0' as int + k - 26) as char
  }

  function Alphabet(): (s: string)
    ensures |s| == 36
    ensures forall k :: 0 <= k < 36 ==> s[k] == AlphabetChar(k)
  {
    seq(36, k requires 0 <= k < 36 => AlphabetChar(k))
  }

  /** `characters`: the upper-case letters, then the digits. */
  const CodeAlphabet: string := Alphabet()
  const CodeLength: nat := 4

  /** Values `Math.random()` can return. */
  predicate AreRandomValues(randoms: seq<real>)
  {
    forall k :: 0 <= k < |randoms| ==> 0.0 <= randoms[k] < 1.0
  }

  /** `Math.floor(r * characters.length)`, always a valid alphabet index. */
  function AlphabetIndex(r: real): (i: nat)
    requires 0.0 <= r < 1.0
    ensures i < |CodeAlphabet|
  {
    (r * |CodeAlphabet| as real).Floor
  }

  predicate IsCodeChar(c: char)
  {
    'A' <= c <= 'Z' || '0' <= c <= '9'
  }

  /** The alphabet is exactly the upper-case letters and the digits. */
  lemma AlphabetIsCodeChars(c: char)
    ensures c in CodeAlphabet <==> IsCodeChar(c)
  {
    if IsCodeChar(c) {
      var k := if 'A' <= c <= 'Z' then c as int - 'A' as int else c as int - '0' as int + 26;
      assert CodeAlphabet[k] == c;
    }
  }

  lemma AlphabetEnds()
    ensures |CodeAlphabet| == 36
    ensures CodeAlphabet[0] == 'A' && CodeAlphabet[25] == 'Z'
    ensures CodeAlphabet[26] == '0' && CodeAlphabet[35] == '9'
  {
  }

  predicate IsConfirmationCode(code: string)
  {
    && |code| == |CodePrefix| + CodeLength
    && code[..|CodePrefix|] == CodePrefix
    && forall i :: |CodePrefix| <= i < |code| ==> code[i] in CodeAlphabet
  }

  /** The code the four random draws pick, one alphabet index per draw. */
  function CodeFor(indices: seq<nat>): (code: string)
    requires |indices| == CodeLength
    requires forall k :: 0 <= k < CodeLength ==> indices[k] < |CodeAlphabet|
  {
    CodePrefix + seq(CodeLength, k requires 0 <= k < CodeLength => CodeAlphabet[indices[k]])
  }

  /** The alphabet indices the random values select. */
  function IndicesOf(randoms: seq<real>): (indices: seq<nat>)
    requires AreRandomValues(randoms)
    ensures |indices| == |randoms|
    ensures forall k :: 0 <= k < |randoms| ==> indices[k] < |CodeAlphabet|
  {
    seq(|randoms|, k requires 0 <= k < |randoms| => AlphabetIndex(randoms[k]))
  }

  /**
   * `generateConfirmationCode`, with the values of `Math.random()` as input:
   * the code is well formed and its k-th character is the one the k-th draw
   * selects.
   */
  method GenerateConfirmationCode(randoms: seq<real>) returns (code: string)
    requires |randoms| == CodeLength && AreRandomValues(randoms)
    ensures IsConfirmationCode(code)
    ensures code == CodeFor(IndicesOf(randoms))
  {
    code := CodePrefix;
    for i := 0 to CodeLength
      invariant |code| == |CodePrefix| + i
      invariant code[..|CodePrefix|] == CodePrefix
      invariant forall k :: 0 <= k < i ==> code[|CodePrefix| + k] == CodeAlphabet[AlphabetIndex(randoms[k])]
    {
      code := code + [CodeAlphabet[AlphabetIndex(randoms[i])]];
    }
    assert code == CodeFor(IndicesOf(randoms));
    CodeForIsWellFormed(IndicesOf(randoms));
  }

  /** Every code the draws can produce is well formed. */
  lemma CodeForIsWellFormed(indices: seq<nat>)
    requires |indices| == CodeLength
    requires forall k :: 0 <= k < CodeLength ==> indices[k] < |CodeAlphabet|
    ensures IsConfirmationCode(CodeFor(indices))
  {
    var code := CodeFor(indices);
    assert code[..|CodePrefix|] == CodePrefix;
    forall i | |CodePrefix| <= i < |code| ensures code[i] in CodeAlphabet {
      assert code[i] == CodeAlphabet[indices[i - |CodePrefix|]];
    }
  }

  /** Distinct draws give distinct codes: the generator is one-to-one. */
  lemma CodeForInjective(a: seq<nat>, b: seq<nat>)
    requires |a| == CodeLength && |b| == CodeLength
    requires forall k :: 0 <= k < CodeLength ==> a[k] < |CodeAlphabet| && b[k] < |CodeAlphabet|
    requires CodeFor(a) == CodeFor(b)
    ensures a == b
  {
    forall k | 0 <= k < CodeLength ensures a[k] == b[k] {
      assert CodeFor(a)[|CodePrefix| + k] == CodeFor(b)[|CodePrefix| + k];
      AlphabetHasNoDuplicates();
    }
  }

  lemma AlphabetHasNoDuplicates()
    ensures NoDuplicates(CodeAlphabet)
  {
    forall i, j | 0 <= i < j < |CodeAlphabet| ensures CodeAlphabet[i] != CodeAlphabet[j] {
      assert CodeAlphabet[i] == AlphabetChar(i) && CodeAlphabet[j] == AlphabetChar(j);
    }
  }

  /** Every well-formed code is produced by some draws: all 36^4 codes can occur. */
  lemma {:induction false} EveryCodeIsReachable(code: string)
    requires IsConfirmationCode(code)
    ensures exists indices: seq<nat> ::
      |indices| == CodeLength
      && (forall k :: 0 <= k < CodeLength ==> indices[k] < |CodeAlphabet|)
      && CodeFor(indices) == code
  {
    var picks := seq(CodeLength, k requires 0 <= k < CodeLength => IndexInAlphabet(code[|CodePrefix| + k]));
    forall k | 0 <= k < |picks|
      ensures 0 <= picks[k] < |CodeAlphabet| && CodeAlphabet[picks[k]] == code[|CodePrefix| + k]
    {
      assert code[|CodePrefix| + k] in CodeAlphabet;
      assert picks[k] == IndexInAlphabet(code[|CodePrefix| + k]);
    }
    var indices: seq<nat> := picks;
    assert CodeFor(indices) == code;
  }

  /** Where a character sits in the alphabet. */
  function IndexInAlphabet(c: char): (i: nat)
    requires c in CodeAlphabet
    ensures i < |CodeAlphabet| && CodeAlphabet[i] == c
  {
    AlphabetIsCodeChars(c);
    var i := if 'A' <= c <= 'Z' then c as int - 'A' as int else c as int - '0' as int + 26;
    assert CodeAlphabet[i] == AlphabetChar(i);
    i
  }

  // ---------------------------------------------------------------------
  // Total price
  // ---------------------------------------------------------------------

  /** A JavaScript number: an integer here, or NaN. */
  datatype JsNumber = Num(n: int) | NaN

  /**
   * `calculateTotal` as written: `tourPrice * travelers.length`. The payload
   * object has no `length`, so the product is `tourPrice * undefined`, NaN.
   */
  function TotalAsWritten(tourPrice: int, travelers: Travelers): (r: JsNumber)
    ensures r.NaN? <==> travelers.Payload?
    ensures r.Num? ==> r.n == tourPrice * TravelerCount(travelers)
  {
    match travelers
    case List(items) => Num(tourPrice * |items|)
    case Payload(_, _) => NaN
  }

  /** The number of travelers, counted in either shape of the field. */
  function TravelerCount(travelers: Travelers): (n: nat)
  {
    match travelers
    case List(items) => |items|
    case Payload(ts, _) => |ts|
  }

  /** On the list shape, the corrected total is the one the source computes. */
  lemma CorrectedTotalAgreesOnLists(tourPrice: int, items: seq<Traveler>)
    ensures TotalAsWritten(tourPrice, List(items)) == Num(tourPrice * TravelerCount(List(items)))
    ensures TravelerCount(List([])) == 0
  {
  }

  /**
   * The end-to-end flow: a fresh draft, then the traveler screen's payload
   * with one traveler, then `calculateTotal(1200)`. As written the total is
   * NaN; one traveler at 1200 should cost 1200.
   */
  lemma PayloadTotalIsNaN(bookingId: string, now: int, marcus: Traveler)
    ensures var draft := NewDraft(bookingId, "egypt-1", now).(travelers := Payload([marcus], ""));
      && TotalAsWritten(1200, draft.travelers) == NaN
      && 1200 * TravelerCount(draft.travelers) == 1200
  {
  }

  // ---------------------------------------------------------------------
  // Queries over the committed list
  // ---------------------------------------------------------------------

  predicate IsConfirmed(b: Booking)
  {
    b.status == Confirmed
  }

  /** The active/history filters read `travelDates.endDate` of every confirmed record. */
  predicate ConfirmedHaveDates(bookings: seq<Booking>)
  {
    forall i :: 0 <= i < |bookings| ==> IsConfirmed(bookings[i]) ==> bookings[i].travelDates.Some?
  }

  predicate IsActive(b: Booking, now: int)
  {
    IsConfirmed(b) && b.travelDates.Some? && b.travelDates.value.endDate >= now
  }

  predicate IsPast(b: Booking, now: int)
  {
    IsConfirmed(b) && b.travelDates.Some? && b.travelDates.value.endDate < now
  }

  function ActivePredicate(now: int): Booking -> bool
  {
    (b: Booking) => IsActive(b, now)
  }

  function PastPredicate(now: int): Booking -> bool
  {
    (b: Booking) => IsPast(b, now)
  }

  /** `getActiveBookings`: confirmed records whose travel has not ended by `now`. */
  function ActiveBookings(bookings: seq<Booking>, now: int): (r: seq<Booking>)
    requires ConfirmedHaveDates(bookings)
    ensures forall b :: b in r <==> b in bookings && IsConfirmed(b) && b.travelDates.value.endDate >= now
    ensures IsSubsequence(r, bookings)
    ensures forall b :: multiset(r)[b] == if IsActive(b, now) then multiset(bookings)[b] else 0
  {
    FilterCounts(bookings, ActivePredicate(now));
    Filter(bookings, ActivePredicate(now))
  }

  /** `getBookingHistory`: confirmed records whose travel ended before `now`. */
  function BookingHistory(bookings: seq<Booking>, now: int): (r: seq<Booking>)
    requires ConfirmedHaveDates(bookings)
    ensures forall b :: b in r <==> b in bookings && IsConfirmed(b) && b.travelDates.value.endDate < now
    ensures IsSubsequence(r, bookings)
    ensures forall b :: multiset(r)[b] == if IsPast(b, now) then multiset(bookings)[b] else 0
  {
    FilterCounts(bookings, PastPredicate(now));
    Filter(bookings, PastPredicate(now))
  }

  /**
   * For one `now`, active and history split the confirmed records between
   * them, each record (counted with multiplicity) landing in exactly one;
   * drafts and cancelled records are in neither.
   */
  lemma ActiveAndHistoryPartitionConfirmed(bookings: seq<Booking>, now: int)
    requires ConfirmedHaveDates(bookings)
    ensures multiset(ActiveBookings(bookings, now)) + multiset(BookingHistory(bookings, now))
         == multiset(Filter(bookings, IsConfirmed))
    ensures forall b :: b in ActiveBookings(bookings, now) ==> b !in BookingHistory(bookings, now)
    ensures forall b :: b in bookings && !IsConfirmed(b) ==>
      b !in ActiveBookings(bookings, now) && b !in BookingHistory(bookings, now)
  {
    FilterSplit(bookings, ActivePredicate(now), PastPredicate(now), IsConfirmed);
  }

  function HasId(id: string): Booking -> bool
  {
    (b: Booking) => b.id == id
  }

  /** `getBookingById`: the first record with that id, if any. */
  function BookingById(bookings: seq<Booking>, id: string): (r: Option<Booking>)
    ensures r.None? <==> forall i :: 0 <= i < |bookings| ==> bookings[i].id != id
    ensures r.Some? ==> exists i :: (0 <= i < |bookings| && bookings[i] == r.value && r.value.id == id
      && forall j :: 0 <= j < i ==> bookings[j].id != id)
  {
    var r := Find(bookings, HasId(id));
    assert r.Some? ==> var i := FindIndex(bookings, HasId(id)).value;
      forall j :: 0 <= j < i ==> !HasId(id)(bookings[j]);
    r
  }

  /** What `cancelBooking` does to one record. */
  function CancelledRecord(b: Booking, id: string, now: int): Booking
  {
    if b.id == id then b.(status := Cancelled, cancelledAt := Some(now)) else b
  }

  /**
   * `cancelBooking`'s `map`: the list keeps its length and order, records with
   * that id become cancelled at `now`, every other record is untouched.
   */
  function CancelInList(bookings: seq<Booking>, id: string, now: int): (r: seq<Booking>)
    ensures |r| == |bookings|
    ensures forall i :: 0 <= i < |bookings| && bookings[i].id == id ==>
      r[i] == bookings[i].(status := Cancelled, cancelledAt := Some(now))
    ensures forall i :: 0 <= i < |bookings| && bookings[i].id != id ==> r[i] == bookings[i]
  {
    if |bookings| == 0 then []
    else [CancelledRecord(bookings[0], id, now)] + CancelInList(bookings[1..], id, now)
  }

  /** Cancelling an id no record carries changes nothing. */
  lemma CancelUnknownIdIsNoOp(bookings: seq<Booking>, id: string, now: int)
    requires forall i :: 0 <= i < |bookings| ==> bookings[i].id != id
    ensures CancelInList(bookings, id, now) == bookings
  {
  }

  /** Cancellation does not delete: the record is still found, now cancelled. */
  lemma CancelledRecordStillFound(bookings: seq<Booking>, id: string, now: int)
    requires BookingById(bookings, id).Some?
    ensures BookingById(CancelInList(bookings, id, now), id)
         == Some(BookingById(bookings, id).value.(status := Cancelled, cancelledAt := Some(now)))
  {
    var k := FindIndex(bookings, HasId(id)).value;
    var r := CancelInList(bookings, id, now);
    assert HasId(id)(r[k]);
    forall j | 0 <= j < k ensures !HasId(id)(r[j]) {
      assert !HasId(id)(bookings[j]);
    }
    FindFirstMatch(r, HasId(id), k);
  }

  /** A second cancellation stamps the record again with the later time. */
  lemma CancelTwiceRestamps(bookings: seq<Booking>, id: string, t1: int, t2: int, i: nat)
    requires i < |bookings| && bookings[i].id == id
    ensures CancelInList(CancelInList(bookings, id, t1), id, t2)[i].cancelledAt == Some(t2)
  {
  }

  // ---------------------------------------------------------------------
  // The store
  // ---------------------------------------------------------------------

  class BookingsStore {
    var bookings: seq<Booking>
    var currentBooking: Option<Booking>
    /** 0: calendar, 1: traveler info, 2: payment, 3: confirmation. */
    var bookingStep: int
    var isLoading: bool
    var error: Option<string>

    constructor ()
      ensures bookings == [] && currentBooking == None && bookingStep == 0
      ensures !isLoading && error == None
    {
      bookings := [];
      currentBooking := None;
      bookingStep := 0;
      isLoading := false;
      error := None;
    }

    /** Installs a fresh draft, whatever draft was there before. */
    method StartBooking(id: string, tourId: string, now: int)
      modifies this`currentBooking, this`bookingStep
      ensures currentBooking == Some(NewDraft(id, tourId, now))
      ensures currentBooking.value.status == Draft && currentBooking.value.travelers == List([])
      ensures bookingStep == 0
    {
      currentBooking := Some(NewDraft(id, tourId, now));
      bookingStep := 0;
    }

    method SetTravelDates(startDate: int, endDate: int)
      requires currentBooking.Some?
      modifies this`currentBooking, this`bookingStep
      ensures currentBooking == Some(old(currentBooking.value).(travelDates := Some(TravelDates(startDate, endDate))))
      ensures bookingStep == 1
    {
      currentBooking := Some(currentBooking.value.(travelDates := Some(TravelDates(startDate, endDate))));
      bookingStep := 1;
    }

    method SetTravelers(travelers: Travelers)
      requires currentBooking.Some?
      modifies this`currentBooking, this`bookingStep
      ensures currentBooking == Some(old(currentBooking.value).(travelers := travelers))
      ensures bookingStep == 2
    {
      currentBooking := Some(currentBooking.value.(travelers := travelers));
      bookingStep := 2;
    }

    /**
     * Stores and returns the price for all travelers. The count is the
     * corrected one: on the list shape it is what the source computes, on
     * the payload shape the source's `length` is undefined (see TotalAsWritten).
     */
    method CalculateTotal(tourPrice: int) returns (total: int)
      requires currentBooking.Some?
      modifies this`currentBooking
      ensures total == tourPrice * TravelerCount(old(currentBooking.value.travelers))
      ensures old(currentBooking.value.travelers).List? ==> Num(total) == TotalAsWritten(tourPrice, old(currentBooking.value.travelers))
      ensures currentBooking == Some(old(currentBooking.value).(totalPrice := total))
    {
      total := tourPrice * TravelerCount(currentBooking.value.travelers);
      currentBooking := Some(currentBooking.value.(totalPrice := total));
    }

    method SetPaymentInfo(paymentMethod: string)
      requires currentBooking.Some?
      modifies this`currentBooking, this`bookingStep
      ensures currentBooking == Some(old(currentBooking.value).(paymentMethod := Some(paymentMethod), status := Confirmed))
      ensures bookingStep == 3
    {
      currentBooking := Some(currentBooking.value.(paymentMethod := Some(paymentMethod), status := Confirmed));
      bookingStep := 3;
    }

    /**
     * Appends the draft, stamped with a code and `confirmedAt`, and clears the
     * draft. The status is carried over as it is: a draft that skipped the
     * payment step is stored with status Draft.
     */
    method ConfirmBooking(randoms: seq<real>, now: int)
      requires currentBooking.Some?
      requires |randoms| == CodeLength && AreRandomValues(randoms)
      modifies this`bookings, this`currentBooking, this`bookingStep
      ensures |bookings| == |old(bookings)| + 1
      ensures bookings[..|old(bookings)|] == old(bookings)
      ensures bookings[|old(bookings)|]
           == old(currentBooking.value).(confirmationCode := Some(CodeFor(IndicesOf(randoms))), confirmedAt := Some(now))
      ensures IsConfirmationCode(bookings[|old(bookings)|].confirmationCode.value)
      ensures bookings[|old(bookings)|].status == old(currentBooking.value.status)
      ensures currentBooking == None && bookingStep == 0
    {
      var code := GenerateConfirmationCode(randoms);
      var confirmed := currentBooking.value.(confirmationCode := Some(code), confirmedAt := Some(now));
      bookings := bookings + [confirmed];
      currentBooking := None;
      bookingStep := 0;
    }

    /** Discards the draft; the committed list is not touched. */
    method CancelBookingProcess()
      modifies this`currentBooking, this`bookingStep
      ensures currentBooking == None && bookingStep == 0
    {
      currentBooking := None;
      bookingStep := 0;
    }

    /** Cancels every record with that id; any status may be cancelled. */
    method CancelBooking(id: string, now: int)
      modifies this`bookings
      ensures bookings == CancelInList(old(bookings), id, now)
      ensures |bookings| == |old(bookings)|
    {
      bookings := CancelInList(bookings, id, now);
    }

    /** Sets the step counter without any check. */
    method GoToStep(step: int)
      modifies this`bookingStep
      ensures bookingStep == step
    {
      bookingStep := step;
    }

    method ClearError()
      modifies this`error
      ensures error == None
    {
      error := None;
    }
  }

  /**
   * One booking as the screens drive it (tour details, calendar, traveler
   * info, payment, confirmation), with the corrected traveler count.
   */
  method EndToEndScenario(bookingId: string, t0: int, t1: int, start: int, end: int) returns (b: Booking)
    ensures b.id == bookingId && b.tourId == "egypt-1" && b.createdAt == t0
    ensures b.travelDates == Some(TravelDates(start, end))
    ensures b.travelers == Payload([Traveler("1", "Marcus", "35", true)], "")
    ensures b.totalPrice == 1200 && b.status == Confirmed
    ensures b.paymentMethod == Some("treasury") && b.confirmedAt == Some(t1) && b.cancelledAt == None
    ensures b.confirmationCode.Some? && IsConfirmationCode(b.confirmationCode.value)
  {
    var store := new BookingsStore();
    store.StartBooking(bookingId, "egypt-1", t0);
    store.SetTravelDates(start, end);
    var marcus := Traveler("1", "Marcus", "35", true);
    store.SetTravelers(Payload([marcus], ""));
    var total := store.CalculateTotal(1200);
    assert total == 1200;
    store.SetPaymentInfo("treasury");
    store.ConfirmBooking([0.0, 0.5, 0.25, 0.99], t1);
    assert |store.bookings| == 1 && store.currentBooking == None;
    b := store.bookings[0];
  }
}
