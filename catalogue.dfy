/**
 * The server's two kinds of record and its seeded tour catalogue.
 * Prices, slot counts and party sizes are JavaScript numbers in the
 * server; here they are integers.
 */
module Catalogue {

  /** A tour package of the catalogue. */
  datatype Tour = Tour(
    id: string,
    name: string,
    duration: string,        // a label such as "5D4N", compared as a string
    price: int,              // per person, in pesos
    slots: int,              // seats on offer
    destination: string,
    highlights: seq<string>)

  /** A booking record as the server stores it. */
  datatype Booking = Booking(
    id: string,
    tourId: string,
    tourName: string,
    customerName: string,
    customerEmail: string,
    customerPhone: string,
    travelDate: string,
    partySize: int,
    totalAmount: int,
    status: string,
    createdAt: string)

  /** The status every new booking is given. */
  const Pending: string := "pending"

  /** The four seeded tours, in catalogue order. */
  const DemoTours: seq<Tour> := [
    Tour("t1", "Palawan Island Hopper", "5D4N", 18500, 12, "Palawan", ["El Nido", "Coron", "Underground River"]),
    Tour("t2", "Boracay Beach Escape", "4D3N", 12800, 20, "Boracay", ["White Beach", "Helmet Diving", "Island Hopping"]),
    Tour("t3", "Siargao Surf & Chill", "5D4N", 15500, 8, "Siargao", ["Cloud 9 Surf", "Sugba Lagoon", "Magpupungko"]),
    Tour("t4", "Batanes Heritage Tour", "6D5N", 22000, 10, "Batanes", ["Batan Island", "Sabtang", "Ivana Port"])
  ]

  function DigitChar(d: nat): char
    requires d < 10
  {
    ('0' as int + d) as char
  }

  /** The decimal rendering of a natural number, as a template literal prints it. */
  function Decimal(n: nat): (r: string)
    ensures |r| >= 1
    ensures n >= 10 ==> |r| >= 2
    decreases n
  {
    if n < 10 then [DigitChar(n)] else Decimal(n / 10) + [DigitChar(n % 10)]
  }

  /** The booking id built from a clock reading in milliseconds, `BK${Date.now()}`. */
  function BookingId(now: nat): string
  {
    "BK" + Decimal(now)
  }

  lemma {:induction false} DecimalInjective(a: nat, b: nat)
    requires Decimal(a) == Decimal(b)
    ensures a == b
    decreases a
  {
    if a >= 10 && b >= 10 {
      var da, db := Decimal(a), Decimal(b);
      assert da[|da| - 1] == DigitChar(a % 10) && db[|db| - 1] == DigitChar(b % 10);
      assert da[..|da| - 1] == Decimal(a / 10) && db[..|db| - 1] == Decimal(b / 10);
      DecimalInjective(a / 10, b / 10);
    }
  }

  /**
   * Two bookings get the same id exactly when they were created at the same
   * clock reading: nothing else keeps ids apart.
   */
  lemma BookingIdCollides(a: nat, b: nat)
    ensures BookingId(a) == BookingId(b) <==> a == b
  {
    if BookingId(a) == BookingId(b) {
      assert BookingId(a)[2..] == Decimal(a) && BookingId(b)[2..] == Decimal(b);
      DecimalInjective(a, b);
    }
  }
}
