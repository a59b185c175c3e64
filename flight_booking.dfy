/**
  Flight seat booking and search: flights whose seat count bookings decrement
  in place, a search task that filters the flight list by source and
  destination, and the booking system that books on the first flight whose
  number matches. String matching is equalsIgnoreCase on ASCII case folding.
*/
module FlightBooking {
  import opened AsciiCase

  /** A flight; only its seat count ever changes. */
  class Flight {
    const flightNumber: string
    const source: string
    const destination: string
    var availableSeats: int

    constructor (flightNumber: string, source: string, destination: string, seats: int)
      ensures this.flightNumber == flightNumber && this.source == source
      ensures this.destination == destination && availableSeats == seats
    {
      this.flightNumber := flightNumber;
      this.source := source;
      this.destination := destination;
      availableSeats := seats;
    }

    /** Books one seat when one is left: exactly as BookOnce says of the old count. */
    method BookSeat() returns (booked: bool)
      modifies this`availableSeats
      ensures (booked, availableSeats) == BookOnce(old(availableSeats))
    {
      if availableSeats > 0 {
        availableSeats := availableSeats - 1;
        return true;
      }
      return false;
    }
  }

  // ---------------------------------------------------------------------------
  // Seat counts

  /** One bookSeat call on a seat count: whether it booked, and the count afterwards. */
  function BookOnce(seats: int): (bool, int)
  {
    if seats > 0 then (true, seats - 1) else (false, seats)
  }

  /** k bookSeat calls in a row: how many of them booked, and the count afterwards. */
  function BookRepeatedly(seats: int, k: nat): (nat, int)
    decreases k
  {
    if k == 0 then (0, seats)
    else
      var (booked, left) := BookOnce(seats);
      var (count, last) := BookRepeatedly(left, k - 1);
      (if booked then count + 1 else count, last)
  }

  /** bookSeat books exactly when a seat is left, takes exactly one, and otherwise changes nothing. */
  lemma BookOnceEffect(seats: int)
    ensures BookOnce(seats).0 <==> seats > 0
    ensures BookOnce(seats).1 == if seats > 0 then seats - 1 else seats
    ensures seats >= 0 ==> BookOnce(seats).1 >= 0
  {
  }

  function Min(a: int, b: int): int { if a <= b then a else b }

  function Max(a: int, b: int): int { if a <= b then b else a }

  /**
    k successive bookings succeed min(k, seats) times (none when the count
    is not positive), each one takes exactly one seat, and a count that
    starts at zero or more never goes below zero.
  */
  lemma {:induction false} BookRepeatedlyCount(seats: int, k: nat)
    ensures BookRepeatedly(seats, k).0 == Min(k, Max(seats, 0))
    ensures BookRepeatedly(seats, k).1 == seats - BookRepeatedly(seats, k).0
    ensures seats >= 0 ==> BookRepeatedly(seats, k).1 >= 0
    decreases k
  {
    if k > 0 {
      BookRepeatedlyCount(BookOnce(seats).1, k - 1);
    }
  }

  // ---------------------------------------------------------------------------
  // Search

  /** The flight flies from source to destination, both compared ignoring case. */
  predicate Matches(f: Flight, source: string, destination: string)
  {
    EqualsIgnoreCase(f.source, source) && EqualsIgnoreCase(f.destination, destination)
  }

  /** The flights of fs that match, in the order fs has them. */
  function Search(fs: seq<Flight>, source: string, destination: string): seq<Flight>
    decreases |fs|
  {
    if fs == [] then []
    else
      var last := fs[|fs| - 1];
      Search(fs[..|fs| - 1], source, destination) + (if Matches(last, source, destination) then [last] else [])
  }

  /** A flight is found exactly when it is in the list and matches. */
  lemma {:induction false} SearchMembership(fs: seq<Flight>, source: string, destination: string, f: Flight)
    ensures f in Search(fs, source, destination) <==> f in fs && Matches(f, source, destination)
    decreases |fs|
  {
    if fs != [] {
      var init := fs[..|fs| - 1];
      SearchMembership(init, source, destination, f);
      assert fs == init + [fs[|fs| - 1]];
    }
  }

  /** Searching a list in two parts finds the first part's results before the second's: the order is kept. */
  lemma {:induction false} SearchAppend(a: seq<Flight>, b: seq<Flight>, source: string, destination: string)
    ensures Search(a + b, source, destination) == Search(a, source, destination) + Search(b, source, destination)
    decreases |b|
  {
    if b == [] {
      assert a + b == a;
    } else {
      var init := b[..|b| - 1];
      assert (a + b)[..|a + b| - 1] == a + init;
      SearchAppend(a, init, source, destination);
    }
  }

  /** A search finds no more flights than the list holds. */
  lemma {:induction false} SearchLength(fs: seq<Flight>, source: string, destination: string)
    ensures |Search(fs, source, destination)| <= |fs|
    decreases |fs|
  {
    if fs != [] {
      SearchLength(fs[..|fs| - 1], source, destination);
    }
  }

  /** FlightSearchTask: a search for flights from source to destination over a list of flights. */
  class FlightSearchTask {
    const source: string
    const destination: string
    const allFlights: seq<Flight>

    constructor (source: string, destination: string, allFlights: seq<Flight>)
      ensures this.source == source && this.destination == destination && this.allFlights == allFlights
    {
      this.source := source;
      this.destination := destination;
      this.allFlights := allFlights;
    }

    /**
      The flights that match, in list order, built by appending in one pass.
      It modifies nothing: no flight and no seat count.
    */
    method Call() returns (availableFlights: seq<Flight>)
      ensures availableFlights == Search(allFlights, source, destination)
    {
      availableFlights := [];
      var i := 0;
      while i < |allFlights|
        invariant 0 <= i <= |allFlights|
        invariant availableFlights == Search(allFlights[..i], source, destination)
      {
        var flight := allFlights[i];
        assert allFlights[..i + 1][..i] == allFlights[..i];
        if Matches(flight, source, destination) {
          availableFlights := availableFlights + [flight];
        }
        i := i + 1;
      }
      assert allFlights[..i] == allFlights;
    }
  }

  // ---------------------------------------------------------------------------
  // Booking by flight number

  /** The index of the first flight whose number matches ignoring case, or |fs| when none does. */
  function FindFlight(fs: seq<Flight>, flightNumber: string): (k: nat)
    ensures k <= |fs|
    ensures k < |fs| ==> EqualsIgnoreCase(fs[k].flightNumber, flightNumber)
    ensures forall j :: 0 <= j < k ==> !EqualsIgnoreCase(fs[j].flightNumber, flightNumber)
    decreases |fs|
  {
    if fs == [] then 0
    else if EqualsIgnoreCase(fs[0].flightNumber, flightNumber) then 0
    else 1 + FindFlight(fs[1..], flightNumber)
  }

  /** What bookTicket reports. */
  datatype BookingOutcome = TicketBooked | NoSeatsAvailable | FlightNotFound

  /** The booking system over a fixed list of flights. */
  class FlightBookingSystem {
    const flights: seq<Flight>

    /** The sample flights. */
    constructor ()
      ensures |flights| == 4
      ensures flights[0].flightNumber == "AI101" && flights[0].source == "New York"
      ensures flights[0].destination == "Los Angeles" && flights[0].availableSeats == 3
      ensures flights[1].flightNumber == "BA202" && flights[1].source == "New York"
      ensures flights[1].destination == "Chicago" && flights[1].availableSeats == 2
      ensures flights[2].flightNumber == "CX303" && flights[2].source == "Los Angeles"
      ensures flights[2].destination == "San Francisco" && flights[2].availableSeats == 4
      ensures flights[3].flightNumber == "DL404" && flights[3].source == "Chicago"
      ensures flights[3].destination == "New York" && flights[3].availableSeats == 5
      ensures forall i, j :: 0 <= i < j < 4 ==> flights[i] != flights[j]
      ensures forall i :: 0 <= i < 4 ==> fresh(flights[i])
    {
      var f0 := new Flight("AI101", "New York", "Los Angeles", 3);
      var f1 := new Flight("BA202", "New York", "Chicago", 2);
      var f2 := new Flight("CX303", "Los Angeles", "San Francisco", 4);
      var f3 := new Flight("DL404", "Chicago", "New York", 5);
      flights := [f0, f1, f2, f3];
    }

    /** searchFlights: runs a FlightSearchTask over the flights (the executor is not modelled). */
    method SearchFlights(source: string, destination: string) returns (found: seq<Flight>)
      ensures found == Search(flights, source, destination)
    {
      var task := new FlightSearchTask(source, destination, flights);
      found := task.Call();
    }

    /**
      Books a seat on the first flight whose number matches ignoring case and
      stops there; reports FlightNotFound and changes nothing when none does.
      No other flight's seat count changes.
    */
    method BookTicket(flightNumber: string) returns (outcome: BookingOutcome)
      modifies flights
      ensures var k := FindFlight(flights, flightNumber);
        && (k == |flights| ==> outcome == FlightNotFound)
        && (k < |flights| ==>
              && outcome == (if old(flights[k].availableSeats) > 0 then TicketBooked else NoSeatsAvailable)
              && flights[k].availableSeats == BookOnce(old(flights[k].availableSeats)).1)
        && (forall f :: f in flights && (k == |flights| || f != flights[k]) ==>
              f.availableSeats == old(f.availableSeats))
    {
      var i := 0;
      while i < |flights|
        invariant 0 <= i <= |flights|
        invariant forall j :: 0 <= j < i ==> !EqualsIgnoreCase(flights[j].flightNumber, flightNumber)
        invariant forall f :: f in flights ==> f.availableSeats == old(f.availableSeats)
      {
        var flight := flights[i];
        if EqualsIgnoreCase(flight.flightNumber, flightNumber) {
          var booked := flight.BookSeat();
          outcome := if booked then TicketBooked else NoSeatsAvailable;
          return;
        }
        i := i + 1;
      }
      outcome := FlightNotFound;
    }
  }
}
