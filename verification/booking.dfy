/**
 * The booking page: the static driver list, its gender filter and keyed
 * sort, and the location -> driver -> confirmation steps that end in a
 * SET_RIDE dispatch carrying a four-digit ride code.
 */
module Booking {

  import opened Options
  import opened AppContext
  import Otp

  datatype GenderFilter = AllDrivers | FemaleDrivers | MaleDrivers

  datatype SortKey = ByDistance | ByPrice | BySafety | ByEta

  datatype BookingStep = LocationStep | DriverStep | ConfirmationStep

  /** The four drivers the page offers; profile image URLs are shortened to names. */
  const Drivers: seq<Driver> := [
    Driver("1", "Sarah Johnson", 4.9, 98, "Honda Civic - White", 0.8, 12, 3, Female, "sarah.jpeg"),
    Driver("2", "Michael Chen", 4.8, 95, "Toyota Camry - Black", 1.2, 10, 5, Male, "michael.jpeg"),
    Driver("3", "Emma Rodriguez", 4.9, 97, "Hyundai Elantra - Blue", 0.5, 15, 2, Female, "emma.jpeg"),
    Driver("4", "David Kim", 4.7, 92, "Nissan Altima - Gray", 1.5, 8, 7, Male, "david.jpeg")
  ]

  predicate Matches(d: Driver, f: GenderFilter) {
    match f
    case AllDrivers => true
    case FemaleDrivers => d.gender == Female
    case MaleDrivers => d.gender == Male
  }

  /** The drivers that pass the filter, in their original order. */
  function FilterDrivers(s: seq<Driver>, f: GenderFilter): (r: seq<Driver>)
    ensures |r| <= |s|
    decreases |s|
  {
    if s == [] then []
    else (if Matches(s[0], f) then [s[0]] else []) + FilterDrivers(s[1..], f)
  }

  /** How often one driver survives the filter: as often as in the input when it matches, otherwise never. */
  lemma {:induction false} FilterCount(s: seq<Driver>, f: GenderFilter, d: Driver)
    ensures multiset(FilterDrivers(s, f))[d] == if Matches(d, f) then multiset(s)[d] else 0
    decreases |s|
  {
    if s != [] {
      FilterCount(s[1..], f, d);
      var head := if Matches(s[0], f) then [s[0]] else [];
      assert s == [s[0]] + s[1..];
      assert multiset(FilterDrivers(s, f)) == multiset(head) + multiset(FilterDrivers(s[1..], f));
    }
  }

  /** Every driver the filter keeps matches it. */
  lemma {:induction false} FilterMatches(s: seq<Driver>, f: GenderFilter)
    ensures forall i :: 0 <= i < |FilterDrivers(s, f)| ==> Matches(FilterDrivers(s, f)[i], f)
    decreases |s|
  {
    if s != [] {
      FilterMatches(s[1..], f);
    }
  }

  /** The "all" filter keeps the list as it is. */
  lemma {:induction false} FilterAllIsIdentity(s: seq<Driver>)
    ensures FilterDrivers(s, AllDrivers) == s
    decreases |s|
  {
    if s != [] {
      FilterAllIsIdentity(s[1..]);
      assert s == [s[0]] + s[1..];
    }
  }

  /**
   * The filter keeps exactly the drivers of the chosen gender, each as often
   * as it occurs, and everyone under "all".
   */
  lemma FilterDriversCorrect(s: seq<Driver>, f: GenderFilter)
    ensures forall d :: multiset(FilterDrivers(s, f))[d] == if Matches(d, f) then multiset(s)[d] else 0
    ensures forall i :: 0 <= i < |FilterDrivers(s, f)| ==> Matches(FilterDrivers(s, f)[i], f)
    ensures f == AllDrivers ==> FilterDrivers(s, f) == s
  {
    forall d ensures multiset(FilterDrivers(s, f))[d] == if Matches(d, f) then multiset(s)[d] else 0 {
      FilterCount(s, f, d);
    }
    FilterMatches(s, f);
    if f == AllDrivers {
      FilterAllIsIdentity(s);
    }
  }

  /**
   * The comparator's key: ascending distance, price or eta, and descending
   * safety score, which is ascending in its negation.
   */
  function Key(d: Driver, order: SortKey): real {
    match order
    case ByDistance => d.distance
    case ByPrice => d.price as real
    case BySafety => -(d.safetyScore as real)
    case ByEta => d.eta as real
  }

  /** No driver has a greater key than one after it. */
  predicate Sorted(s: seq<Driver>, order: SortKey) {
    forall i, j :: 0 <= i < j < |s| ==> Key(s[i], order) <= Key(s[j], order)
  }

  /** Every driver of `s` has a key of at least `b`. */
  predicate KeysFrom(b: real, s: seq<Driver>, order: SortKey) {
    forall k :: 0 <= k < |s| ==> b <= Key(s[k], order)
  }

  /** Puts `d` in front of the first driver whose key is not smaller, which keeps equal keys in order. */
  function Insert(d: Driver, s: seq<Driver>, order: SortKey): (r: seq<Driver>)
    ensures |r| == |s| + 1
    decreases |s|
  {
    if s == [] then [d]
    else if Key(d, order) <= Key(s[0], order) then [d] + s
    else [s[0]] + Insert(d, s[1..], order)
  }

  /** Insertion sort: the JavaScript sort with the page's comparator, stable like it. */
  function SortDrivers(s: seq<Driver>, order: SortKey): (r: seq<Driver>)
    ensures |r| == |s|
    decreases |s|
  {
    if s == [] then [] else Insert(s[0], SortDrivers(s[1..], order), order)
  }

  lemma {:induction false} InsertPermutes(d: Driver, s: seq<Driver>, order: SortKey)
    ensures multiset(Insert(d, s, order)) == multiset(s) + multiset{d}
    decreases |s|
  {
    if s != [] && Key(d, order) > Key(s[0], order) {
      InsertPermutes(d, s[1..], order);
      assert s == [s[0]] + s[1..];
    }
  }

  lemma {:induction false} InsertKeepsBound(b: real, d: Driver, s: seq<Driver>, order: SortKey)
    requires KeysFrom(b, s, order) && b <= Key(d, order)
    ensures KeysFrom(b, Insert(d, s, order), order)
    decreases |s|
  {
    if s != [] && Key(d, order) > Key(s[0], order) {
      InsertKeepsBound(b, d, s[1..], order);
      var r := Insert(d, s, order);
      assert r == [s[0]] + Insert(d, s[1..], order);
      forall k | 0 <= k < |r| ensures b <= Key(r[k], order) {
        if k > 0 {
          assert r[k] == Insert(d, s[1..], order)[k - 1];
        }
      }
    }
  }

  lemma SortedCons(x: Driver, t: seq<Driver>, order: SortKey)
    requires Sorted(t, order) && KeysFrom(Key(x, order), t, order)
    ensures Sorted([x] + t, order)
  {
    var r := [x] + t;
    forall i, j | 0 <= i < j < |r| ensures Key(r[i], order) <= Key(r[j], order) {
      assert r[j] == t[j - 1];
      if i > 0 {
        assert r[i] == t[i - 1];
      }
    }
  }

  lemma {:induction false} InsertSorted(d: Driver, s: seq<Driver>, order: SortKey)
    requires Sorted(s, order)
    ensures Sorted(Insert(d, s, order), order)
    decreases |s|
  {
    if s == [] {
    } else if Key(d, order) <= Key(s[0], order) {
      assert KeysFrom(Key(d, order), s, order) by {
        forall k | 0 <= k < |s| ensures Key(d, order) <= Key(s[k], order) {
          assert k == 0 || Key(s[0], order) <= Key(s[k], order);
        }
      }
      SortedCons(d, s, order);
    } else {
      var t := s[1..];
      assert Sorted(t, order) by {
        forall i, j | 0 <= i < j < |t| ensures Key(t[i], order) <= Key(t[j], order) {
          assert t[i] == s[i + 1] && t[j] == s[j + 1];
        }
      }
      assert KeysFrom(Key(s[0], order), t, order) by {
        forall k | 0 <= k < |t| ensures Key(s[0], order) <= Key(t[k], order) {
          assert t[k] == s[k + 1];
        }
      }
      InsertSorted(d, t, order);
      InsertKeepsBound(Key(s[0], order), d, t, order);
      SortedCons(s[0], Insert(d, t, order), order);
    }
  }

  /** The sort yields the same drivers, ordered by the chosen key. */
  lemma {:induction false} SortDriversCorrect(s: seq<Driver>, order: SortKey)
    ensures Sorted(SortDrivers(s, order), order)
    ensures multiset(SortDrivers(s, order)) == multiset(s)
    decreases |s|
  {
    if s != [] {
      SortDriversCorrect(s[1..], order);
      InsertSorted(s[0], SortDrivers(s[1..], order), order);
      InsertPermutes(s[0], SortDrivers(s[1..], order), order);
      assert s == [s[0]] + s[1..];
    }
  }

  /** The list the page shows: the filtered drivers, reordered by the chosen key. */
  function FilterAndSort(s: seq<Driver>, f: GenderFilter, order: SortKey): (r: seq<Driver>)
  {
    SortDrivers(FilterDrivers(s, f), order)
  }

  /**
   * The shown list is a permutation of the filtered list, holds exactly the
   * drivers that pass the filter, and is ascending in distance, price or eta,
   * or descending in safety score, as chosen.
   */
  lemma FilterAndSortCorrect(s: seq<Driver>, f: GenderFilter, order: SortKey)
    ensures var r := FilterAndSort(s, f, order);
      && multiset(r) == multiset(FilterDrivers(s, f))
      && (forall d :: d in r <==> d in s && Matches(d, f))
      && (order == ByDistance ==> forall i, j :: 0 <= i < j < |r| ==> r[i].distance <= r[j].distance)
      && (order == ByPrice ==> forall i, j :: 0 <= i < j < |r| ==> r[i].price <= r[j].price)
      && (order == BySafety ==> forall i, j :: 0 <= i < j < |r| ==> r[i].safetyScore >= r[j].safetyScore)
      && (order == ByEta ==> forall i, j :: 0 <= i < j < |r| ==> r[i].eta <= r[j].eta)
  {
    var filtered := FilterDrivers(s, f);
    var r := FilterAndSort(s, f, order);
    FilterDriversCorrect(s, f);
    SortDriversCorrect(filtered, order);
    forall d ensures d in r <==> d in s && Matches(d, f) {
      assert d in r <==> d in multiset(r);
      assert d in s <==> d in multiset(s);
    }
  }

  /** With two female drivers of distinct safety scores, the female view lists the safer one first. */
  lemma {:induction false} FemaleViewBySafety(a: Driver, b: Driver, c: Driver, e: Driver)
    requires a.gender == Female && b.gender == Male && c.gender == Female && e.gender == Male
    requires a.safetyScore > c.safetyScore
    ensures FilterAndSort([a, b, c, e], FemaleDrivers, BySafety) == [a, c]
  {
    var s := [a, b, c, e];
    assert s[1..] == [b, c, e] && s[1..][1..] == [c, e] && s[1..][1..][1..] == [e];
    assert FilterDrivers([e], FemaleDrivers) == [];
    assert FilterDrivers([c, e], FemaleDrivers) == [c];
    assert FilterDrivers([b, c, e], FemaleDrivers) == [c];
    assert FilterDrivers(s, FemaleDrivers) == [a, c];
    assert SortDrivers([c], BySafety) == [c];
    assert [a, c][1..] == [c];
    assert SortDrivers([a, c], BySafety) == Insert(a, [c], BySafety);
  }

  /** On the page's own list: Sarah Johnson (98) before Emma Rodriguez (97). */
  lemma FemaleDriversBySafety()
    ensures FilterAndSort(Drivers, FemaleDrivers, BySafety) == [Drivers[0], Drivers[2]]
  {
    FemaleViewBySafety(Drivers[0], Drivers[1], Drivers[2], Drivers[3]);
  }

  class BookingPage {
    const store: Store
    /** The page's driver list, `Drivers`. */
    const drivers: seq<Driver>
    var pickup: string
    var destination: string
    var showDrivers: bool
    var selectedDriver: Option<Driver>
    var genderFilter: GenderFilter
    var sortBy: SortKey
    var bookingStep: BookingStep

    ghost predicate Valid()
      reads this, store
    {
      store.Valid()
    }

    /** The driver cards on screen. */
    function Listed(): seq<Driver>
      reads this
    {
      FilterAndSort(drivers, genderFilter, sortBy)
    }

    constructor (store: Store)
      requires store.Valid()
      ensures Valid() && this.store == store && drivers == Drivers
      ensures pickup == "" && destination == "" && !showDrivers && selectedDriver == None
      ensures genderFilter == AllDrivers && sortBy == BySafety && bookingStep == LocationStep
    {
      this.store := store;
      drivers := Drivers;
      pickup, destination := "", "";
      showDrivers, selectedDriver := false, None;
      genderFilter, sortBy := AllDrivers, BySafety;
      bookingStep := LocationStep;
    }

    method SetPickup(text: string)
      modifies this`pickup
      ensures pickup == text
    {
      pickup := text;
    }

    method SetDestination(text: string)
      modifies this`destination
      ensures destination == text
    {
      destination := text;
    }

    method SetGenderFilter(f: GenderFilter)
      modifies this`genderFilter
      ensures genderFilter == f
    {
      genderFilter := f;
    }

    method SetSortBy(order: SortKey)
      modifies this`sortBy
      ensures sortBy == order
    {
      sortBy := order;
    }

    /** Find Drivers: moves on only when both places are filled in. */
    method SubmitLocation()
      modifies this`showDrivers, this`bookingStep
      ensures pickup != "" && destination != "" ==> showDrivers && bookingStep == DriverStep
      ensures pickup == "" || destination == "" ==>
        showDrivers == old(showDrivers) && bookingStep == old(bookingStep)
    {
      if pickup != "" && destination != "" {
        showDrivers := true;
        bookingStep := DriverStep;
      }
    }

    /** A click on one of the listed driver cards. */
    method SelectDriver(d: Driver)
      requires showDrivers && d in Listed()
      modifies this`selectedDriver, this`bookingStep
      ensures selectedDriver == Some(d) && bookingStep == ConfirmationStep
      ensures d in drivers && Matches(d, genderFilter)
    {
      FilterAndSortCorrect(drivers, genderFilter, sortBy);
      selectedDriver := Some(d);
      bookingStep := ConfirmationStep;
    }

    /** Back to Drivers on the confirmation view. */
    method BackToDrivers()
      modifies this`bookingStep
      ensures bookingStep == DriverStep
    {
      bookingStep := DriverStep;
    }

    /**
     * Book Ride: with a driver chosen, dispatches SET_RIDE (id from the clock
     * `now`, the code drawn from `random`) and clears the form; without one,
     * nothing happens. Returns the code shown to the rider.
     */
    method BookRide(random: real, now: nat) returns (shown: Option<string>)
      requires Valid() && 0.0 <= random < 1.0
      modifies store, this`pickup, this`destination, this`selectedDriver, this`showDrivers,
        this`bookingStep
      ensures Valid()
      ensures old(selectedDriver).Some? ==>
        && shown == Some(Otp.Generate(random))
        && store.log == old(store.log)
             + [SetRide(Ride(Otp.ToDecimal(now), old(pickup), old(destination),
                             old(selectedDriver).value, Booked, Otp.Generate(random)))]
        && pickup == "" && destination == "" && selectedDriver == None
        && !showDrivers && bookingStep == LocationStep
      ensures old(selectedDriver).None? ==>
        && shown == None && store.log == old(store.log) && store.state == old(store.state)
        && pickup == old(pickup) && destination == old(destination) && selectedDriver == None
        && showDrivers == old(showDrivers) && bookingStep == old(bookingStep)
    {
      shown := None;
      if selectedDriver.Some? {
        var otp := Otp.Generate(random);
        var ride := Ride(Otp.ToDecimal(now), pickup, destination, selectedDriver.value, Booked, otp);
        store.Dispatch(SetRide(ride));
        shown := Some(otp);
        pickup, destination := "", "";
        selectedDriver := None;
        showDrivers := false;
        bookingStep := LocationStep;
      }
    }
  }

  /** The ride a booking dispatches carries a four-digit code in [1000, 9999] and status booked. */
  lemma BookedRideCode(random: real, now: nat, pickup: string, destination: string, d: Driver)
    requires 0.0 <= random < 1.0
    ensures var ride := Ride(Otp.ToDecimal(now), pickup, destination, d, Booked, Otp.Generate(random));
      && |ride.otp| == 4 && Otp.AllDigits(ride.otp) && 1000 <= Otp.ValueOf(ride.otp) <= 9999
      && Otp.ValueOf(ride.id) == now
  {
    Otp.DecimalRoundTrip(now);
  }
}
