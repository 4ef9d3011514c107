/**
  Grading of a received signal strength (dBm) into the 0-5 bars the device
  card draws.
 */
module Signal {

  /** The number of bars shown for `rssi`: five bands over -90..0, none outside. */
  function RssiBars(rssi: int): (bars: int)
    ensures 0 <= bars <= 5
    ensures bars == 0 <==> rssi > 0 || rssi < -90
  {
    if -40 <= rssi <= 0 then 5
    else if -67 <= rssi <= -41 then 4
    else if -70 <= rssi <= -68 then 3
    else if -80 <= rssi <= -71 then 2
    else if -90 <= rssi <= -81 then 1
    else 0
  }

  /** The lower edge of each band, weakest first. */
  const BandFloors: seq<int> := [-90, -80, -70, -67, -40]

  /** How many of `floors` the value `rssi` reaches. */
  function FloorsReached(rssi: int, floors: seq<int>): (n: nat)
    ensures n <= |floors|
  {
    if floors == [] then 0
    else (if floors[0] <= rssi then 1 else 0) + FloorsReached(rssi, floors[1..])
  }

  lemma {:induction false} FloorsReachedMonotone(a: int, b: int, floors: seq<int>)
    requires a <= b
    ensures FloorsReached(a, floors) <= FloorsReached(b, floors)
  {
    if floors != [] {
      FloorsReachedMonotone(a, b, floors[1..]);
    }
  }

  /** Independent reading of the grading: a value up to 0 dBm earns one bar per band floor it reaches. */
  lemma RssiBarsCountsFloors(rssi: int)
    ensures RssiBars(rssi) == if rssi > 0 then 0 else FloorsReached(rssi, BandFloors)
  {
    var f := BandFloors;
    assert f[1..][1..][1..][1..][1..] == [];
    var n4 := FloorsReached(rssi, f[1..][1..][1..][1..]);
    assert n4 == if -40 <= rssi then 1 else 0;
    var n3 := FloorsReached(rssi, f[1..][1..][1..]);
    assert n3 == n4 + if -67 <= rssi then 1 else 0;
    var n2 := FloorsReached(rssi, f[1..][1..]);
    assert n2 == n3 + if -70 <= rssi then 1 else 0;
    var n1 := FloorsReached(rssi, f[1..]);
    assert n1 == n2 + if -80 <= rssi then 1 else 0;
    assert FloorsReached(rssi, f) == n1 + if -90 <= rssi then 1 else 0;
  }

  /** The bands, one by one. */
  lemma RssiBarsBands(rssi: int)
    ensures -40 <= rssi <= 0 ==> RssiBars(rssi) == 5
    ensures -67 <= rssi <= -41 ==> RssiBars(rssi) == 4
    ensures -70 <= rssi <= -68 ==> RssiBars(rssi) == 3
    ensures -80 <= rssi <= -71 ==> RssiBars(rssi) == 2
    ensures -90 <= rssi <= -81 ==> RssiBars(rssi) == 1
  {
  }

  /** On -90..0 a stronger signal never shows fewer bars. */
  lemma RssiBarsMonotone(a: int, b: int)
    requires -90 <= a <= b <= 0
    ensures RssiBars(a) <= RssiBars(b)
  {
    RssiBarsCountsFloors(a);
    RssiBarsCountsFloors(b);
    FloorsReachedMonotone(a, b, BandFloors);
  }
}
