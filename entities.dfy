/** The records the globe viewer receives from its back end, the tagged points
    it hands to the globe, and the view functions the three engines share. */
module Entities {

  /** An airport, as `/airports` serves it. */
  datatype Airport = Airport(index: int, name: string, code: string, city: string, lat: real, lng: real)

  /** A volcano, as `/volcanoes` serves it. */
  datatype VolcanoRecord = VolcanoRecord(index: int, country: string, lat: real, lng: real, vmag: real)

  /** A volcano once the newest engine has ingested it: the served record plus
      the `pulse` flag that decides whether its radius oscillates. */
  datatype Volcano = Volcano(record: VolcanoRecord, pulse: bool)

  /** The richer record `/volc-data` serves for one volcano. */
  datatype VolcanoDetail = VolcanoDetail(
    year: int, month: int, day: int,
    name: string, location: string, country: string,
    latitude: real, longitude: real, elevation: real,
    volcanoType: string, status: string)

  /** What the volcano panel shows: the clicked point until its detail arrives,
      then the detail record. */
  datatype VolcanoPanel = Summary(volcano: Volcano) | Detail(detail: VolcanoDetail)

  /** An airline, as `/airline` serves it; the engines read `id` and `name`. */
  datatype Airline = Airline(id: int, name: string)

  /** A route; the engines only ever compare its airline identifier. */
  datatype Route = Route(airlineId: int)

  /** One arc of `/flight-data`: a route leaving the clicked airport. */
  datatype FlightPath = FlightPath(
    index: int, airline: string, acode: string, airplane: string,
    startLat: real, startLng: real, scode: string, scity: string,
    endLat: real, endLng: real, dcode: string, dcity: string,
    fueltime: real, flighttime: real, color: seq<string>)

  /** The camera command `pointOfView({lat, lng, altitude}, durationMs)` sent to the globe. */
  datatype CameraCommand = PointOfView(lat: real, lng: real, altitude: real, durationMs: int)

  /** A point on the globe. Ingestion spreads a `type` field into every record;
      here the constructor is that tag and `V` is the engine's volcano record. */
  datatype Point<V> = AirportPoint(airport: Airport) | VolcanoPoint(volcano: V)

  /** The altitude and transition time of the camera move to a picked airport. */
  const FocusAltitude: real := 2.0
  const FocusDurationMs: int := 1000

  /** The radius every airport point is drawn with. */
  const AirportRadius: real := 0.2

  /** The `type` string ingestion writes into a point. */
  function TypeTag<V>(p: Point<V>): string
  {
    match p
    case AirportPoint(_) => "airport"
    case VolcanoPoint(_) => "volcano"
  }

  /** `type == 'airport' ? 'gold' : 'red'`. */
  function PointColor<V>(p: Point<V>): string
  {
    if TypeTag(p) == "airport" then "gold" else "red"
  }

  /** The camera command that centres the globe on an airport. */
  function FocusOn(a: Airport): (c: CameraCommand)
    ensures c.lat == a.lat && c.lng == a.lng
    ensures c.altitude == 2.0 && c.durationMs == 1000
  {
    PointOfView(a.lat, a.lng, FocusAltitude, FocusDurationMs)
  }

  /** Every airport tagged `airport`, in order. */
  function AirportPoints<V>(airports: seq<Airport>): seq<Point<V>>
  {
    seq(|airports|, i requires 0 <= i < |airports| => AirportPoint(airports[i]))
  }

  /** Every volcano tagged `volcano`, in order. */
  function VolcanoPoints<V>(volcanoes: seq<V>): seq<Point<V>>
  {
    seq(|volcanoes|, j requires 0 <= j < |volcanoes| => VolcanoPoint(volcanoes[j]))
  }

  /** `[...filteredAirports, ...volcanoes]`, each element tagged with its type. */
  function PointsData<V>(airports: seq<Airport>, volcanoes: seq<V>): seq<Point<V>>
  {
    AirportPoints(airports) + VolcanoPoints(volcanoes)
  }

  /** The airport payloads of a list of points, in order. */
  function AirportsOf<V>(ps: seq<Point<V>>): seq<Airport>
  {
    if ps == [] then []
    else match ps[0]
      case AirportPoint(a) => [a] + AirportsOf(ps[1..])
      case VolcanoPoint(_) => AirportsOf(ps[1..])
  }

  /** The volcano payloads of a list of points, in order. */
  function VolcanoesOf<V>(ps: seq<Point<V>>): seq<V>
  {
    if ps == [] then []
    else match ps[0]
      case AirportPoint(_) => VolcanoesOf(ps[1..])
      case VolcanoPoint(v) => [v] + VolcanoesOf(ps[1..])
  }

  lemma {:induction false} PayloadsOfAppend<V>(ps: seq<Point<V>>, qs: seq<Point<V>>)
    ensures AirportsOf(ps + qs) == AirportsOf(ps) + AirportsOf(qs)
    ensures VolcanoesOf(ps + qs) == VolcanoesOf(ps) + VolcanoesOf(qs)
  {
    if ps != [] {
      assert (ps + qs)[0] == ps[0] && (ps + qs)[1..] == ps[1..] + qs;
      PayloadsOfAppend(ps[1..], qs);
    } else {
      assert ps + qs == qs;
    }
  }

  lemma {:induction false} PayloadsOfAirportPoints<V>(airports: seq<Airport>)
    ensures AirportsOf(AirportPoints<V>(airports)) == airports
    ensures VolcanoesOf(AirportPoints<V>(airports)) == []
  {
    if airports != [] {
      PayloadsOfAirportPoints<V>(airports[1..]);
      assert AirportPoints<V>(airports)[1..] == AirportPoints<V>(airports[1..]);
      assert [airports[0]] + airports[1..] == airports;
    }
  }

  lemma {:induction false} PayloadsOfVolcanoPoints<V>(volcanoes: seq<V>)
    ensures AirportsOf(VolcanoPoints(volcanoes)) == []
    ensures VolcanoesOf(VolcanoPoints(volcanoes)) == volcanoes
  {
    if volcanoes != [] {
      PayloadsOfVolcanoPoints(volcanoes[1..]);
      assert VolcanoPoints(volcanoes)[1..] == VolcanoPoints(volcanoes[1..]);
      assert [volcanoes[0]] + volcanoes[1..] == volcanoes;
    }
  }

  /** The merged point list loses nothing and adds nothing: its airports are
      exactly the filtered airports and its volcanoes exactly all volcanoes, in
      order, whatever the search found. */
  lemma PointsDataSplits<V>(airports: seq<Airport>, volcanoes: seq<V>)
    ensures AirportsOf(PointsData(airports, volcanoes)) == airports
    ensures VolcanoesOf(PointsData(airports, volcanoes)) == volcanoes
  {
    PayloadsOfAppend(AirportPoints<V>(airports), VolcanoPoints(volcanoes));
    PayloadsOfAirportPoints<V>(airports);
    PayloadsOfVolcanoPoints(volcanoes);
  }

  /** In the merged list the airports come first, tagged `airport` and drawn
      gold; every volcano follows, tagged `volcano` and drawn red. */
  lemma PointsDataTagsAndColours<V>(airports: seq<Airport>, volcanoes: seq<V>)
    ensures |PointsData(airports, volcanoes)| == |airports| + |volcanoes|
    ensures forall i :: 0 <= i < |airports| ==>
      TypeTag(PointsData(airports, volcanoes)[i]) == "airport" &&
      PointColor(PointsData(airports, volcanoes)[i]) == "gold"
    ensures forall j :: 0 <= j < |volcanoes| ==>
      PointsData(airports, volcanoes)[|airports| + j] == VolcanoPoint(volcanoes[j]) &&
      TypeTag(PointsData(airports, volcanoes)[|airports| + j]) == "volcano" &&
      PointColor(PointsData(airports, volcanoes)[|airports| + j]) == "red"
  {
  }
}
