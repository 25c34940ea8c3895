/** Mapping a latitude in degrees to one of Sweden's four electricity price areas. */
module Area {

  datatype PriceArea = SE1 | SE2 | SE3 | SE4 {
    /** The area's number, 1 in the far north to 4 in the south. */
    function Number(): nat
    {
      match this
      case SE1 => 1
      case SE2 => 2
      case SE3 => 3
      case SE4 => 4
    }

    /** The code `latToElområde` returns, also used in the price feed and the area selector: "SE" and the area's number. */
    function Code(): (code: string)
      ensures code == "SE" + [('0' as int + Number()) as char]
    {
      match this
      case SE1 => "SE1"
      case SE2 => "SE2"
      case SE3 => "SE3"
      case SE4 => "SE4"
    }
  }

  /** Distinct areas have distinct codes. */
  lemma AreaCodesDistinct(a: PriceArea, b: PriceArea)
    ensures a.Code() == b.Code() ==> a == b
  {
  }

  /** Latitude bands: 63 and north is SE1, [60, 63) SE2, [58, 60) SE3, south of 58 SE4. */
  function LatToArea(latitude: real): (a: PriceArea)
    ensures a == SE1 <==> 63.0 <= latitude
    ensures a == SE2 <==> 60.0 <= latitude < 63.0
    ensures a == SE3 <==> 58.0 <= latitude < 60.0
    ensures a == SE4 <==> latitude < 58.0
  {
    if latitude >= 63.0 then SE1
    else if latitude >= 60.0 then SE2
    else if latitude >= 58.0 then SE3
    else SE4
  }

  /** Going north never moves to a higher-numbered area. */
  lemma AreaNonIncreasing(south: real, north: real)
    requires south <= north
    ensures LatToArea(north).Number() <= LatToArea(south).Number()
  {
  }
}
