/** The water tube from the X cable carrier down to the barb adapter on the
    ground. The tube is a curve through five control points; only the points
    are modelled. */
module WaterTube {
  import opened ConfigStore
  import opened Helpers

  /** Where the tube leaves the cable carrier. */
  function CarrierEnd(config: Config): Vec3 {
    (-20.0, ThreeSpace(-30.0, NumField(config, BedWidthOuter)), -140.0)
  }

  /** Where the tube meets the barb adapter, 20 above the ground. */
  function BarbEnd(config: Config): Vec3 {
    (400.0, ThreeSpace(-50.0, NumField(config, BedWidthOuter)), GroundZ(config) + 20.0)
  }

  function Midpoint(a: Vec3, b: Vec3): Vec3 {
    ((a.0 + b.0) / 2.0, (a.1 + b.1) / 2.0, (a.2 + b.2) / 2.0)
  }

  /** `tubePoints`: the carrier end, a point leading out of it, the middle,
      a point leading into the barb, and the barb end. */
  function TubePoints(config: Config): seq<Vec3> {
    var cc := CarrierEnd(config);
    var barb := BarbEnd(config);
    [cc, (cc.0 + 100.0, cc.1, cc.2 - 10.0), Midpoint(cc, barb), (barb.0 - 100.0, barb.1, barb.2 + 10.0), barb]
  }

  /** A cylinder lying along the x axis: `args` radius and height, turned a
      quarter about z. */
  datatype Cylinder = Cylinder(radius: real, length: real, centre: Vec3)

  /** The adapter's barb, just before the tube end, and its base, just
      after. */
  function AdapterBarb(config: Config): Cylinder {
    var barb := BarbEnd(config);
    Cylinder(3.5, 20.0, (barb.0 - 10.0, barb.1, barb.2))
  }

  function AdapterBase(config: Config): Cylinder {
    var barb := BarbEnd(config);
    Cylinder(18.0, 20.0, (barb.0 + 10.0, barb.1, barb.2))
  }

  /** The curve runs from the carrier end to the barb end, 20 above the
      ground, through five points; the middle one is half way between the
      ends in every coordinate. */
  lemma TubeEnds(config: Config)
    ensures |TubePoints(config)| == 5
    ensures TubePoints(config)[0] == CarrierEnd(config) && TubePoints(config)[4] == BarbEnd(config)
    ensures TubePoints(config)[4].2 == GroundZ(config) + 20.0
    ensures TubePoints(config)[2].0 - TubePoints(config)[0].0 == TubePoints(config)[4].0 - TubePoints(config)[2].0
    ensures TubePoints(config)[2].1 - TubePoints(config)[0].1 == TubePoints(config)[4].1 - TubePoints(config)[2].1
    ensures TubePoints(config)[2].2 - TubePoints(config)[0].2 == TubePoints(config)[4].2 - TubePoints(config)[2].2
  {
  }

  /** The tube leaves the carrier heading 100 along x and 10 down, and comes
      into the barb from 100 before it and 10 above, level in y at both
      ends. */
  lemma TubeLeads(config: Config)
    ensures TubePoints(config)[1].0 - TubePoints(config)[0].0 == 100.0
    ensures TubePoints(config)[0].2 - TubePoints(config)[1].2 == 10.0
    ensures TubePoints(config)[1].1 == TubePoints(config)[0].1
    ensures TubePoints(config)[4].0 - TubePoints(config)[3].0 == 100.0
    ensures TubePoints(config)[3].2 - TubePoints(config)[4].2 == 10.0
    ensures TubePoints(config)[3].1 == TubePoints(config)[4].1
  {
  }

  /** The barb and the base, each 20 long, meet end to end exactly where the
      tube ends, on the tube's axis. */
  lemma AdapterAtTubeEnd(config: Config)
    ensures AdapterBarb(config).centre.0 + AdapterBarb(config).length / 2.0 == TubePoints(config)[4].0
    ensures AdapterBase(config).centre.0 - AdapterBase(config).length / 2.0 == TubePoints(config)[4].0
    ensures AdapterBarb(config).centre.1 == AdapterBase(config).centre.1 == TubePoints(config)[4].1
    ensures AdapterBarb(config).centre.2 == AdapterBase(config).centre.2 == TubePoints(config)[4].2
  {
  }
}
