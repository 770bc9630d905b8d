/** The utilities post past the bed's far end, with the electrical outlet
    the power cable's plug goes into. The outlet's depth comes from a
    module the post's file imports but that does not define it, so it is a
    parameter; the power supply's own value is `OUTLET_DEPTH`. */
module UtilitiesPost {
  import opened ConfigStore
  import opened Helpers
  import opened PowerSupply

  /** The post group: 600 beyond the bed's far end, half a leg in from the
      bed's near side, 150 above the ground. */
  function PostPosition(config: Config): Vec3 {
    var length := NumField(config, BedLengthOuter);
    (ThreeSpace(length + 600.0, length),
     ThreeSpace(NumField(config, LegSize) / 2.0, NumField(config, BedWidthOuter)),
     GroundZ(config) + 150.0)
  }

  /** The post: a leg's section and 300 tall. */
  function Post(config: Config): Box {
    var legSize := NumField(config, LegSize);
    Box((legSize, legSize, 300.0), PostPosition(config))
  }

  /** The outlet, on the bed side of the post, 85 above the post's centre. */
  function Outlet(config: Config, outletDepth: real): Box {
    var p := PostPosition(config);
    Box((outletDepth, 90.0, 120.0), (p.0 - NumField(config, LegSize) / 2.0 - outletDepth / 2.0, p.1, p.2 + 85.0))
  }

  /** The post stands on the ground, and the outlet's back face lies against
      the post's face. */
  lemma OutletOnPost(config: Config, outletDepth: real)
    ensures Bottom(Post(config)) == GroundZ(config)
    ensures Outlet(config, outletDepth).centre.0 + outletDepth / 2.0 == Post(config).centre.0 - Post(config).size.0 / 2.0
  {
  }

  /** With the power supply's outlet depth, the plug's front face meets the
      outlet's front face at `L + 575 - legSize / 2` along the bed, and the
      plug lies within the outlet's face: centred across it, and inside its
      height. */
  lemma PlugInOutlet(config: Config)
    ensures Plug(config).centre.0 + Plug(config).size.0 / 2.0 ==
            Outlet(config, OUTLET_DEPTH).centre.0 - OUTLET_DEPTH / 2.0
    ensures Plug(config).centre.0 + Plug(config).size.0 / 2.0 ==
            ThreeSpace(NumField(config, BedLengthOuter) + 575.0 - NumField(config, LegSize) / 2.0, NumField(config, BedLengthOuter))
    ensures Plug(config).centre.1 == Outlet(config, OUTLET_DEPTH).centre.1
    ensures Plug(config).size.1 <= Outlet(config, OUTLET_DEPTH).size.1
    ensures Bottom(Outlet(config, OUTLET_DEPTH)) <= Bottom(Plug(config))
    ensures Top(Plug(config)) <= Top(Outlet(config, OUTLET_DEPTH))
  {
  }
}
