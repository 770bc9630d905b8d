/** The power supply beside the bed and the power cable that runs from the X
    cable carrier down through the supply to the plug in the outlet. Each
    cable piece is kept as its end points and, for a curve, its two control
    points; the curves drawn through them are not modelled. */
module PowerSupply {
  import opened ConfigStore
  import opened Helpers
  import opened BotScene

  /** The outlet's depth, which the utilities post also uses. */
  const OUTLET_DEPTH: real := 25.0
  const PLUG_DEPTH: real := 25.0

  /** A straight piece of cable, or a cubic Bezier piece with its two control
      points. */
  datatype Cable =
    | Straight(start: Vec3, end: Vec3)
    | Bezier(start: Vec3, midA: Vec3, midB: Vec3, end: Vec3)

  /** The supply: 163 by 42 by 68, half way along the bed plus 300, just
      outside the bed's near side, below the carrier supports. */
  function SupplyBox(config: Config): Box {
    var length := NumField(config, BedLengthOuter);
    Box((163.0, 42.0, 68.0),
        (ThreeSpace(length / 2.0 + 300.0, length),
         ThreeSpace(-21.0, NumField(config, BedWidthOuter)),
         -90.0 - NumField(config, CcSupportSize)))
  }

  /** The plug, pushed into the outlet on the utilities post. */
  function Plug(config: Config): Box {
    var length := NumField(config, BedLengthOuter);
    var legSize := NumField(config, LegSize);
    Box((PLUG_DEPTH, 30.0, 30.0),
        (ThreeSpace(length + 600.0 - PLUG_DEPTH / 2.0 - OUTLET_DEPTH - legSize / 2.0, length),
         ThreeSpace(legSize / 2.0, NumField(config, BedWidthOuter)),
         GroundZ(config) + 250.0))
  }

  /** The seven cable pieces in scene order: the run inside the carrier, the
      curve down to the supply, the curve from the supply down to the bed's
      foot, the run under the bed, the curve down to the ground, the run along
      the ground, and the curve up to the outlet. */
  function Cables(config: Config): seq<Cable>
    requires IsConfig(config)
  {
    var length := NumField(config, BedLengthOuter);
    var width := NumField(config, BedWidthOuter);
    var bedHeight := NumField(config, BedHeight);
    var legSize := NumField(config, LegSize);
    var y := ThreeSpace(-20.0, width);
    var carrierZ := 10.0 - BedCCSupportHeight(config);
    var supplyZ := -90.0 - NumField(config, CcSupportSize);
    var bedFootZ := -bedHeight + 10.0;
    var groundZ := GroundZ(config) + 10.0;
    var outletY := ThreeSpace(legSize / 2.0, width);
    var outletZ := GroundZ(config) + 250.0;
    [ Straight((ThreeSpace(NumField(config, BotSizeX) / 2.0, length), y, carrierZ),
               (ThreeSpace(length / 2.0, length), y, carrierZ)),
      Bezier((ThreeSpace(length / 2.0 + 0.0, length), y, carrierZ),
             (ThreeSpace(length / 2.0 + 100.0, length), y, carrierZ),
             (ThreeSpace(length / 2.0 + 200.0 - 163.0 / 2.0, length), y, supplyZ),
             (ThreeSpace(length / 2.0 + 300.0 - 163.0 / 2.0, length), y, supplyZ)),
      Bezier((ThreeSpace(length / 2.0 + 300.0 + 163.0 / 2.0, length), y, supplyZ),
             (ThreeSpace(length / 2.0 + 400.0 + 163.0 / 2.0, length), y, supplyZ),
             (ThreeSpace(length / 2.0 + 400.0, length), y, bedFootZ),
             (ThreeSpace(length / 2.0 + 500.0, length), y, bedFootZ)),
      Straight((ThreeSpace(length / 2.0 + 500.0, length), y, bedFootZ),
               (ThreeSpace(length - 150.0, length), y, bedFootZ)),
      Bezier((ThreeSpace(length - 150.0, length), y, bedFootZ),
             (ThreeSpace(length - 100.0, length), y, bedFootZ),
             (ThreeSpace(length - 100.0, length), y, groundZ),
             (ThreeSpace(length - 50.0, length), y, groundZ)),
      Straight((ThreeSpace(length - 50.0, length), y, groundZ),
               (ThreeSpace(length + 400.0, length), y, groundZ)),
      Bezier((ThreeSpace(length + 400.0, length), y, groundZ),
             (ThreeSpace(length + 450.0, length), y, groundZ),
             (ThreeSpace(length + 450.0, length), outletY, outletZ),
             (ThreeSpace(length + 550.0 - legSize / 2.0, length), outletY, outletZ)) ]
  }

  /** The cable is one unbroken line except inside the supply: every piece
      but the second ends where the next one starts. */
  lemma CablesContinuous(config: Config)
    requires IsConfig(config)
    ensures |Cables(config)| == 7
    ensures forall i :: 0 <= i < 6 && i != 1 ==> Cables(config)[i].end == Cables(config)[i + 1].start
  {
  }

  /** The cable enters the supply in the middle of its left face and leaves
      from the middle of its right face, at the supply's centre height and
      within its depth; the gap in the cable is the supply's length. */
  lemma CableThroughSupply(config: Config)
    requires IsConfig(config)
    ensures Cables(config)[1].end.0 == SupplyBox(config).centre.0 - SupplyBox(config).size.0 / 2.0
    ensures Cables(config)[2].start.0 == SupplyBox(config).centre.0 + SupplyBox(config).size.0 / 2.0
    ensures Cables(config)[1].end.2 == SupplyBox(config).centre.2
    ensures Cables(config)[2].start.2 == SupplyBox(config).centre.2
    ensures Cables(config)[1].end.1 == Cables(config)[2].start.1
    ensures SupplyBox(config).centre.1 - SupplyBox(config).size.1 / 2.0 <= Cables(config)[1].end.1
              <= SupplyBox(config).centre.1 + SupplyBox(config).size.1 / 2.0
    ensures Cables(config)[2].start.0 - Cables(config)[1].end.0 == SupplyBox(config).size.0
  {
  }

  /** The run inside the carrier starts at the carrier's middle, half the bot
      length along the bed, and lies level at 10 above the carrier supports'
      lowest point, down to the start of the curve to the supply. */
  lemma CarrierRun(config: Config)
    requires IsConfig(config)
    ensures Cables(config)[0].start.0 == ThreeSpace(NumField(config, BotSizeX) / 2.0, NumField(config, BedLengthOuter))
    ensures Cables(config)[0].start.2 == 10.0 - BedCCSupportHeight(config)
    ensures Cables(config)[0].end.2 == 10.0 - BedCCSupportHeight(config)
    ensures Cables(config)[1].start.2 == 10.0 - BedCCSupportHeight(config)
  {
  }

  /** Below the supply the cable runs level 10 above the bed's foot, then
      level 10 above the ground, and climbs 240 to the plug. */
  lemma CableHeights(config: Config)
    requires IsConfig(config)
    ensures Cables(config)[3].start.2 == Cables(config)[3].end.2 == -NumField(config, BedHeight) + 10.0
    ensures Cables(config)[5].start.2 == Cables(config)[5].end.2 == GroundZ(config) + 10.0
    ensures Cables(config)[6].end.2 - Cables(config)[6].start.2 == 240.0
  {
  }

  /** The last piece ends in the middle of the plug's rear face. */
  lemma CableMeetsPlug(config: Config)
    requires IsConfig(config)
    ensures Cables(config)[6].end ==
      (Plug(config).centre.0 - Plug(config).size.0 / 2.0, Plug(config).centre.1, Plug(config).centre.2)
  {
  }

  // ---------------------------------------------------------------------
  // Cable colours

  /** A colour as the scene writes it: a hex code, or `hsl(hue, 100%, 50%)`. */
  datatype Color = Hex(code: string) | Hsl(hue: int, saturation: int, lightness: int)

  /** The colour one call of `cableColor` returns and the counter it leaves. */
  function NextColor(debug: bool, incr: int): (Color, int) {
    if !debug then (Hex("#222"), incr) else (Hsl(incr * 80, 100, 50), incr + 1)
  }

  /** The colours `n` successive calls return, starting from counter `incr`. */
  function Colors(debug: bool, incr: int, n: nat): (colors: seq<Color>)
    ensures |colors| == n
    decreases n
  {
    if n == 0 then [] else [NextColor(debug, incr).0] + Colors(debug, NextColor(debug, incr).1, n - 1)
  }

  /** The counter after `n` successive calls. */
  function CounterAfter(debug: bool, incr: int, n: nat): int
    decreases n
  {
    if n == 0 then incr else CounterAfter(debug, NextColor(debug, incr).1, n - 1)
  }

  /** Outside debug mode every piece is drawn in the same dark grey and the
      counter never moves. */
  lemma {:induction false} PlainColors(incr: int, n: nat)
    ensures forall i :: 0 <= i < n ==> Colors(false, incr, n)[i] == Hex("#222")
    ensures CounterAfter(false, incr, n) == incr
    decreases n
  {
    if n > 0 {
      PlainColors(incr, n - 1);
    }
  }

  /** In debug mode call `i` gets hue `80 * (incr + i)`, so the hues step by 80
      and no two calls share a colour; the counter advances once per call. */
  lemma {:induction false} DebugColors(incr: int, n: nat)
    ensures forall i :: 0 <= i < n ==> Colors(true, incr, n)[i] == Hsl(80 * (incr + i), 100, 50)
    ensures CounterAfter(true, incr, n) == incr + n
    decreases n
  {
    if n > 0 {
      DebugColors(incr + 1, n - 1);
      forall i | 0 <= i < n
        ensures Colors(true, incr, n)[i] == Hsl(80 * (incr + i), 100, 50)
      {
        if i > 0 {
          assert Colors(true, incr, n)[i] == Colors(true, incr + 1, n - 1)[i - 1];
        }
      }
    }
  }

  /** In debug mode the pieces are told apart by colour. */
  lemma DebugColorsDistinct(incr: int, n: nat, i: int, j: int)
    requires 0 <= i < j < n
    ensures Colors(true, incr, n)[i] != Colors(true, incr, n)[j]
  {
    DebugColors(incr, n);
  }

  /** The module-level counter behind `cableColor`, with the debug switch
      that decides whether it is used. */
  class CableColors {
    const debug: bool
    var incr: int

    constructor (debug: bool)
      ensures this.debug == debug && incr == 0
    {
      this.debug := debug;
      incr := 0;
    }

    /** `cableColor()`. */
    method CableColor() returns (color: Color)
      modifies this
      ensures (color, incr) == NextColor(debug, old(incr))
    {
      if !debug {
        return Hex("#222");
      }
      var hue := incr * 80;
      incr := incr + 1;
      color := Hsl(hue, 100, 50);
    }

    /** One render of the supply: the seven cable pieces and then the plug
        each ask for a colour, in scene order. */
    method PaintScene() returns (colors: seq<Color>)
      modifies this
      ensures colors == Colors(debug, old(incr), 8)
      ensures incr == CounterAfter(debug, old(incr), 8)
    {
      var c0 := CableColor();
      var c1 := CableColor();
      var c2 := CableColor();
      var c3 := CableColor();
      var c4 := CableColor();
      var c5 := CableColor();
      var c6 := CableColor();
      var c7 := CableColor();
      colors := [c0, c1, c2, c3, c4, c5, c6, c7];
    }
  }

  /** The scene as shipped, with the debug switch off: every call returns the
      dark grey and a render leaves the counter where it was. */
  lemma ShippedColors(incr: int)
    ensures Colors(false, incr, 8) == [Hex("#222"), Hex("#222"), Hex("#222"), Hex("#222"),
                                       Hex("#222"), Hex("#222"), Hex("#222"), Hex("#222")]
    ensures CounterAfter(false, incr, 8) == incr
  {
    PlainColors(incr, 8);
  }
}
