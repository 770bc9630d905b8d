/** The zoom beacons: six points of interest in the scene, each with a label,
    an info card, a position computed from the configuration, and a camera
    offset for narrow and wide viewports. Choosing a beacon moves the camera
    to the beacon's position plus the offset; an unknown label keeps the
    camera where it was. The beacons' description texts are content and are
    not modelled. */
module ZoomBeacons {
  import opened ConfigStore
  import opened Helpers

  datatype Camera = Camera(position: Vec3, target: Vec3)

  datatype Info = Info(position: Vec3, scale: real)

  /** A focus; `title` is the source's `label`, a reserved word here. */
  datatype Focus = Focus(title: string, info: Info, position: Vec3, narrow: Camera, wide: Camera)

  /** The viewport width above which the wide camera offset is used. */
  const WIDE_VIEWPORT: real := 768.0

  function Add(a: Vec3, b: Vec3): Vec3 {
    (a.0 + b.0, a.1 + b.1, a.2 + b.2)
  }

  /** `FOCI(config)`. `zDir`, the sign of the z axis, is imported by the
      source but not defined in the helpers module, so it is a parameter. */
  function Foci(config: Config, zDir: real): seq<Focus>
    requires IsConfig(config)
  {
    var xl := IsXl(config);
    var length := NumField(config, BedLengthOuter);
    var width := NumField(config, BedWidthOuter);
    [Focus("What you can grow",
       Info((0.0, width * 0.8, 300.0), if xl then 7000.0 else 3500.0),
       (ThreeSpace(length / 2.0, length), ThreeSpace(width / 2.0, width), 150.0),
       Camera((0.0, -1000.0, if xl then 15000.0 else 7000.0), (0.0, -1000.0, 0.0)),
       Camera((0.0, 0.0, if xl then 10000.0 else 5000.0), (0.0, 0.0, 0.0))),
     Focus("Included tools",
       Info((0.0, 0.0, 75.0), 600.0),
       (ThreeSpace(0.0, length), ThreeSpace(width / 2.0, width), 100.0),
       Camera((1100.0, -1150.0, 500.0), (0.0, 0.0, -325.0)),
       Camera((650.0, -650.0, 300.0), (0.0, 0.0, -125.0))),
     Focus("Universal Tool Mounting",
       Info((0.0, 25.0, 0.0), 400.0),
       (ThreeSpace(NumField(config, X), length) + NumField(config, BedXOffset),
        ThreeSpace(NumField(config, Y) + 150.0, width) + NumField(config, BedYOffset),
        ZZero(config) + zDir * NumField(config, Z)),
       Camera((500.0, -300.0, 225.0), (0.0, -150.0, -100.0)),
       Camera((500.0, -300.0, 225.0), (0.0, -75.0, -25.0))),
     Focus("Electronics",
       Info((0.0, 200.0, 175.0), 600.0),
       (ThreeSpace(NumField(config, X), length) + NumField(config, BedXOffset) - 50.0,
        ThreeSpace(-200.0, width),
        NumField(config, ColumnLength) - 150.0),
       Camera((150.0, -550.0, 400.0), (0.0, 100.0, -150.0)),
       Camera((150.0, -550.0, 400.0), (0.0, 100.0, 100.0))),
     Focus("What you need to provide",
       Info((200.0, -200.0, 0.0), 1000.0),
       (ThreeSpace(length + 700.0, length),
        ThreeSpace(NumField(config, LegSize) / 2.0, width),
        250.0 - NumField(config, BedZOffset) - NumField(config, BedHeight)),
       Camera((-700.0, -1200.0, 600.0), (-150.0, -150.0, -200.0)),
       Camera((-1000.0, -1200.0, 600.0), (0.0, -150.0, -100.0))),
     Focus("Planter bed",
       Info((0.0, -width / 2.0, if xl then 600.0 else 400.0), if xl then 3000.0 else 1500.0),
       (ThreeSpace(length + 50.0, length), 0.0, -NumField(config, BedHeight) / 2.0),
       Camera((if xl then 9000.0 else 4500.0, if xl then -7000.0 else -2500.0 - width / 2.0, 1500.0),
              (0.0, -width / 2.0, 0.0)),
       Camera((if xl then 4500.0 else 2500.0, if xl then -4500.0 else -1500.0 - width / 2.0, 1500.0),
              (0.0, -width / 2.0, 500.0)))]
  }

  /** The labels of the foci, in order. */
  const FOCUS_LABELS: seq<string> := ["What you can grow", "Included tools", "Universal Tool Mounting",
                                      "Electronics", "What you need to provide", "Planter bed"]

  /** `getFocus`: the first focus of `foci` with the given label, or `None`
      where `findIndex` returns -1 and indexing the array with it yields
      `undefined`. The scene passes `FOCI(config)`. */
  function GetFocus(foci: seq<Focus>, activeFocus: string): (r: Option<Focus>)
    ensures r.Some? ==> r.value in foci && r.value.title == activeFocus
  {
    if |foci| == 0 then None
    else if foci[0].title == activeFocus then Some(foci[0])
    else GetFocus(foci[1..], activeFocus)
  }

  /** `getCameraOffset(focus)`, with the viewport width as a parameter. */
  function GetCameraOffset(focus: Focus, innerWidth: real): (c: Camera)
    ensures innerWidth > WIDE_VIEWPORT ==> c == focus.wide
    ensures innerWidth <= WIDE_VIEWPORT ==> c == focus.narrow
  {
    if innerWidth > WIDE_VIEWPORT then focus.wide else focus.narrow
  }

  /** `getCamera(config, activeFocus, fallback)` over the foci of `config`. */
  function GetCamera(foci: seq<Focus>, activeFocus: string, fallback: Camera, innerWidth: real): Camera {
    match GetFocus(foci, activeFocus)
    case None => fallback
    case Some(focus) =>
      var offset := GetCameraOffset(focus, innerWidth);
      Camera(Add(focus.position, offset.position), Add(focus.position, offset.target))
  }

  /** The camera the scene asks for. */
  function SceneCamera(config: Config, zDir: real, activeFocus: string, fallback: Camera, innerWidth: real): Camera
    requires IsConfig(config)
  {
    GetCamera(Foci(config, zDir), activeFocus, fallback, innerWidth)
  }

  /** `getFocus` returns the first focus carrying the label, and `None`
      exactly when no focus carries it. */
  lemma {:induction false} GetFocusFirst(foci: seq<Focus>, activeFocus: string)
    ensures GetFocus(foci, activeFocus).None? <==> forall i :: 0 <= i < |foci| ==> foci[i].title != activeFocus
    ensures GetFocus(foci, activeFocus).Some? ==>
      exists i :: 0 <= i < |foci| && foci[i] == GetFocus(foci, activeFocus).value && foci[i].title == activeFocus &&
        forall j :: 0 <= j < i ==> foci[j].title != activeFocus
  {
    if |foci| > 0 && foci[0].title != activeFocus {
      GetFocusFirst(foci[1..], activeFocus);
      if GetFocus(foci, activeFocus).Some? {
        var i :| 0 <= i < |foci[1..]| && foci[1..][i] == GetFocus(foci, activeFocus).value &&
          foci[1..][i].title == activeFocus && forall j :: 0 <= j < i ==> foci[1..][j].title != activeFocus;
        assert foci[i + 1] == foci[1..][i];
        forall j | 0 <= j < i + 1 ensures foci[j].title != activeFocus {
          if j > 0 {
            assert foci[j] == foci[1..][j - 1];
          }
        }
      } else {
        forall i | 0 <= i < |foci| ensures foci[i].title != activeFocus {
          if i > 0 {
            assert foci[i] == foci[1..][i - 1];
          }
        }
      }
    }
  }

  /** With pairwise distinct labels, looking up the `i`-th label finds the
      `i`-th focus. */
  lemma {:induction false} GetFocusAt(foci: seq<Focus>, i: int)
    requires 0 <= i < |foci|
    requires forall j, k :: 0 <= j < k < |foci| ==> foci[j].title != foci[k].title
    ensures GetFocus(foci, foci[i].title) == Some(foci[i])
    decreases i
  {
    if i > 0 {
      assert foci[0].title != foci[i].title;
      GetFocusAt(foci[1..], i - 1);
    }
  }

  /** For a label that names a focus, the camera is the focus position moved
      by the offset for the viewport, componentwise, for its position and its
      target; for any other label it is the fallback. */
  lemma CameraAtFocus(foci: seq<Focus>, activeFocus: string, fallback: Camera, innerWidth: real)
    ensures GetFocus(foci, activeFocus).None? ==> GetCamera(foci, activeFocus, fallback, innerWidth) == fallback
    ensures GetFocus(foci, activeFocus).Some? ==>
      var f := GetFocus(foci, activeFocus).value;
      var offset := if innerWidth > WIDE_VIEWPORT then f.wide else f.narrow;
      GetCamera(foci, activeFocus, fallback, innerWidth) ==
        Camera((f.position.0 + offset.position.0, f.position.1 + offset.position.1, f.position.2 + offset.position.2),
               (f.position.0 + offset.target.0, f.position.1 + offset.target.1, f.position.2 + offset.target.2))
  {
  }

  /** There are six foci, with the labels of `FOCUS_LABELS`, pairwise
      distinct. */
  lemma FociLabels(config: Config, zDir: real)
    requires IsConfig(config)
    ensures |Foci(config, zDir)| == 6
    ensures forall i :: 0 <= i < 6 ==> Foci(config, zDir)[i].title == FOCUS_LABELS[i]
    ensures forall i, j :: 0 <= i < j < 6 ==> FOCUS_LABELS[i] != FOCUS_LABELS[j]
  {
  }

  /** Every focus of the scene is found by its own label. */
  lemma FocusByLabel(config: Config, zDir: real, i: int)
    requires IsConfig(config) && 0 <= i < 6
    ensures GetFocus(Foci(config, zDir), FOCUS_LABELS[i]) == Some(Foci(config, zDir)[i])
  {
    FociLabels(config, zDir);
    GetFocusAt(Foci(config, zDir), i);
  }

  /** A label that is not one of the six, such as the empty focus `""`,
      leaves the scene's camera at the fallback. */
  lemma UnknownFocusFallsBack(config: Config, zDir: real, activeFocus: string, fallback: Camera, innerWidth: real)
    requires IsConfig(config)
    requires activeFocus !in FOCUS_LABELS
    ensures GetFocus(Foci(config, zDir), activeFocus).None?
    ensures SceneCamera(config, zDir, activeFocus, fallback, innerWidth) == fallback
  {
    FociLabels(config, zDir);
    GetFocusFirst(Foci(config, zDir), activeFocus);
  }

  /** The empty focus, the one the page starts with, is not a label. */
  lemma EmptyFocusFallsBack(config: Config, zDir: real, fallback: Camera, innerWidth: real)
    requires IsConfig(config)
    ensures SceneCamera(config, zDir, "", fallback, innerWidth) == fallback
  {
    UnknownFocusFallsBack(config, zDir, "", fallback, innerWidth);
  }

  /** The tool-mounting focus follows the gantry: the tool position centred
      and shifted by the bed offsets, 150 further along y, at `zZero` moved by
      `z` along the z axis. */
  lemma UtmFocus(config: Config, zDir: real)
    requires IsConfig(config)
    ensures Foci(config, zDir)[2].position ==
      (ThreeSpace(NumField(config, X), NumField(config, BedLengthOuter)) + NumField(config, BedXOffset),
       ThreeSpace(NumField(config, Y) + 150.0, NumField(config, BedWidthOuter)) + NumField(config, BedYOffset),
       ZZero(config) + zDir * NumField(config, Z))
  {
  }

  /** The first focus looks at the bed's centre, and the Genesis XL kit
      doubles its info card and its camera heights. */
  lemma FirstFocusScale(config: Config, zDir: real)
    requires IsConfig(config)
    ensures Foci(config, zDir)[0].position == (0.0, 0.0, 150.0)
    ensures Foci(config, zDir)[0].info.scale == if IsXl(config) then 7000.0 else 3500.0
    ensures Foci(config, zDir)[0].wide.position.2 == if IsXl(config) then 10000.0 else 5000.0
    ensures Foci(config, zDir)[0].narrow.position.2 == if IsXl(config) then 15000.0 else 7000.0
  {
  }
}
