/**
 The hero scene of the portfolio landing page: six three-dimensional tech
 labels in two groups of three (frontend and backend). A scene-wide
 activation, made of a group flag and an index within the group, selects the
 one label that is emphasised; every label also carries its own pointer-hover
 flag and its own animation state (spin, tilt and scale).

 The rendering engine is not modelled. Floating-point animation values are
 replaced by exact stand-ins: the spin about the vertical axis by the number
 of frame steps taken, and the sine-driven tilt and scale by the frame-clock
 value they were last computed from.
 */
module HeroScene {

  /** The two groups of labels, selected alternately by the group timer. */
  datatype Group = Frontend | Backend

  /** Labels per group, the modulus of the index timer. */
  const TechCount: nat := 3

  /** Labels in the whole scene. */
  const IconCount: nat := 6

  /** A label, identified by its render slot: frontend labels take slots
      0..2 and backend labels slots 3..5, each in list order. */
  type Slot = k: nat | k < IconCount

  /** The other group. */
  function Flip(g: Group): (r: Group)
    ensures r != g
  {
    if g == Frontend then Backend else Frontend
  }

  lemma FlipTwice(g: Group)
    ensures Flip(Flip(g)) == g
  {
  }

  // ---------------------------------------------------------------------------
  // Activation: which group, and which index within it, is emphasised
  // ---------------------------------------------------------------------------

  datatype Activation = Activation(group: Group, index: nat)

  /** Every activation the timers can reach has an index below TechCount. */
  predicate ValidActivation(a: Activation) {
    a.index < TechCount
  }

  /** The state the hero component mounts with. */
  const InitialActivation := Activation(Frontend, 0)

  /** What the 4000 ms interval does: switch to the other group, keeping the index. */
  function GroupFire(a: Activation): (r: Activation)
    ensures r.group != a.group
    ensures r.index == a.index
  {
    a.(group := Flip(a.group))
  }

  /** What the 1500 ms interval does: step to the next index, wrapping after
      the last one, keeping the group. */
  function IndexFire(a: Activation): (r: Activation)
    ensures r.group == a.group
    ensures r.index < TechCount
    ensures a.index + 1 < TechCount ==> r.index == a.index + 1
    ensures a.index + 1 == TechCount ==> r.index == 0
  {
    a.(index := (a.index + 1) % TechCount)
  }

  /** Two group fires restore the group. */
  lemma GroupFireTwice(a: Activation)
    ensures GroupFire(GroupFire(a)) == a
  {
    FlipTwice(a.group);
  }

  /** The index visits 0, 1, 2 and is back where it started after three fires. */
  lemma IndexFireThrice(a: Activation)
    requires ValidActivation(a)
    ensures IndexFire(a) != a
    ensures IndexFire(IndexFire(a)) != a
    ensures IndexFire(IndexFire(IndexFire(a))) == a
  {
  }

  /** Each fire touches only its own component, so the two fires commute. */
  lemma FiresCommute(a: Activation)
    ensures GroupFire(IndexFire(a)) == IndexFire(GroupFire(a))
  {
  }

  // ---------------------------------------------------------------------------
  // The six labels
  // ---------------------------------------------------------------------------

  function GroupOf(k: Slot): Group {
    if k < TechCount then Frontend else Backend
  }

  function PositionOf(k: Slot): nat {
    if k < TechCount then k else k - TechCount
  }

  /** The slot of the label at position i of group g. */
  function SlotOf(g: Group, i: nat): (k: Slot)
    requires i < TechCount
    ensures GroupOf(k) == g && PositionOf(k) == i
    ensures forall j: Slot :: GroupOf(j) == g && PositionOf(j) == i ==> j == k
  {
    if g == Frontend then i
    else
      var k: Slot := TechCount + i;
      assert GroupOf(k) == Backend && PositionOf(k) == i;
      k
  }

  /** A label is active when its group is the active group and its position
      within the group is the active index. */
  predicate IsActive(a: Activation, k: Slot) {
    GroupOf(k) == a.group && PositionOf(k) == a.index
  }

  /** The one active label: it is active, and no other label is. */
  function ActiveSlot(a: Activation): (k: Slot)
    requires ValidActivation(a)
    ensures IsActive(a, k)
    ensures forall j: Slot :: IsActive(a, j) ==> j == k
  {
    SlotOf(a.group, a.index)
  }

  /** Exactly one label is active in every reachable activation. */
  lemma ExactlyOneActive(a: Activation)
    requires ValidActivation(a)
    ensures |set j: Slot | IsActive(a, j)| == 1
  {
    var k := ActiveSlot(a);
    assert (set j: Slot | IsActive(a, j)) == {k};
  }

  const FrontendTechs: seq<string> := ["REACT", "JS", "TS"]
  const BackendTechs: seq<string> := ["NODE", "PYTHON", "API"]

  function Techs(g: Group): (r: seq<string>)
    ensures |r| == TechCount
  {
    if g == Frontend then FrontendTechs else BackendTechs
  }

  /** The text of a label; it is also the label's key among its siblings. */
  function TechName(k: Slot): string {
    Techs(GroupOf(k))[PositionOf(k)]
  }

  /** The base colour of the labels of a group. */
  function Color(g: Group): string {
    if g == Frontend then "#00D9FF" else "#9D4EDD"
  }

  /** The emissive (glow) colour of the labels of a group. */
  function GlowColor(g: Group): string {
    if g == Frontend then "#39FF14" else "#FF2D92"
  }

  /** Colours are per group: two labels share their base colour exactly when
      they are in the same group, and likewise their glow colour; no label
      glows in its own base colour. */
  lemma LabelColors(j: Slot, k: Slot)
    ensures Color(GroupOf(j)) == Color(GroupOf(k)) <==> GroupOf(j) == GroupOf(k)
    ensures GlowColor(GroupOf(j)) == GlowColor(GroupOf(k)) <==> GroupOf(j) == GroupOf(k)
    ensures Color(GroupOf(k)) != GlowColor(GroupOf(k))
  {
  }

  /** The role shown in the overlay under the name while a group is active. */
  function Headline(g: Group): string {
    if g == Frontend then "Frontend Developer" else "Backend Developer"
  }

  /** The headline tells the active group apart: it changes on every group fire. */
  lemma HeadlineTellsGroup(a: Activation)
    ensures Headline(GroupFire(a).group) != Headline(a.group)
  {
    assert Headline(Frontend)[0] != Headline(Backend)[0];
  }

  /** A point in tenths of a scene unit, which makes the layout exact. */
  datatype Point = Point(x: int, y: int, z: int)

  /** Where a group is placed: frontend left of the origin, backend right. */
  function GroupOffset(g: Group): Point {
    if g == Frontend then Point(-30, 0, 0) else Point(30, 0, 0)
  }

  /** Where a label sits inside its group: stacked 1.2 units apart, the middle one at 0. */
  function LocalOffset(i: nat): Point {
    Point(0, (i - 1) * 12, 0)
  }

  /** The resting position of a label in the scene. */
  function WorldPosition(k: Slot): (p: Point)
    ensures p.x < 0 <==> GroupOf(k) == Frontend
    ensures p.y == (PositionOf(k) - 1) * 12 && p.z == 0
  {
    var o := GroupOffset(GroupOf(k));
    var l := LocalOffset(PositionOf(k));
    Point(o.x + l.x, o.y + l.y, o.z + l.z)
  }

  /** No two labels share a text, so the keys inside each group are unique. */
  lemma TechNamesDistinct(j: Slot, k: Slot)
    requires j != k
    ensures TechName(j) != TechName(k)
  {
  }

  /** No two labels share a resting position. */
  lemma PositionsDistinct(j: Slot, k: Slot)
    requires j != k
    ensures WorldPosition(j) != WorldPosition(k)
  {
    if GroupOf(j) == GroupOf(k) {
      assert PositionOf(j) != PositionOf(k);
      assert WorldPosition(j).y != WorldPosition(k).y;
    }
  }

  // ---------------------------------------------------------------------------
  // Per-label animation and hover state
  // ---------------------------------------------------------------------------

  /** The tilt about the x axis and the uniform scale of a label: either
      untouched since mount (no tilt, scale 1), or last written by a frame
      at the given frame-clock value, from the sine of that value. */
  datatype Pose = Rest | Swayed(at: nat)

  /** One label's mutable state: its hover flag, the number of spin steps it
      has taken about the vertical axis, and its pose. */
  datatype IconState = IconState(hovered: bool, spin: nat, pose: Pose)

  const InitialIcon := IconState(false, 0, Rest)

  datatype Scene = Scene(activation: Activation, icons: seq<IconState>)

  predicate Valid(s: Scene) {
    ValidActivation(s.activation) && |s.icons| == IconCount
  }

  /** The scene as mounted: frontend group, index 0, so REACT is the active
      label, and no label hovered, spun or posed. */
  function InitialScene(): (s: Scene)
    ensures Valid(s)
    ensures s.activation.group == Frontend && s.activation.index == 0
    ensures ActiveSlot(s.activation) == 0 && TechName(0) == "REACT"
    ensures forall k: Slot :: !s.icons[k].hovered && s.icons[k].spin == 0 && s.icons[k].pose == Rest
  {
    Scene(InitialActivation, seq(IconCount, _ => InitialIcon))
  }

  /** The emissive intensity of a label's material: the bright value while
      the label is hovered or active, the dim value otherwise. */
  function Emissive(hovered: bool, active: bool): (r: real)
    ensures r == 0.4 || r == 0.2
    ensures r == 0.4 <==> hovered || active
  {
    if hovered || active then 0.4 else 0.2
  }

  /** The emissive intensity label k is drawn with in scene s. */
  function Intensity(s: Scene, k: Slot): real
    requires Valid(s)
  {
    Emissive(s.icons[k].hovered, IsActive(s.activation, k))
  }

  /** The active label is always bright; any other label is bright exactly
      while hovered. */
  lemma IntensityCases(s: Scene, k: Slot)
    requires Valid(s)
    ensures k == ActiveSlot(s.activation) ==> Intensity(s, k) == 0.4
    ensures k != ActiveSlot(s.activation) ==> (Intensity(s, k) == 0.4 <==> s.icons[k].hovered)
  {
  }

  /** Pointer over (b = true) or out (b = false) on label k: only k's hover
      flag changes. */
  function SetHover(s: Scene, k: Slot, b: bool): (r: Scene)
    requires Valid(s)
    ensures Valid(r)
    ensures r.activation == s.activation
    ensures r.icons[k] == s.icons[k].(hovered := b)
    ensures forall j: Slot :: j != k ==> r.icons[j] == s.icons[j]
  {
    s.(icons := s.icons[k := s.icons[k].(hovered := b)])
  }

  /** Hovering is not exclusive: a second label can be hovered while the
      first stays hovered. */
  lemma HoverNotExclusive(s: Scene, j: Slot, k: Slot)
    requires Valid(s)
    ensures SetHover(SetHover(s, j, true), k, true).icons[j].hovered
    ensures SetHover(SetHover(s, j, true), k, true).icons[k].hovered
  {
  }

  /** One label's share of a frame: spin one step, and if active write a
      fresh pose from the frame clock; an inactive label keeps its pose. */
  function Spin(ic: IconState, active: bool, elapsed: nat): IconState {
    IconState(ic.hovered, ic.spin + 1, if active then Swayed(elapsed) else ic.pose)
  }

  /** One animation frame at frame-clock value elapsed. */
  function FrameStep(s: Scene, elapsed: nat): (r: Scene)
    requires Valid(s)
    ensures Valid(r)
    ensures r.activation == s.activation
    ensures forall k: Slot :: r.icons[k].hovered == s.icons[k].hovered
    ensures forall k: Slot :: r.icons[k].spin == s.icons[k].spin + 1
    ensures r.icons[ActiveSlot(s.activation)].pose == Swayed(elapsed)
    ensures forall k: Slot :: k != ActiveSlot(s.activation) ==> r.icons[k].pose == s.icons[k].pose
  {
    var icons := seq(IconCount, (j: int) requires 0 <= j < IconCount && |s.icons| == IconCount =>
      Spin(s.icons[j], IsActive(s.activation, j), elapsed));
    s.(icons := icons)
  }

  /** Everything that can happen to the scene. */
  datatype Event =
    | GroupTimer
    | IndexTimer
    | Frame(elapsed: nat)
    | PointerOver(icon: Slot)
    | PointerOut(icon: Slot)

  function Step(s: Scene, e: Event): (r: Scene)
    requires Valid(s)
    ensures Valid(r)
    ensures (e.GroupTimer? || e.IndexTimer?) ==> r.icons == s.icons
    ensures (e.Frame? || e.PointerOver? || e.PointerOut?) ==> r.activation == s.activation
  {
    match e
    case GroupTimer => s.(activation := GroupFire(s.activation))
    case IndexTimer => s.(activation := IndexFire(s.activation))
    case Frame(t) => FrameStep(s, t)
    case PointerOver(k) => SetHover(s, k, true)
    case PointerOut(k) => SetHover(s, k, false)
  }

  /** A group fire and an index fire due at the same instant give the same
      scene whichever is delivered first. */
  lemma TimerStepsCommute(s: Scene)
    requires Valid(s)
    ensures Step(Step(s, GroupTimer), IndexTimer) == Step(Step(s, IndexTimer), GroupTimer)
  {
  }

  /** The number of frames in an event sequence. */
  function FrameCount(es: seq<Event>): nat {
    if |es| == 0 then 0 else (if es[0].Frame? then 1 else 0) + FrameCount(es[1..])
  }

  /** Replays a sequence of events. Every label's spin grows by the number of
      frames replayed, whether or not it was ever active or hovered, so spin
      never decreases. */
  function Run(s: Scene, es: seq<Event>): (r: Scene)
    requires Valid(s)
    ensures Valid(r)
    ensures forall k: Slot :: r.icons[k].spin == s.icons[k].spin + FrameCount(es)
    decreases |es|
  {
    if |es| == 0 then s else Run(Step(s, es[0]), es[1..])
  }

  predicate NoTimer(es: seq<Event>) {
    forall i :: 0 <= i < |es| ==> !es[i].GroupTimer? && !es[i].IndexTimer?
  }

  /** Frames and pointer events never change the activation. */
  lemma {:induction false} OnlyTimersActivate(s: Scene, es: seq<Event>)
    requires Valid(s)
    requires NoTimer(es)
    ensures Run(s, es).activation == s.activation
    decreases |es|
  {
    if |es| > 0 {
      assert NoTimer(es[1..]) by {
        forall i | 0 <= i < |es[1..]|
          ensures !es[1..][i].GroupTimer? && !es[1..][i].IndexTimer?
        {
          assert es[1..][i] == es[i + 1];
        }
      }
      OnlyTimersActivate(Step(s, es[0]), es[1..]);
    }
  }

  /** A label that stops being active keeps the tilt and scale of its last
      active frame: nothing resets its pose. */
  lemma PoseSurvivesDeactivation(s: Scene, elapsed: nat)
    requires Valid(s)
    ensures var k := ActiveSlot(s.activation);
            var r := Step(FrameStep(s, elapsed), GroupTimer);
            !IsActive(r.activation, k) && r.icons[k].pose == Swayed(elapsed)
  {
  }
}
