/** The arithmetic of `spinWheel` (src/components/Wheel.tsx): the weighted
    outcome, the section the wheel stops on, the final rotation and the
    tick-sound schedule. The `isSpinning` latch itself belongs to the
    session and is modelled in GameSession.Game.SpinWheel. */
module Spin {
  import Draws

  datatype Outcome = Win | Shutdown | Reinstall

  /** One painted section of the wheel, with the percentage its label shows. */
  datatype Segment = Segment(outcome: Outcome, percent: nat)

  /** The `segments` table, in drawing order: "1%", "10%", "89%". */
  const Segments: seq<Segment> := [Segment(Win, 1), Segment(Reinstall, 10), Segment(Shutdown, 89)]

  /** Sum of the percentages of `segs`. */
  function TotalPercent(segs: seq<Segment>): nat {
    if segs == [] then 0 else segs[0].percent + TotalPercent(segs[1..])
  }

  /** Reference reading of the segment table: walk the sections in order,
      each claiming the next `percent` units of the range [0, 100). */
  function SegmentAt(segs: seq<Segment>, random: real): Outcome
    requires segs != []
    decreases |segs|
  {
    if |segs| == 1 || random < segs[0].percent as real then segs[0].outcome
    else SegmentAt(segs[1..], random - segs[0].percent as real)
  }

  /** The threshold chain on `random = Math.random() * 100`. */
  function Draw(random: real): Outcome {
    if random < 1.0 then Win
    else if random < 11.0 then Reinstall
    else Shutdown
  }

  /** The percentages on the wheel add up to exactly 100. */
  lemma SegmentsCoverHundred()
    ensures TotalPercent(Segments) == 100
  {
    assert Segments[1..][1..][1..] == [];
  }

  /** The threshold chain is the segment table read cumulatively: every
      draw in [0, 100) lands on the section the labels assign to it. */
  lemma {:induction false} DrawMatchesSegments(random: real)
    requires 0.0 <= random < 100.0
    ensures Draw(random) == SegmentAt(Segments, random)
  {
    var tail := Segments[1..];
    assert tail == [Segment(Reinstall, 10), Segment(Shutdown, 89)];
    assert tail[1..] == [Segment(Shutdown, 89)];
  }

  /** The three outcomes partition [0, 100) into intervals of lengths
      1, 10 and 89, the percentages printed on the sections. */
  lemma DrawIntervals(random: real)
    requires 0.0 <= random < 100.0
    ensures Draw(random) == Win <==> 0.0 <= random < 1.0
    ensures Draw(random) == Reinstall <==> 1.0 <= random < 11.0
    ensures Draw(random) == Shutdown <==> 11.0 <= random < 100.0
    ensures 1.0 - 0.0 == Segments[0].percent as real
    ensures 11.0 - 1.0 == Segments[1].percent as real
    ensures 100.0 - 11.0 == Segments[2].percent as real
  {
  }

  /** `targetSection`: the index of the section painted for the outcome. */
  function TargetSection(o: Outcome): (k: nat)
    ensures k < |Segments| && Segments[k].outcome == o
  {
    match o
    case Win => 0
    case Reinstall => 1
    case Shutdown => 2
  }

  /** `360 / 3`. */
  const SectionAngle: int := 360 / 3

  /** `targetSection * sectionAngle + sectionAngle / 2`. */
  function TargetAngle(k: nat): int {
    k * SectionAngle + SectionAngle / 2
  }

  /** `8 + Math.floor(Math.random() * 4)`. */
  function SpinCount(u: real): (spins: int)
    requires Draws.IsUnit(u)
    ensures 8 <= spins <= 11
  {
    8 + Draws.ScaledFloor(u, 4)
  }

  /** `spins * 360 + (360 - targetAngle)`. */
  function FinalRotation(spins: int, k: nat): int {
    spins * 360 + (360 - TargetAngle(k))
  }

  /** The angle of the wheel, measured clockwise from its top at rest, that
      sits under the fixed pointer at the top once the wheel has turned
      clockwise by `rotation` degrees (`rotate: rotation`). */
  function PointerAngle(rotation: int): (a: int)
    ensures 0 <= a < 360
  {
    (360 - rotation % 360) % 360
  }

  /** The target angle is the middle of section k: 60, 180 or 300 degrees. */
  lemma TargetAngleCentred(o: Outcome)
    ensures TargetAngle(TargetSection(o)) in {60, 180, 300}
    ensures TargetAngle(TargetSection(o)) == TargetSection(o) * 120 + 60
    ensures TargetAngle(TargetSection(o)) / 120 == TargetSection(o)
  {
  }

  /** The layout the rotation arithmetic assumes: section k of `segments`
      spans the arc [120k, 120k + 120) clockwise from the top, so that
      `targetAngle` is its middle. */
  function SectionAt(angle: int): Outcome
    requires 0 <= angle < 360
  {
    Segments[angle / SectionAngle].outcome
  }

  /** The final rotation lies in [2940, 4260] and modulo a full turn it is
      `360 - targetAngle`. In the 120-degree layout of `SectionAt`, a spin
      from rest therefore stops with the middle of the target section, which
      shows the drawn outcome, under the pointer. */
  lemma FinalRotationLands(spins: int, o: Outcome)
    requires 8 <= spins <= 11
    ensures 2940 <= FinalRotation(spins, TargetSection(o)) <= 4260
    ensures FinalRotation(spins, TargetSection(o)) % 360 == 360 - TargetAngle(TargetSection(o))
    ensures PointerAngle(FinalRotation(spins, TargetSection(o))) == TargetAngle(TargetSection(o))
    ensures PointerAngle(FinalRotation(spins, TargetSection(o))) / SectionAngle == TargetSection(o)
    ensures SectionAt(PointerAngle(FinalRotation(spins, TargetSection(o)))) == o
  {
    var k := TargetSection(o);
    var a := TargetAngle(k);
    assert a == 120 * k + 60 && 0 < a < 360;
    var r := FinalRotation(spins, k);
    assert r == (spins + 1) * 360 - a;
    RemainderOfTurns(spins + 1, a);
  }

  /** What the rim of the wheel shows at one angle: a section's colour, or
      no section at all. */
  datatype Paint = Painted(outcome: Outcome) | Bare

  /** The arc, clockwise from the top and before its turn, on which the clip
      polygon of section i reaches the rim: the quadrant [0, 90] for section
      0; [90, 180] for section 1, whose chord from the top to the right edge
      stays inside the rim; [180, 315] for section 2, which closes along the
      diagonal to the top-left corner. */
  function RimArc(i: nat): (int, int)
    requires i < |Segments|
  {
    if i == 0 then (0, 90) else if i == 1 then (90, 180) else (180, 315)
  }

  /** Section i, turned by `i * 120` degrees, reaches the rim at `angle`. */
  predicate PaintsRim(i: nat, angle: int)
    requires i < |Segments|
  {
    var local := (angle - i * 120) % 360;
    RimArc(i).0 <= local <= RimArc(i).1
  }

  /** The rim as the sections are painted: each later section is drawn over
      the earlier ones. */
  function PaintedAt(angle: int): Paint {
    if PaintsRim(2, angle) then Painted(Segments[2].outcome)
    else if PaintsRim(1, angle) then Painted(Segments[1].outcome)
    else if PaintsRim(0, angle) then Painted(Segments[0].outcome)
    else Bare
  }

  /** On the wheel as painted, a reinstall spin from rest stops with the
      shutdown colour under the pointer: the 180-degree middle of section 1
      in the arithmetic's layout lies inside section 2's turned arc
      [60, 195], and outside section 1's [210, 300]. */
  lemma PaintedWheelMissesReinstall(spins: int)
    requires 8 <= spins <= 11
    ensures PointerAngle(FinalRotation(spins, TargetSection(Reinstall))) == 180
    ensures PaintedAt(PointerAngle(FinalRotation(spins, TargetSection(Reinstall)))) == Painted(Shutdown)
    ensures SectionAt(PointerAngle(FinalRotation(spins, TargetSection(Reinstall)))) == Reinstall
  {
    FinalRotationLands(spins, Reinstall);
    assert (180 - 2 * 120) % 360 == 300;
  }

  /** `n` full turns less an angle inside a turn leave that angle short of a
      turn. */
  lemma RemainderOfTurns(n: int, a: int)
    requires 0 < a < 360
    ensures (n * 360 - a) % 360 == 360 - a
  {
    var q := n - 1;
    assert n * 360 - a == q * 360 + (360 - a);
  }

  /** The `rotation` state of a mounted wheel. A fresh wheel is at rest. */
  class Dial {
    var rotation: int

    constructor ()
      ensures rotation == 0
    {
      rotation := 0;
    }
  }

  datatype TickSound = FastTick | SlowTick

  /** `maxTicks`. */
  const MaxTicks: nat := 60

  /** The tick interval of `spinWheel`. `firings` is how many times the
      100 ms interval fires before the 8000 ms announce timeout clears it;
      each firing increments `tickCount`, plays a fast tick while
      `tickCount < maxTicks * 0.7` and a slow one after, and clears the
      interval itself once `tickCount >= maxTicks`. */
  method TickSounds(firings: nat) returns (sounds: seq<TickSound>)
    ensures |sounds| == if firings < MaxTicks then firings else MaxTicks
    ensures forall k :: 0 <= k < |sounds| ==> (sounds[k] == FastTick <==> k + 1 < 42)
  {
    var tickCount := 0;
    var cleared := false;
    sounds := [];
    while tickCount < firings && !cleared
      invariant tickCount <= firings && tickCount <= MaxTicks
      invariant |sounds| == tickCount
      invariant cleared <==> tickCount == MaxTicks
      invariant forall k :: 0 <= k < |sounds| ==> (sounds[k] == FastTick <==> k + 1 < 42)
    {
      tickCount := tickCount + 1;
      if (tickCount as real) < (MaxTicks as real) * 0.7 {
        sounds := sounds + [FastTick];
      } else {
        sounds := sounds + [SlowTick];
      }
      if tickCount >= MaxTicks {
        cleared := true;
      }
    }
  }
}
