/** The contour tracer of touchscan.py: the initial outward probe
    (lines 79-93) and one pass of its `while True` loop (lines 95-143).
    Probe outcomes are inputs; the motion commands a pass issues are its
    output. */
module Tracing {
  import opened Geometry
  import opened Closure

  /** The script's tuning constants. */
  datatype Config = Config(
    probeRadius: real,
    initialProbeLen: real,
    probingRadius: real,
    probingSegments: nat,
    rounds: nat)
  {
    predicate Valid() {
      0.0 <= probeRadius && 1 <= probingSegments && 1 <= rounds
    }

    /** Length of one forward probe: a nominal circle of `probingRadius`
        cut into `probingSegments` arcs, so one arc per sweep step. */
    function ProbeLen(): (l: real)
      requires Valid()
      ensures l == probingRadius * SweepStep()
      ensures 0.0 <= probingRadius ==> 0.0 <= l
    {
      probingRadius * 2.0 * PI / probingSegments as real
    }

    /** The angle a miss turns the probing direction by. */
    function SweepStep(): (d: real)
      requires Valid()
      ensures 0.0 < d <= 2.0 * PI
    {
      PI * 2.0 / probingSegments as real
    }
  }

  /** The values set at touchscan.py:7 and 73-76. */
  const Script := Config(2.0, 20.0, 2.0 * 0.25, 20, 5)

  lemma ScriptIsValid()
    ensures Script.Valid() && Script.ProbeLen() == PI / 20.0
  {
  }

  /** `probingSegments` misses in a row turn the probing direction through
      one full turn, back to where it started. */
  lemma MissesComeFullCircle(cfg: Config, a: real)
    requires cfg.Valid() && Normal(a)
    ensures Sweep(a, cfg.SweepStep(), cfg.probingSegments) == a
  {
    assert cfg.SweepStep() == 2.0 * PI / cfg.probingSegments as real;
    SweepFullTurn(a, cfg.probingSegments);
  }

  /** A motion command: a plain move (G1), a probe that stops on contact
      (G38.3) and a probe that stops on release (G38.5). */
  datatype Command = Move(to: Point) | ProbeUntilHit(to: Point) | ProbeUntilClear(to: Point)

  /** The closure test: the raw contact `p` lies closer than 1.5 probe radii
      to the anchor, compared on squares. */
  predicate NearStart(anchor: Point, p: Point, probeRadius: real) {
    var dx := anchor.x - p.x;
    var dy := anchor.y - p.y;
    dx * dx + dy * dy < (probeRadius * 1.5) * (probeRadius * 1.5)
  }

  /** The squared comparison agrees with comparing the square root of the
      squared distance against 1.5 probe radii. */
  lemma NearStartIsDistanceTest(anchor: Point, p: Point, probeRadius: real, dist: real)
    requires 0.0 <= probeRadius && 0.0 <= dist && dist * dist == SqDist(anchor, p)
    ensures NearStart(anchor, p, probeRadius) <==> dist < probeRadius * 1.5
  {
    SqrtComparison(SqDist(anchor, p), dist, probeRadius * 1.5);
  }

  /** After a hit the probing direction is the travel direction rotated by
      3*PI/2, and the estimate is projected in the reverse of that; both are
      normal angles for any principal atan2 value. */
  lemma HitAngles(heading: real)
    requires -(PI as real) < heading <= PI
    ensures Normal(AddAngle(heading, 3.0 * PI / 2.0))
    ensures Normal(AddAngle(AddAngle(heading, 3.0 * PI / 2.0), PI))
  {
  }

  /** The state of one tracing run. */
  class Tracer {
    const cfg: Config
    const trig: Trig
    const startPos: Point

    var angle: real
    var position: Point
    var prevHit: Point
    var first: bool
    var round: nat
    var inStartArea: bool
    /** Estimated surface points, in the order the contacts occurred. */
    var hits: seq<Point>
    /** Set when the loop breaks after the last round. */
    var finished: bool

    /** The closure test's verdict on every contact of the loop, in order. */
    ghost var nears: seq<bool>

    ghost predicate Valid()
      reads this
    {
      cfg.Valid() && trig.Valid() && Normal(angle) &&
      |hits| == |nears| + 1 &&
      Progress(round, inStartArea) == After(nears) &&
      round <= cfg.rounds && (finished <==> round == cfg.rounds)
    }

    /** The state right after the first contact at `hitPos`. */
    ghost predicate StartedAt(hitPos: Point)
      reads this
    {
      hits == [TargetPoint(trig, hitPos, cfg.probeRadius, 0.0)] &&
      hits[0] == TargetPoint(trig, hitPos, cfg.probeRadius, AddAngle(angle, PI)) &&
      angle == PI && first && round == 0 && inStartArea &&
      prevHit == hitPos && position == hitPos && !finished
    }

    /** Set up from the first contact (touchscan.py:85-93). */
    constructor (cfg: Config, trig: Trig, startPos: Point, hitPos: Point)
      requires cfg.Valid() && trig.Valid()
      ensures Valid() && StartedAt(hitPos)
      ensures this.cfg == cfg && this.trig == trig && this.startPos == startPos
    {
      this.cfg, this.trig, this.startPos := cfg, trig, startPos;
      angle := 0.0;
      hits, nears := [], [];
      new;
      Emit(hitPos, angle);
      angle := AddAngle(angle, PI);
      first := true;
      round := 0;
      prevHit := hitPos;
      position := hitPos;
      inStartArea := true;
      finished := false;
    }

    /** Record the estimate one probe radius from contact `pos` along `a`
        (touchscan.py:50-56). */
    method Emit(pos: Point, a: real)
      modifies this`hits
      ensures hits == old(hits) + [TargetPoint(trig, pos, cfg.probeRadius, a)]
    {
      hits := hits + [TargetPoint(trig, pos, cfg.probeRadius, a)];
    }

    /** Where the next pass of the loop probes: one probe length from the
        current position along the working angle. */
    function NextTarget(): (p: Point)
      reads this
      requires Valid()
      ensures trig.Pythagorean() ==> SqDist(p, position) == cfg.ProbeLen() * cfg.ProbeLen()
    {
      TargetPoint(trig, position, cfg.ProbeLen(), angle)
    }

    /** One pass of the loop body, given the outcome of its probe. */
    method Step(hit: bool, probed: Point) returns (cmds: seq<Command>)
      requires Valid() && !finished
      modifies this
      ensures Valid()
      ensures var p := old(NextTarget());
        cmds == (if old(first) then [Move(p)] else []) + [ProbeUntilHit(p)]
                + (if finished then [ProbeUntilClear(startPos), ProbeUntilHit(startPos)] else [])
      ensures position == probed
      ensures !hit ==>
        angle == AddAngle(old(angle), cfg.SweepStep()) && !first &&
        prevHit == old(prevHit) && hits == old(hits) && nears == old(nears) &&
        round == old(round) && inStartArea == old(inStartArea) && !finished
      ensures hit ==>
        var heading := trig.atan2(probed.y - old(prevHit).y, probed.x - old(prevHit).x);
        angle == AddAngle(heading, 3.0 * PI / 2.0) && first && prevHit == probed &&
        hits == old(hits) + [TargetPoint(trig, probed, cfg.probeRadius, AddAngle(angle, PI))] &&
        nears == old(nears) + [NearStart(hits[0], probed, cfg.probeRadius)] &&
        Progress(round, inStartArea) == Observe(old(Progress(round, inStartArea)), nears[|nears| - 1])
      ensures finished <==> round == cfg.rounds
    {
      var p := TargetPoint(trig, position, cfg.ProbeLen(), angle);
      cmds := [];
      if first {
        cmds := cmds + [Move(p)];
        first := false;
      }
      cmds := cmds + [ProbeUntilHit(p)];
      position := probed;
      if hit {
        OnHit();
        if finished {
          cmds := cmds + [ProbeUntilClear(startPos), ProbeUntilHit(startPos)];
        }
      } else {
        angle := AddAngle(angle, cfg.SweepStep());
      }
    }

    /** The contact branch of the loop body (touchscan.py:113-141), for a
        contact at `position`. */
    method OnHit()
      requires Valid() && !finished
      modifies this`angle, this`first, this`prevHit, this`hits, this`nears,
        this`round, this`inStartArea, this`finished
      ensures Valid()
      ensures var heading := trig.atan2(position.y - old(prevHit).y, position.x - old(prevHit).x);
        angle == AddAngle(heading, 3.0 * PI / 2.0) && first && prevHit == position &&
        hits == old(hits) + [TargetPoint(trig, position, cfg.probeRadius, AddAngle(angle, PI))] &&
        nears == old(nears) + [NearStart(hits[0], position, cfg.probeRadius)] &&
        Progress(round, inStartArea) == Observe(old(Progress(round, inStartArea)), nears[|nears| - 1])
    {
      var heading := trig.atan2(position.y - prevHit.y, position.x - prevHit.x);
      angle := AddAngle(heading, 3.0 * PI / 2.0);
      HitAngles(heading);
      Emit(position, AddAngle(angle, PI));
      first := true;
      prevHit := position;
      if |hits| > 0 {
        CountClosure(NearStart(hits[0], position, cfg.probeRadius));
      }
    }

    /** The effect of one closure verdict on the round counter
        (touchscan.py:130-141); the loop breaks when the last round is
        counted. */
    method CountClosure(near: bool)
      requires Progress(round, inStartArea) == After(nears)
      requires round < cfg.rounds && !finished
      modifies this`nears, this`round, this`inStartArea, this`finished
      ensures nears == old(nears) + [near]
      ensures Progress(round, inStartArea) == Observe(old(Progress(round, inStartArea)), near)
      ensures Progress(round, inStartArea) == After(nears)
      ensures round <= cfg.rounds && (finished <==> round == cfg.rounds)
    {
      AfterAppend(nears, near);
      nears := nears + [near];
      if near {
        if !inStartArea {
          inStartArea := true;
          round := round + 1;
          if round == cfg.rounds {
            finished := true;
          }
        }
      } else {
        inStartArea := false;
      }
    }
  }

  /** How the run begins. */
  datatype Start = NoInitialContact | Started(tracer: Tracer)

  /** The outward probe along angle 0 from the start position
      (touchscan.py:79-93); without contact the script exits. */
  method Begin(cfg: Config, trig: Trig, startPos: Point, hit: bool, hitPos: Point)
    returns (probe: Command, start: Start)
    requires cfg.Valid() && trig.Valid()
    ensures probe == ProbeUntilHit(TargetPoint(trig, startPos, cfg.initialProbeLen, 0.0))
    ensures start.NoInitialContact? <==> !hit
    ensures start.Started? ==>
      fresh(start.tracer) && start.tracer.Valid() && start.tracer.StartedAt(hitPos) &&
      start.tracer.cfg == cfg && start.tracer.trig == trig && start.tracer.startPos == startPos
  {
    probe := ProbeUntilHit(TargetPoint(trig, startPos, cfg.initialProbeLen, 0.0));
    if !hit {
      return probe, NoInitialContact;
    }
    var t := new Tracer(cfg, trig, startPos, hitPos);
    start := Started(t);
  }

  /** The number of contacts in a script of probe outcomes. */
  function Contacts(outcomes: seq<(bool, Point)>): nat
  {
    if outcomes == [] then 0
    else Contacts(outcomes[..|outcomes| - 1]) + (if outcomes[|outcomes| - 1].0 then 1 else 0)
  }

  /** The closure verdicts of the contacts in a script of probe outcomes,
      each raw contact tested against `anchor`; misses give no verdict. */
  function Verdicts(anchor: Point, outcomes: seq<(bool, Point)>, probeRadius: real): (v: seq<bool>)
    ensures |v| == Contacts(outcomes)
  {
    if outcomes == [] then []
    else
      var last := outcomes[|outcomes| - 1];
      Verdicts(anchor, outcomes[..|outcomes| - 1], probeRadius)
        + (if last.0 then [NearStart(anchor, last.1, probeRadius)] else [])
  }

  /** No proper prefix of the first `n` outcomes, seen after the verdicts
      `base`, has counted the last round: the loop could not have broken
      before pass `n`. */
  ghost predicate OpenBefore(base: seq<bool>, anchor: Point, outcomes: seq<(bool, Point)>, n: nat, cfg: Config)
    requires n <= |outcomes|
  {
    forall k :: 0 <= k < n ==>
      After(base + Verdicts(anchor, outcomes[..k], cfg.probeRadius)).round < cfg.rounds
  }

  lemma OpenOneMore(base: seq<bool>, anchor: Point, outcomes: seq<(bool, Point)>, n: nat, cfg: Config)
    requires n < |outcomes| && OpenBefore(base, anchor, outcomes, n, cfg)
    requires After(base + Verdicts(anchor, outcomes[..n], cfg.probeRadius)).round < cfg.rounds
    ensures OpenBefore(base, anchor, outcomes, n + 1, cfg)
  {
  }

  /** The tracing loop, fed a script of probe outcomes: it runs passes until
      the last round is closed or the script is used up. */
  method Trace(t: Tracer, outcomes: seq<(bool, Point)>) returns (cmds: seq<Command>, used: nat)
    requires t.Valid() && !t.finished
    modifies t
    ensures t.Valid() && used <= |outcomes|
    ensures t.finished || used == |outcomes|
    ensures OpenBefore(old(t.nears), t.hits[0], outcomes, used, t.cfg)
    ensures |t.hits| == |old(t.hits)| + Contacts(outcomes[..used])
    ensures t.hits[..|old(t.hits)|] == old(t.hits)
    ensures t.nears == old(t.nears) + Verdicts(t.hits[0], outcomes[..used], t.cfg.probeRadius)
    ensures old(t.nears) == [] ==>
      t.round == Returns(Verdicts(t.hits[0], outcomes[..used], t.cfg.probeRadius))
    ensures t.finished ==>
      |cmds| >= 2 && cmds[|cmds| - 2..] == [ProbeUntilClear(t.startPos), ProbeUntilHit(t.startPos)]
    ensures forall i :: 0 <= i < |cmds| && cmds[i].ProbeUntilClear? ==> t.finished && i == |cmds| - 2
  {
    cmds, used := [], 0;
    ghost var anchor, base := t.hits[0], t.nears;
    while used < |outcomes| && !t.finished
      invariant t.Valid() && used <= |outcomes|
      invariant |t.hits| == |old(t.hits)| + Contacts(outcomes[..used])
      invariant t.hits[..|old(t.hits)|] == old(t.hits)
      invariant t.nears == old(t.nears) + Verdicts(t.hits[0], outcomes[..used], t.cfg.probeRadius)
      invariant t.hits[0] == anchor
      invariant OpenBefore(base, anchor, outcomes, used, t.cfg)
      invariant t.finished ==>
        |cmds| >= 2 && cmds[|cmds| - 2..] == [ProbeUntilClear(t.startPos), ProbeUntilHit(t.startPos)]
      invariant forall i :: 0 <= i < |cmds| && cmds[i].ProbeUntilClear? ==> t.finished && i == |cmds| - 2
    {
      OpenOneMore(base, anchor, outcomes, used, t.cfg);
      var (hit, pos) := outcomes[used];
      var pass := t.Step(hit, pos);
      cmds := cmds + pass;
      assert outcomes[..used + 1][..used] == outcomes[..used];
      used := used + 1;
    }
    AfterIsReturns(t.nears);
    if old(t.nears) == [] {
      assert t.nears == Verdicts(t.hits[0], outcomes[..used], t.cfg.probeRadius);
    }
  }
}
