/**
 * SceneKit values the scene engines store, kept symbolic: camera
 * transforms as products of rotation and translation factors, node
 * rotations as axis-angle vectors, CABasicAnimation records, and the
 * closures handed to `DispatchQueue.main.asyncAfter` as (delay, effect)
 * entries.
 */
module Scene {
  import opened Wrappers

  /** One factor of a camera transform. */
  datatype Factor =
    | RotateY(angle: real)                  // SCNMatrix4MakeRotation(angle, 0, 1, 0)
    | RotateX(angle: real)                  // SCNMatrix4MakeRotation(angle, 1, 0, 0)
    | Translate(x: real, y: real, z: real)  // SCNMatrix4MakeTranslation(x, y, z)

  /**
   * A transform as the matrix product of its factors, read left to right.
   * The empty product is `SCNMatrix4Identity`.
   */
  type Transform = seq<Factor>

  const Identity: Transform := []

  /** `SCNMatrix4Mult(f, t)`: the factor `f` multiplied on the left of `t`. */
  function Mult(f: Factor, t: Transform): (r: Transform)
    ensures |r| == |t| + 1 && r[0] == f && r[1..] == t
  {
    [f] + t
  }

  /** `SCNVector4(x, y, z, angle)` used as a node's axis-angle rotation. */
  datatype Rotation = Rotation(x: real, y: real, z: real, angle: real)

  /** A node's rotation before anything sets it. */
  const NoRotation: Rotation := Rotation(0.0, 0.0, 0.0, 0.0)

  /** `SCNVector4(0, 1, 0, angle)`. */
  function AboutY(angle: real): (r: Rotation)
    ensures r.angle == angle && r.x == 0.0 && r.y == 1.0 && r.z == 0.0
  {
    Rotation(0.0, 1.0, 0.0, angle)
  }

  /** A camera `CABasicAnimation` on "transform", always ease-in-ease-out. */
  datatype TransformAnimation = TransformAnimation(from: Transform, to: Transform, duration: real)

  /** The scene-graph nodes whose rotation is animated. */
  datatype Node = SolarSystemPivot | EarthSystemPivot | EarthBody | SunBody

  /** A node `CABasicAnimation` on "rotation", always ease-in-ease-out. */
  datatype RotationAnimation = RotationAnimation(node: Node, from: Rotation, to: Rotation, duration: real)

  /** `background.contents`: nothing, or the Milky Way star image. */
  datatype Background = NoImage | StarsImage

  /** What a deferred closure does when it runs. */
  datatype Effect = SetSunOpacity(opacity: real) | SetBackground(contents: Background)

  /**
   * A closure passed to `asyncAfter(deadline: .now() + delay)` when the
   * main queue's clock read `scheduledAt`.
   */
  datatype Delayed = Delayed(scheduledAt: real, delay: real, effect: Effect)
  {
    /** The instant from which the main queue may run the closure. */
    function Deadline(): real
    {
      scheduledAt + delay
    }
  }

  /** The visible state the effects act on. */
  datatype Visibility = Visibility(sunOpacity: real, background: Background)

  function Apply(v: Visibility, e: Effect): (r: Visibility)
    ensures e.SetSunOpacity? ==> r.sunOpacity == e.opacity && r.background == v.background
    ensures e.SetBackground? ==> r.background == e.contents && r.sunOpacity == v.sunOpacity
  {
    match e
    case SetSunOpacity(o) => v.(sunOpacity := o)
    case SetBackground(b) => v.(background := b)
  }

  /** The two visible properties a closure can set. */
  datatype Property = Opacity | Contents

  predicate Sets(e: Effect, q: Property)
  {
    match q
    case Opacity => e.SetSunOpacity?
    case Contents => e.SetBackground?
  }

  /**
   * The main queue runs closure `j` of schedule `p` no later than closure
   * `k`: its deadline is earlier, or the same and it was scheduled first.
   */
  ghost predicate RunsNoLater(p: seq<Delayed>, j: int, k: int)
    requires 0 <= j < |p| && 0 <= k < |p|
  {
    p[j].Deadline() < p[k].Deadline() || (p[j].Deadline() == p[k].Deadline() && j <= k)
  }

  /** The closure the main queue runs next: the earliest deadline, the first scheduled on a tie. */
  function NextToRun(p: seq<Delayed>): (i: nat)
    requires p != []
    ensures i < |p| && forall j :: 0 <= j < |p| ==> RunsNoLater(p, i, j)
    decreases |p|
  {
    if |p| == 1 then 0
    else
      var k := NextToRun(p[1..]) + 1;
      RunsNoLaterInTail(p, p[1..], k - 1, k);
      if p[0].Deadline() <= p[k].Deadline() then 0 else k
  }

  /** A closure running no later than every other one of `p[1..]` does so in `p` from index 1 on. */
  lemma RunsNoLaterInTail(p: seq<Delayed>, tail: seq<Delayed>, kt: nat, k: nat)
    requires 2 <= |p| && tail == p[1..] && kt < |tail| && k == kt + 1
    requires forall j :: 0 <= j < |tail| ==> RunsNoLater(tail, kt, j)
    ensures forall j :: 1 <= j < |p| ==> RunsNoLater(p, k, j)
    ensures forall j :: 1 <= j < |p| ==> p[k].Deadline() <= p[j].Deadline()
  {
    forall j | 1 <= j < |p|
      ensures RunsNoLater(p, k, j) && p[k].Deadline() <= p[j].Deadline()
    {
      assert RunsNoLater(tail, kt, j - 1);
    }
  }

  /** The schedule with closure `i` taken out, the others in their order. */
  function Without(p: seq<Delayed>, i: nat): (r: seq<Delayed>)
    requires i < |p|
    ensures |r| == |p| - 1
    ensures forall j :: 0 <= j < |r| ==> r[j] == p[if j < i then j else j + 1]
  {
    p[..i] + p[i + 1..]
  }

  /** Taking a closure out and putting it back gives the same closures, as often as before. */
  lemma WithoutIsPermutation(p: seq<Delayed>, i: nat)
    requires i < |p|
    ensures multiset(Without(p, i)) + multiset{p[i]} == multiset(p)
  {
    assert p == p[..i] + [p[i]] + p[i + 1..];
  }

  /** The visible state once every closure of schedule `p` has run, in the main queue's order. */
  function Settle(v: Visibility, p: seq<Delayed>): Visibility
    decreases |p|
  {
    if p == [] then v
    else
      var i := NextToRun(p);
      Settle(Apply(v, p[i].effect), Without(p, i))
  }

  /** The closure that runs last among those setting `q`, or `None` when none sets it. */
  function LastToRun(p: seq<Delayed>, q: Property): (r: Option<nat>)
    ensures r.Some? ==> (r.value < |p| && Sets(p[r.value].effect, q)
      && forall j :: 0 <= j < |p| && Sets(p[j].effect, q) ==> RunsNoLater(p, j, r.value))
    ensures r.None? <==> forall j :: 0 <= j < |p| ==> !Sets(p[j].effect, q)
    decreases |p|
  {
    if p == [] then None
    else
      var n := |p| - 1;
      var r := LastToRun(p[..n], q);
      assert forall j :: 0 <= j < n ==> p[..n][j] == p[j];
      if Sets(p[n].effect, q) && (r.None? || p[r.value].Deadline() <= p[n].Deadline()) then Some(n) else r
  }

  /** The Sun's opacity once `p` has run: set by the last opacity closure to run, else `current`. */
  function FinalOpacity(current: real, p: seq<Delayed>): real
  {
    match LastToRun(p, Opacity)
    case None => current
    case Some(i) => p[i].effect.opacity
  }

  /** The background once `p` has run: set by the last background closure to run, else `current`. */
  function FinalBackground(current: Background, p: seq<Delayed>): Background
  {
    match LastToRun(p, Contents)
    case None => current
    case Some(i) => p[i].effect.contents
  }

  /** A closure that runs no earlier than every other closure setting `q` is the last to run. */
  lemma LastToRunIsUnique(p: seq<Delayed>, q: Property, k: nat)
    requires k < |p| && Sets(p[k].effect, q)
    requires forall j :: 0 <= j < |p| && Sets(p[j].effect, q) ==> RunsNoLater(p, j, k)
    ensures LastToRun(p, q) == Some(k)
  {
    var r := LastToRun(p, q);
    assert r.Some?;
    assert RunsNoLater(p, k, r.value) && RunsNoLater(p, r.value, k);
  }

  /**
   * Taking out the next closure to run does not change which closure sets
   * `q` last, when some other closure sets it.
   */
  lemma LastToRunAfterNextSome(p: seq<Delayed>, q: Property)
    requires p != [] && LastToRun(Without(p, NextToRun(p)), q).Some?
    ensures var i := NextToRun(p); var r := LastToRun(Without(p, i), q).value;
      LastToRun(p, q) == Some(if r < i then r else r + 1)
  {
    var i := NextToRun(p);
    var rest := Without(p, i);
    var r := LastToRun(rest, q).value;
    var k := if r < i then r else r + 1;
    assert rest[r] == p[k];
    forall j | 0 <= j < |p| && Sets(p[j].effect, q)
      ensures RunsNoLater(p, j, k)
    {
      if j == i {
        assert RunsNoLater(p, i, k);
      } else {
        var j' := if j < i then j else j - 1;
        assert rest[j'] == p[j];
        assert RunsNoLater(rest, j', r);
      }
    }
    LastToRunIsUnique(p, q, k);
  }

  /** When no other closure sets `q`, the next closure to run is the last to set it, if it does. */
  lemma LastToRunAfterNextNone(p: seq<Delayed>, q: Property)
    requires p != [] && LastToRun(Without(p, NextToRun(p)), q).None?
    ensures var i := NextToRun(p);
      LastToRun(p, q) == if Sets(p[i].effect, q) then Some(i) else None
  {
    var i := NextToRun(p);
    var rest := Without(p, i);
    forall j | 0 <= j < |p| && j != i
      ensures !Sets(p[j].effect, q)
    {
      var j' := if j < i then j else j - 1;
      assert rest[j'] == p[j];
    }
    if Sets(p[i].effect, q) {
      assert RunsNoLater(p, i, i);
      LastToRunIsUnique(p, q, i);
    }
  }

  /**
   * Once every closure has run, each property shows the value set by the
   * last closure to run among those that set it, and keeps its value when
   * none sets it.
   */
  lemma {:induction false} LastToRunWins(v: Visibility, p: seq<Delayed>)
    ensures Settle(v, p) == Visibility(FinalOpacity(v.sunOpacity, p), FinalBackground(v.background, p))
    decreases |p|
  {
    if p != [] {
      var i := NextToRun(p);
      var rest := Without(p, i);
      var w := Apply(v, p[i].effect);
      LastToRunWins(w, rest);
      FinalOpacityAfterNext(v, p);
      FinalBackgroundAfterNext(v, p);
    }
  }

  /**
   * When closure `io` runs last among those setting the Sun's opacity and
   * closure `ic` last among those setting the background, the settled
   * state shows their two values.
   */
  lemma SettleToLast(v: Visibility, p: seq<Delayed>, io: nat, ic: nat)
    requires io < |p| && p[io].effect.SetSunOpacity?
    requires ic < |p| && p[ic].effect.SetBackground?
    requires forall j :: 0 <= j < |p| && p[j].effect.SetSunOpacity? ==> RunsNoLater(p, j, io)
    requires forall j :: 0 <= j < |p| && p[j].effect.SetBackground? ==> RunsNoLater(p, j, ic)
    ensures Settle(v, p) == Visibility(p[io].effect.opacity, p[ic].effect.contents)
  {
    LastToRunIsUnique(p, Opacity, io);
    LastToRunIsUnique(p, Contents, ic);
    LastToRunWins(v, p);
  }

  /** Running the next closure first leaves the eventual Sun opacity as it was. */
  lemma FinalOpacityAfterNext(v: Visibility, p: seq<Delayed>)
    requires p != []
    ensures var i := NextToRun(p);
      FinalOpacity(Apply(v, p[i].effect).sunOpacity, Without(p, i)) == FinalOpacity(v.sunOpacity, p)
  {
    if LastToRun(Without(p, NextToRun(p)), Opacity).Some? {
      LastToRunAfterNextSome(p, Opacity);
    } else {
      LastToRunAfterNextNone(p, Opacity);
    }
  }

  /** Running the next closure first leaves the eventual background as it was. */
  lemma FinalBackgroundAfterNext(v: Visibility, p: seq<Delayed>)
    requires p != []
    ensures var i := NextToRun(p);
      FinalBackground(Apply(v, p[i].effect).background, Without(p, i)) == FinalBackground(v.background, p)
  {
    if LastToRun(Without(p, NextToRun(p)), Contents).Some? {
      LastToRunAfterNextSome(p, Contents);
    } else {
      LastToRunAfterNextNone(p, Contents);
    }
  }

  /** A single scheduled closure settles to its own effect. */
  lemma SettleOne(v: Visibility, a: Delayed)
    ensures Settle(v, [a]) == Apply(v, a.effect)
  {
    assert NextToRun([a]) == 0 && Without([a], 0) == [];
  }

  /** Two scheduled closures settle in deadline order, the later one last. */
  lemma SettleTwo(v: Visibility, a: Delayed, b: Delayed)
    requires b.Deadline() < a.Deadline()
    ensures Settle(v, [a, b]) == Apply(Apply(v, b.effect), a.effect)
  {
    assert NextToRun([a, b]) == 1 && Without([a, b], 1) == [a];
    SettleOne(Apply(v, b.effect), a);
  }

  /** Every closure of schedule `p` is due strictly after instant `t`. */
  ghost predicate DueAfter(p: seq<Delayed>, t: real)
    decreases |p|
  {
    p == [] || (t < p[0].Deadline() && DueAfter(p[1..], t))
  }

  /** `DueAfter` holds exactly when each scheduled closure's deadline is later than `t`. */
  lemma {:induction false} DueAfterMembers(p: seq<Delayed>, t: real)
    ensures DueAfter(p, t) <==> forall d :: d in p ==> t < d.Deadline()
    decreases |p|
  {
    if p != [] {
      DueAfterMembers(p[1..], t);
      assert forall d :: d in p <==> d == p[0] || d in p[1..];
    }
  }

  /** Closures all due after `t`, scheduled one after the other, stay due after `t`. */
  lemma DueAfterAppend(p: seq<Delayed>, q: seq<Delayed>, t: real)
    requires DueAfter(p, t) && DueAfter(q, t)
    ensures DueAfter(p + q, t)
  {
    DueAfterMembers(p, t);
    DueAfterMembers(q, t);
    DueAfterMembers(p + q, t);
  }

  /** When the next closure is not due at `t`, no closure is. */
  lemma NothingDue(p: seq<Delayed>, t: real)
    requires p != [] && t < p[NextToRun(p)].Deadline()
    ensures forall d :: d in p ==> t < d.Deadline()
  {
    forall d | d in p
      ensures t < d.Deadline()
    {
      var j :| 0 <= j < |p| && p[j] == d;
      assert RunsNoLater(p, NextToRun(p), j);
    }
  }

  /**
   * The main queue's turn at instant `t`: the closures due by `t` run in
   * order, the others stay scheduled.
   */
  function RunUntil(v: Visibility, p: seq<Delayed>, t: real): (r: (Visibility, seq<Delayed>))
    ensures DueAfter(r.1, t)
    ensures forall d :: d in r.1 ==> d in p
    ensures (forall d :: d in p ==> !Sets(d.effect, Contents)) ==> r.0.background == v.background
    decreases |p|
  {
    if p == [] then (v, p)
    else
      var i := NextToRun(p);
      if t < p[i].Deadline() then
        NothingDue(p, t);
        DueAfterMembers(p, t);
        (v, p)
      else
        var rest := Without(p, i);
        assert forall d :: d in rest ==> d in p;
        RunUntil(Apply(v, p[i].effect), rest, t)
  }

  /**
   * The main queue's turn takes closures out of the schedule and adds
   * none, and every closure not yet due stays scheduled, as often as it was.
   */
  lemma {:induction false} RunUntilKeepsLaterClosures(v: Visibility, p: seq<Delayed>, t: real)
    ensures var r := RunUntil(v, p, t);
      && multiset(r.1) <= multiset(p)
      && forall d: Delayed :: t < d.Deadline() ==> multiset(r.1)[d] == multiset(p)[d]
    decreases |p|
  {
    if p != [] {
      var i := NextToRun(p);
      if p[i].Deadline() <= t {
        var rest := Without(p, i);
        RunUntilKeepsLaterClosures(Apply(v, p[i].effect), rest, t);
        WithoutIsPermutation(p, i);
      }
    }
  }

  /** When every closure is due at `t`, the main queue's turn settles the whole schedule. */
  lemma {:induction false} RunUntilAllDue(v: Visibility, p: seq<Delayed>, t: real)
    requires forall d :: d in p ==> d.Deadline() <= t
    ensures RunUntil(v, p, t) == (Settle(v, p), [])
    decreases |p|
  {
    if p != [] {
      var i := NextToRun(p);
      assert p[i] in p;
      var rest := Without(p, i);
      forall d | d in rest
        ensures d.Deadline() <= t
      {
        var j :| 0 <= j < |rest| && rest[j] == d;
        assert p[if j < i then j else j + 1] in p;
      }
      RunUntilAllDue(Apply(v, p[i].effect), rest, t);
    }
  }

  /** When no closure is due at `t`, the main queue's turn changes nothing. */
  lemma RunUntilNoneDue(v: Visibility, p: seq<Delayed>, t: real)
    requires DueAfter(p, t)
    ensures RunUntil(v, p, t) == (v, p)
  {
    if p != [] {
      DueAfterMembers(p, t);
      assert p[NextToRun(p)] in p;
    }
  }

  /** Running the closures that are due leaves the eventual visible state as it was. */
  lemma {:induction false} RunUntilKeepsOutcome(v: Visibility, p: seq<Delayed>, t: real)
    ensures var r := RunUntil(v, p, t); Settle(r.0, r.1) == Settle(v, p)
    decreases |p|
  {
    if p != [] {
      var i := NextToRun(p);
      if p[i].Deadline() <= t {
        RunUntilKeepsOutcome(Apply(v, p[i].effect), Without(p, i), t);
      }
    }
  }
}
