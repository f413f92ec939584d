/** The animation work a transition hands to the tween engine and to the
    timer queue: which field each task drives, to what end state, over how
    long, and which task carries the completion callback. Only the dispatch
    is modelled; the engine's interpolation and easing curves are not. */
module Dispatch {
  import opened Presets

  /** The easing curve a tween is dispatched with. */
  datatype Ease = Linear | Power2InOut

  /** A field a task drives. */
  datatype Target =
    | Material(key: Key)   // the shader uniform or material property named by a config key
    | Crossfade            // the `progress` uniform of the label material
    | TextX(index: nat)    // horizontal position of the label of preset `index`
    | SphereRotationY      // rotation of the blob about the vertical axis
    | Background           // the scene background colour

  /** The end state a tween drives its target to. */
  datatype Goal =
    | Set(v: Value)        // the given value
    | AddPi(units: int)    // the value read at dispatch plus `units`·π
    | Color(hex: string)   // the colour parsed from a hex string

  /** What runs when a tween finishes: nothing, or the transition commit that
      makes `next` the current preset. */
  datatype Callback = Nothing | Commit(next: nat)

  /** One dispatched unit of work: a tween, or a timer that swaps the texture. */
  datatype Task =
    | Tween(target: Target, goal: Goal, durationMs: nat, ease: Ease, onComplete: Callback)
    | Timeout(delayMs: nat, texture: Value)

  const TweenMs: nat := 1000
  const CrossfadeMs: nat := 2000
  const SwapDelayMs: nat := 400

  /** The field a task changes when it finishes. */
  function Writes(t: Task): Target
  {
    match t
    case Tween(target, _, _, _, _) => target
    case Timeout(_, _) => Material(TextureMap)
  }

  /** How long after dispatch a task finishes, in milliseconds. */
  function Span(t: Task): nat
  {
    match t
    case Tween(_, _, d, _, _) => d
    case Timeout(d, _) => d
  }

  /** How many config fields `updateBlob` tests. */
  const FieldCount: nat := 14

  /** The key `updateBlob` tests at step `i` of its chain of field tests; no
      key is tested at two steps. */
  function KeyAt(i: nat): (k: Key)
    requires i < FieldCount
    ensures Step(k) == i
  {
    match i
    case 0 => UPositionFrequency
    case 1 => UPositionStrength
    case 2 => USmallWavePositionFrequency
    case 3 => USmallWavePositionStrength
    case 4 => USmallWaveTimeFrequency
    case 5 => TextureMap
    case 6 => Roughness
    case 7 => Metalness
    case 8 => EnvMapIntensity
    case 9 => Clearcoat
    case 10 => ClearcoatRoughness
    case 11 => Transmission
    case 12 => FlatShading
    case 13 => Wireframe
  }

  /** The step of the chain at which key `k` is tested. */
  function Step(k: Key): (i: nat)
    ensures i < FieldCount
  {
    match k
    case UPositionFrequency => 0
    case UPositionStrength => 1
    case USmallWavePositionFrequency => 2
    case USmallWavePositionStrength => 3
    case USmallWaveTimeFrequency => 4
    case TextureMap => 5
    case Roughness => 6
    case Metalness => 7
    case EnvMapIntensity => 8
    case Clearcoat => 9
    case ClearcoatRoughness => 10
    case Transmission => 11
    case FlatShading => 12
    case Wireframe => 13
  }

  /** Every key is tested, at the step that names it. */
  lemma KeyAtStep(k: Key)
    ensures KeyAt(Step(k)) == k
  {
  }

  /** The task a defined config field turns into: a one-second eased tween of
      the matching field, except the texture, which is swapped by a timer. */
  function KeyTask(k: Key, v: Value): (t: Task)
    ensures Writes(t) == Material(k)
    ensures t.Timeout? <==> k == TextureMap
    ensures t.Timeout? ==> Span(t) == SwapDelayMs && t.texture == v
    ensures t.Tween? ==> Span(t) == TweenMs && t.goal == Set(v) && t.ease == Power2InOut
                         && t.onComplete == Nothing
  {
    if k == TextureMap then Timeout(SwapDelayMs, v)
    else Tween(Material(k), Set(v), TweenMs, Power2InOut, Nothing)
  }

  /** The tasks for the fields of `c` tested from step `i` of the chain on,
      in order: a defined field dispatches its task, an undefined one nothing. */
  function DispatchesFrom(c: Config, i: nat): seq<Task>
    requires i <= FieldCount
    decreases FieldCount - i
  {
    if i == FieldCount then []
    else if KeyAt(i) in c then [KeyTask(KeyAt(i), c[KeyAt(i)])] + DispatchesFrom(c, i + 1)
    else DispatchesFrom(c, i + 1)
  }

  /** The tasks `updateBlob` dispatches for configuration `c`: its chain of
      field tests, one per key. */
  function UpdateBlob(c: Config): seq<Task>
  {
    DispatchesFrom(c, 0)
  }

  /** How many tasks in `ts` change `target`. */
  function CountWrites(ts: seq<Task>, target: Target): nat
  {
    if ts == [] then 0
    else (if Writes(ts[0]) == target then 1 else 0) + CountWrites(ts[1..], target)
  }

  lemma {:induction false} CountWritesAppend(a: seq<Task>, b: seq<Task>, target: Target)
    ensures CountWrites(a + b, target) == CountWrites(a, target) + CountWrites(b, target)
  {
    if a != [] {
      assert (a + b)[1..] == a[1..] + b;
      CountWritesAppend(a[1..], b, target);
    } else {
      assert a + b == b;
    }
  }

  /** From step `i` on, each defined field tested at or after `i` is written
      by exactly one task and every other target by none. */
  lemma {:induction false} DispatchesFromCount(c: Config, i: nat, target: Target)
    requires i <= FieldCount
    ensures CountWrites(DispatchesFrom(c, i), target)
            == if target.Material? && i <= Step(target.key) && target.key in c then 1 else 0
    decreases FieldCount - i
  {
    if i < FieldCount {
      DispatchesFromCount(c, i + 1, target);
      var k := KeyAt(i);
      if k in c {
        var head := [KeyTask(k, c[k])];
        CountWritesAppend(head, DispatchesFrom(c, i + 1), target);
        assert head[1..] == [];
      }
    }
  }

  /** Every task dispatched from step `i` on is the task its own key and value
      call for. */
  lemma {:induction false} DispatchesFromShape(c: Config, i: nat)
    requires i <= FieldCount
    ensures forall t | t in DispatchesFrom(c, i) ::
              Writes(t).Material? && Writes(t).key in c
              && t == KeyTask(Writes(t).key, c[Writes(t).key])
    decreases FieldCount - i
  {
    if i < FieldCount {
      DispatchesFromShape(c, i + 1);
    }
  }

  /** Whether `ts` consists of material tasks whose keys are tested at step
      `from` or later, each at a strictly later step than the one before. */
  predicate InChainOrder(ts: seq<Task>, from: nat)
  {
    ts == [] ||
    (&& Writes(ts[0]).Material?
     && from <= Step(Writes(ts[0]).key)
     && InChainOrder(ts[1..], Step(Writes(ts[0]).key) + 1))
  }

  /** The tasks dispatched from step `i` on follow the order of the chain. */
  lemma {:induction false} DispatchesFromOrdered(c: Config, i: nat)
    requires i <= FieldCount
    ensures InChainOrder(DispatchesFrom(c, i), i)
    decreases FieldCount - i
  {
    if i < FieldCount {
      DispatchesFromOrdered(c, i + 1);
      var k := KeyAt(i);
      if k in c {
        var r := [KeyTask(k, c[k])] + DispatchesFrom(c, i + 1);
        assert r[1..] == DispatchesFrom(c, i + 1);
      } else {
        InChainOrderWeaken(DispatchesFrom(c, i + 1), i + 1, i);
      }
    }
  }

  /** A sequence in chain order from some step is in chain order from any
      earlier step. */
  lemma InChainOrderWeaken(ts: seq<Task>, from: nat, earlier: nat)
    requires InChainOrder(ts, from) && earlier <= from
    ensures InChainOrder(ts, earlier)
  {
  }

  /** `updateBlob` dispatches exactly one task per defined field, and none for
      an undefined field or for a target outside the material: the one for the
      texture is a 400 ms timer and every other one is a one-second eased tween
      to the configured value with no completion callback. The tasks come in
      the order the fields are tested. */
  lemma BlobDispatchesExact(c: Config, target: Target)
    ensures CountWrites(UpdateBlob(c), target)
            == if target.Material? && target.key in c then 1 else 0
    ensures forall t | t in UpdateBlob(c) ::
              Writes(t).Material? && Writes(t).key in c
              && t == KeyTask(Writes(t).key, c[Writes(t).key])
    ensures InChainOrder(UpdateBlob(c), 0)
  {
    DispatchesFromCount(c, 0, target);
    DispatchesFromShape(c, 0);
    DispatchesFromOrdered(c, 0);
  }

  /** For the shipped catalog the small-wave time frequency is never tweened. */
  lemma ShippedNeverTweensSmallWaveTime(i: int)
    requires 0 <= i < |Blobs()|
    ensures CountWrites(UpdateBlob(Blobs()[i].config), Material(USmallWaveTimeFrequency)) == 0
  {
    BlobDispatchesExact(Blobs()[i].config, Material(USmallWaveTimeFrequency));
  }

  /** Whether a task carries the transition commit. */
  predicate IsCommit(t: Task)
  {
    t.Tween? && t.onComplete.Commit?
  }

  /** How many tasks in `ts` carry a transition commit. */
  function CommitCount(ts: seq<Task>): nat
  {
    if ts == [] then 0
    else (if IsCommit(ts[0]) then 1 else 0) + CommitCount(ts[1..])
  }

  /** Every transition commit in `ts` makes preset `d` the current one. */
  predicate CommitsTo(ts: seq<Task>, d: nat)
  {
    ts == [] || ((IsCommit(ts[0]) ==> ts[0].onComplete.next == d) && CommitsTo(ts[1..], d))
  }

  /** A log without commits commits to every preset. */
  lemma {:induction false} NoCommitsTo(ts: seq<Task>, d: nat)
    requires CommitCount(ts) == 0
    ensures CommitsTo(ts, d)
  {
    if ts != [] {
      NoCommitsTo(ts[1..], d);
    }
  }

  lemma {:induction false} CommitsAppend(a: seq<Task>, b: seq<Task>, d: nat)
    ensures CommitCount(a + b) == CommitCount(a) + CommitCount(b)
    ensures CommitsTo(a + b, d) <==> CommitsTo(a, d) && CommitsTo(b, d)
  {
    if a != [] {
      assert (a + b)[1..] == a[1..] + b;
      CommitsAppend(a[1..], b, d);
    } else {
      assert a + b == b;
    }
  }

  /** Finishing task `k` of a log removes that task's commit, if it has one,
      and keeps every other commit; a commit finished from a log that commits
      to `d` is a commit to `d`. */
  lemma CommitsAfterRemove(ts: seq<Task>, k: nat, d: nat)
    requires k < |ts|
    ensures var rest := ts[..k] + ts[k + 1..];
      && CommitCount(ts) == CommitCount(rest) + (if IsCommit(ts[k]) then 1 else 0)
      && (CommitsTo(ts, d) <==> CommitsTo(rest, d) && (IsCommit(ts[k]) ==> ts[k].onComplete.next == d))
  {
    var pre, t, post := ts[..k], ts[k], ts[k + 1..];
    assert ts == pre + ([t] + post);
    CommitsAppend(pre, [t] + post, d);
    CommitsAppend([t], post, d);
    CommitsAppend(pre, post, d);
    assert [t][1..] == [];
  }

  /** Tasks without callbacks carry no commit. */
  lemma {:induction false} NoCommits(ts: seq<Task>)
    requires forall t | t in ts :: t.Timeout? || t.onComplete == Nothing
    ensures CommitCount(ts) == 0
  {
    if ts != [] {
      NoCommits(ts[1..]);
    }
  }

  /** The tasks the wheel handler dispatches itself when moving from preset
      `current` to preset `next` in `direction`: the label crossfade carrying
      the commit, the outgoing label leaving against the scroll, the blob
      turning by four half-turns against the scroll, the incoming label
      centring, and the background fading to the colour `background`. */
  function HandlerTasks(current: nat, direction: int, next: nat, background: string): (r: seq<Task>)
    ensures |r| == 5
    ensures r[0] == Tween(Crossfade, Set(Num(0.5)), CrossfadeMs, Linear, Commit(next))
    ensures forall i | 1 <= i < |r| :: r[i].Tween? && r[i].onComplete == Nothing && Span(r[i]) == TweenMs
    ensures r[4] == Tween(Background, Color(background), TweenMs, Linear, Nothing)
  {
    [Tween(Crossfade, Set(Num(0.5)), CrossfadeMs, Linear, Commit(next)),
     Tween(TextX(current), Set(Num(-direction as real * 3.0)), TweenMs, Power2InOut, Nothing),
     Tween(SphereRotationY, AddPi(4 * -direction), TweenMs, Power2InOut, Nothing),
     Tween(TextX(next), Set(Num(0.0)), TweenMs, Power2InOut, Nothing),
     Tween(Background, Color(background), TweenMs, Linear, Nothing)]
  }

  /** The outgoing label leaves to -3·`direction`, the blob turns by
      -4·`direction` half-turns and the incoming label is tweened to the centre.
      So for a non-zero step the blob turns against the scroll, and the
      outgoing label leaves towards the side opposite the one the incoming
      label, placed at `direction`·3.5, enters from. */
  lemma HandlerDirections(current: nat, direction: int, next: nat, background: string)
    requires -1 <= direction <= 1
    ensures var r := HandlerTasks(current, direction, next, background);
      && r[1].target == TextX(current) && r[1].goal == Set(Num(-direction as real * 3.0))
      && r[2].target == SphereRotationY && r[2].goal == AddPi(-4 * direction)
      && r[3].target == TextX(next) && r[3].goal == Set(Num(0.0))
    ensures var r := HandlerTasks(current, direction, next, background);
      direction != 0 ==>
        && r[2].goal.units * direction < 0
        && r[1].goal.v.x * (direction as real * 3.5) < 0.0
  {
  }

  /** Everything one accepted wheel event dispatches for the move to preset
      `next` (of which `p` is the preset): the handler's own tasks, then the
      ones `updateBlob` dispatches for the preset's configuration. */
  function WheelDispatches(current: nat, direction: int, next: nat, p: Preset): (r: seq<Task>)
    ensures 5 <= |r|
    ensures r[0] == Tween(Crossfade, Set(Num(0.5)), CrossfadeMs, Linear, Commit(next))
    ensures r[4] == Tween(Background, Color(p.background), TweenMs, Linear, Nothing)
    ensures r[5..] == UpdateBlob(p.config)
  {
    HandlerTasks(current, direction, next, p.background) + UpdateBlob(p.config)
  }

  /** A wheel event dispatched onto a log without commits leaves exactly one
      commit in the log, and it is to the destination preset. */
  lemma DispatchCommits(log: seq<Task>, current: nat, direction: int, next: nat, p: Preset)
    requires CommitCount(log) == 0
    ensures CommitCount(log + WheelDispatches(current, direction, next, p)) == 1
    ensures CommitsTo(log + WheelDispatches(current, direction, next, p), next)
  {
    var handler := HandlerTasks(current, direction, next, p.background);
    var blob := UpdateBlob(p.config);
    var head, others := handler[..1], handler[1..];
    assert handler == head + others;
    assert head[1..] == [];
    NoCommits(others);
    BlobDispatchesExact(p.config, Crossfade);
    NoCommits(blob);
    NoCommitsTo(log, next);
    NoCommitsTo(others, next);
    NoCommitsTo(blob, next);
    CommitsAppend(head, others, next);
    CommitsAppend(handler, blob, next);
    CommitsAppend(log, handler + blob, next);
  }

  /** Every task `updateBlob` dispatches finishes within a second and carries
      no callback. */
  lemma BlobTasksShort(c: Config)
    ensures forall t | t in UpdateBlob(c) :: Span(t) <= TweenMs && !IsCommit(t)
  {
    BlobDispatchesExact(c, Crossfade);
  }

  /** The crossfade that carries the commit outlasts every other task of the
      transition, so the preset is committed only after the whole transition
      has played. */
  lemma CrossfadeFinishesLast(current: nat, direction: int, next: nat, p: Preset)
    ensures var r := WheelDispatches(current, direction, next, p);
      forall i :: 1 <= i < |r| ==> Span(r[i]) < Span(r[0])
  {
    BlobTasksShort(p.config);
    SpansBelow(HandlerTasks(current, direction, next, p.background), UpdateBlob(p.config), CrossfadeMs);
  }

  /** Tasks after the first of `a`, followed by the tasks of `b`, all finish
      before `bound` when each part does. */
  lemma SpansBelow(a: seq<Task>, b: seq<Task>, bound: nat)
    requires forall i | 1 <= i < |a| :: Span(a[i]) < bound
    requires forall t | t in b :: Span(t) < bound
    ensures forall i | 1 <= i < |a + b| :: Span((a + b)[i]) < bound
  {
    forall i | 1 <= i < |a + b|
      ensures Span((a + b)[i]) < bound
    {
      if i >= |a| {
        assert (a + b)[i] in b;
      }
    }
  }
}
