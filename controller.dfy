/** The scroll-driven transition controller: the session state behind the
    wheel handler, the handler itself, and what happens when the tasks it
    dispatched finish. */
module Controller {
  import opened Presets
  import opened Dispatch

  /** The sign of a wheel delta, as `Math.sign` gives it (NaN aside). */
  function Sign(deltaY: real): (r: int)
    ensures -1 <= r <= 1
    ensures r == 1 <==> deltaY > 0.0
    ensures r == -1 <==> deltaY < 0.0
  {
    if deltaY > 0.0 then 1 else if deltaY < 0.0 then -1 else 0
  }

  /** The texture a configuration names; an undefined one interpolates into the
      file name as the word "undefined". */
  function ConfigTexture(c: Config): (v: Value)
    ensures TextureMap in c ==> v == c[TextureMap]
  {
    if TextureMap in c then c[TextureMap] else Texture("undefined")
  }

  /** A preset's label on screen: its uniform scale and its horizontal position. */
  datatype Label = Label(scale: real, x: real)

  /** The progress bar element: whether it is displayed, its width in percent,
      and whether its transition and colour have been set. */
  datatype ProgressBar = ProgressBar(displayed: bool, widthPercent: real, styled: bool)

  /** The labels at start-up: all centred, only the first one visible. */
  function InitialLabels(n: nat): (r: seq<Label>)
    ensures |r| == n
    ensures forall i | 0 <= i < n :: r[i] == Label(if i == 0 then 1.0 else 0.0, 0.0)
  {
    seq(n, i => Label(if i == 0 then 1.0 else 0.0, 0.0))
  }

  class Transition {
    /** The preset catalog, fixed for the session. */
    const blobs: seq<Preset>

    /** The busy flag: a transition is in flight. */
    var isAnimating: bool
    /** The preset on show, committed when a transition completes. */
    var currentIndex: nat
    /** Whether a wheel event has ever been accepted. */
    var hasScrolled: bool

    var bar: ProgressBar
    /** How many times the first-scroll initialisation of the bar has run. */
    ghost var barInitialisations: nat
    /** One label per preset, in catalog order. */
    var texts: seq<Label>
    /** The gradient texture on the blob's material. */
    var texture: Value

    /** Dispatched tweens and timers that have not finished yet, in dispatch order. */
    var pending: seq<Task>
    /** The preset the display is showing or heading to: the one the in-flight
        crossfade will commit, or the current one when nothing is in flight. */
    ghost var destination: nat

    /** The session invariant. The busy flag is set exactly when one commit is
        pending, and that commit is to the destination; the progress bar has
        been initialised, once, if a scroll has been accepted, and never
        otherwise, and then reports the destination; the labels of the current and the
        destination presets are at full scale. */
    ghost predicate Valid()
      reads this
    {
      && |blobs| > 0
      && currentIndex < |blobs| && destination < |blobs|
      && |texts| == |blobs|
      && bar.displayed == hasScrolled && bar.styled == hasScrolled
      && barInitialisations == (if hasScrolled then 1 else 0)
      && (!hasScrolled ==> currentIndex == 0 && !isAnimating)
      && CommitCount(pending) == (if isAnimating then 1 else 0)
      && CommitsTo(pending, destination)
      && (!isAnimating ==> destination == currentIndex)
      && texts[currentIndex].scale == 1.0
      && texts[destination].scale == 1.0
      && (hasScrolled ==> bar.widthPercent == ProgressPercent(destination, |blobs|))
    }

    /** The state at start-up: the first preset on show with only its label
        visible, every label centred, nothing in flight, the progress bar hidden. */
    constructor (catalog: seq<Preset>)
      requires |catalog| > 0
      ensures Valid()
      ensures blobs == catalog
      ensures !isAnimating && currentIndex == 0 && !hasScrolled && pending == []
      ensures !bar.displayed && barInitialisations == 0
      ensures forall i | 0 <= i < |texts| :: texts[i] == Label(if i == 0 then 1.0 else 0.0, 0.0)
      ensures texture == ConfigTexture(catalog[0].config)
    {
      blobs := catalog;
      isAnimating := false;
      currentIndex := 0;
      hasScrolled := false;
      bar := ProgressBar(false, 0.0, false);
      barInitialisations := 0;
      texts := InitialLabels(|catalog|);
      texture := ConfigTexture(catalog[0].config);
      pending := [];
      destination := 0;
    }

    /** The wheel handler. While a transition is in flight the event is
        dropped. Otherwise the controller turns busy, steps the index by the
        sign of the delta (a zero delta steps by zero and still runs a
        transition), shows and styles the progress bar on the first accepted
        event, sets the bar to the destination, brings the incoming label to
        full scale beside the centre, and dispatches the transition's tasks.
        The current index does not move until the crossfade completes. */
    method OnWheel(deltaY: real)
      requires Valid()
      modifies this
      ensures Valid()
      ensures old(isAnimating) ==> unchanged(this)
      ensures !old(isAnimating) ==>
        var direction := Sign(deltaY);
        var next := Next(old(currentIndex), direction, |blobs|);
        && isAnimating && hasScrolled
        && currentIndex == old(currentIndex)
        && bar == ProgressBar(true, ProgressPercent(next, |blobs|), true)
        && barInitialisations == 1
        && texts == old(texts)[next := Label(1.0, direction as real * 3.5)]
        && pending == old(pending) + WheelDispatches(old(currentIndex), direction, next, blobs[next])
        && destination == next
        && texture == old(texture)
    {
      if isAnimating {
        return;
      }
      var direction := Sign(deltaY);
      var next := (currentIndex + direction + |blobs|) % |blobs|;
      assert next == Next(currentIndex, direction, |blobs|);

      // The first accepted event shows and styles the bar, at 5% to begin with.
      var shown, initialisations := bar, barInitialisations;
      if !hasScrolled {
        shown, initialisations := ProgressBar(true, 5.0, true), initialisations + 1;
      }
      shown := shown.(widthPercent := ProgressPercent(next, |blobs|));

      DispatchCommits(pending, currentIndex, direction, next, blobs[next]);
      isAnimating, hasScrolled, bar, barInitialisations, texts, pending, destination :=
        true, true, shown, initialisations, texts[next := Label(1.0, direction as real * 3.5)],
        pending + WheelDispatches(currentIndex, direction, next, blobs[next]), next;
    }

    /** The event loop runs the crossfade's completion callback (pending task
        `k`): the destination becomes the preset on show and the busy flag is
        cleared. */
    method FinishCrossfade(k: nat)
      requires Valid()
      requires k < |pending| && pending[k].Tween? && pending[k].onComplete.Commit?
      modifies this
      ensures Valid()
      ensures pending == old(pending[..k] + pending[k + 1..])
      ensures currentIndex == old(pending[k].onComplete.next) == old(destination)
      ensures !isAnimating
      ensures destination == old(destination)
      ensures hasScrolled == old(hasScrolled) && bar == old(bar) && barInitialisations == old(barInitialisations)
      ensures texts == old(texts) && texture == old(texture)
    {
      var next := pending[k].onComplete.next;
      var rest := pending[..k] + pending[k + 1..];
      CommitsAfterRemove(pending, k, destination);
      pending := rest;
      currentIndex, isAnimating := next, false;
    }

    /** The event loop finishes a tween without a callback (pending task `k`):
        a label tween leaves its label at the tween's end position; every other
        target lies outside the controller. */
    method FinishTween(k: nat)
      requires Valid()
      requires k < |pending| && pending[k].Tween? && pending[k].onComplete == Nothing
      modifies this
      ensures Valid()
      ensures pending == old(pending[..k] + pending[k + 1..])
      ensures var t := old(pending[k]);
        texts == if t.target.TextX? && t.target.index < |texts| && t.goal.Set? && t.goal.v.Num?
                 then old(texts)[t.target.index := old(texts)[t.target.index].(x := t.goal.v.x)]
                 else old(texts)
      ensures currentIndex == old(currentIndex) && isAnimating == old(isAnimating)
      ensures destination == old(destination)
      ensures hasScrolled == old(hasScrolled) && bar == old(bar) && barInitialisations == old(barInitialisations) && texture == old(texture)
    {
      var t := pending[k];
      CommitsAfterRemove(pending, k, destination);
      pending := pending[..k] + pending[k + 1..];
      if t.target.TextX? && t.target.index < |texts| && t.goal.Set? && t.goal.v.Num? {
        texts := texts[t.target.index := texts[t.target.index].(x := t.goal.v.x)];
      }
    }

    /** The event loop fires the texture timer (pending task `k`): the
        material's texture becomes the one the timer carries. */
    method FireTimer(k: nat)
      requires Valid()
      requires k < |pending| && pending[k].Timeout?
      modifies this
      ensures Valid()
      ensures pending == old(pending[..k] + pending[k + 1..])
      ensures texture == old(pending[k].texture)
      ensures currentIndex == old(currentIndex) && isAnimating == old(isAnimating)
      ensures destination == old(destination)
      ensures hasScrolled == old(hasScrolled) && bar == old(bar) && barInitialisations == old(barInitialisations) && texts == old(texts)
    {
      var swapped := pending[k].texture;
      CommitsAfterRemove(pending, k, destination);
      pending, texture := pending[..k] + pending[k + 1..], swapped;
    }
  }

  /** One scroll forward in a fresh session: accepted, a second scroll during
      the transition is dropped, and once the crossfade completes the second
      preset is on show, the controller is idle and the bar stands at two
      presets' worth of the catalog. */
  method ScrollForwardOnce(catalog: seq<Preset>) returns (index: nat, busy: bool, width: real)
    requires |catalog| >= 2
    ensures index == 1 && !busy
    ensures width * |catalog| as real == 200.0
  {
    var c := new Transition(catalog);
    c.OnWheel(120.0);
    c.OnWheel(-120.0);
    c.FinishCrossfade(0);
    index, busy, width := c.currentIndex, c.isAnimating, c.bar.widthPercent;
  }

  /** Scrolling back from the first preset wraps to the last one, and the bar
      then spans its full width. */
  method ScrollBackWraps(catalog: seq<Preset>) returns (index: nat, width: real)
    requires |catalog| > 0
    ensures index == |catalog| - 1
    ensures width == 100.0
  {
    var c := new Transition(catalog);
    c.OnWheel(-3.0);
    c.FinishCrossfade(0);
    index, width := c.currentIndex, c.bar.widthPercent;
  }

  /** A wheel event with a zero delta is not ignored: the controller turns
      busy, runs a transition back to the preset on show and shows the bar. */
  method ZeroDeltaStillTransitions(catalog: seq<Preset>) returns (busy: bool, shown: bool, index: nat)
    requires |catalog| > 0
    ensures busy && shown
    ensures index == 0
  {
    var c := new Transition(catalog);
    c.OnWheel(0.0);
    busy, shown := c.isAnimating, c.bar.displayed;
    c.FinishCrossfade(0);
    index := c.currentIndex;
  }
}
