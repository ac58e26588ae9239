/**
 * The loading screen (src/components/ui/LoadingScreen.tsx): a status line
 * chosen by thresholds on the loader's progress, a rotating tip, and the rule
 * that hides the whole view once loading is over.
 */
module LoadingScreen {

  import opened Options

  /** The six tips, shown one at a time (`loadingTips`). */
  const Tips: seq<string> := [
    "\U{1F4A1} Click on monitors to interact with apps",
    "\U{1F5B1}\U{FE0F} Use scroll to zoom in/out",
    "\U{1F3AE} Try clicking on the TV for a surprise!",
    "\U{1F4A1} Left click + drag to rotate the view",
    "\U{1F384} Click the Christmas tree for Santa!",
    "\U{2615} Click the coffee cup for an effect"
  ]

  /** The status lines, in the order progress reaches them. */
  const Messages: seq<string> := [
    "Loading 3D models...",
    "Preparing textures...",
    "Setting up lighting...",
    "Building the room...",
    "Final touches...",
    "Almost ready!"
  ]

  /** The progress (in percent) at which each status line gives way to the next. */
  const Thresholds: seq<real> := [20.0, 40.0, 60.0, 80.0, 95.0]

  /**
   * How many thresholds `p` has reached, scanning in order and stopping at
   * the first one `p` is still strictly below.
   */
  function Reached(ts: seq<real>, p: real): (n: nat)
    ensures n <= |ts|
    ensures forall i :: 0 <= i < n ==> ts[i] <= p
    ensures n < |ts| ==> p < ts[n]
  {
    if ts == [] || p < ts[0] then 0 else 1 + Reached(ts[1..], p)
  }

  /** The stage of loading a progress value is in, `0` to `5`. */
  function Stage(progress: real): (k: nat)
    ensures k < |Messages|
    ensures k == 0 || Thresholds[k - 1] <= progress
    ensures k == |Thresholds| || progress < Thresholds[k]
  {
    Reached(Thresholds, progress)
  }

  /** `getStatusMessage`: the chain of strict comparisons against 20, 40, 60, 80 and 95. */
  function StatusMessage(progress: real): (m: string)
    ensures m == Messages[Stage(progress)]
    ensures m == "Loading 3D models..." <==> progress < 20.0
    ensures progress >= 95.0 ==> m == "Almost ready!"
  {
    if progress < 20.0 then "Loading 3D models..."
    else if progress < 40.0 then "Preparing textures..."
    else if progress < 60.0 then "Setting up lighting..."
    else if progress < 80.0 then "Building the room..."
    else if progress < 95.0 then "Final touches..."
    else "Almost ready!"
  }

  /**
   * The six lines partition the progress axis: line `k` is shown exactly on
   * the half-open band between threshold `k - 1` and threshold `k`.
   */
  lemma StatusBands(progress: real, k: nat)
    requires k < |Messages|
    ensures StatusMessage(progress) == Messages[k] <==>
      (k == 0 || Thresholds[k - 1] <= progress) && (k == |Thresholds| || progress < Thresholds[k])
  {
  }

  /** As progress grows the status line only moves forward through the list. */
  lemma StatusAdvances(p: real, q: real)
    requires p <= q
    ensures Stage(p) <= Stage(q)
  {
  }

  /** The tip shown after one more interval: `(prev + 1) % loadingTips.length`. */
  function NextTip(i: nat): (j: nat)
    ensures j < |Tips|
    ensures i < |Tips| ==> j == if i + 1 < |Tips| then i + 1 else 0
  {
    (i + 1) % |Tips|
  }

  /** The tip index after `n` intervals starting from `i`. */
  function Rotate(i: nat, n: nat): nat {
    if n == 0 then i else NextTip(Rotate(i, n - 1))
  }

  /** `n` intervals advance the tip by `n` places, wrapping round the six tips. */
  lemma {:induction false} RotateAdvances(i: nat, n: nat)
    requires i < |Tips|
    ensures Rotate(i, n) == (i + n) % |Tips|
  {
    if n > 0 {
      RotateAdvances(i, n - 1);
    }
  }

  /** Six intervals bring every tip back. */
  lemma SixIntervalsReturn(i: nat)
    requires i < |Tips|
    ensures Rotate(i, |Tips|) == i
  {
    RotateAdvances(i, |Tips|);
  }

  /** What the component draws while it is visible. */
  datatype Screen = Screen(status: string, percent: real, assets: Option<(nat, nat)>, tip: string)

  /** The `LoadingProgress` component's own state: `displayProgress` and `tipIndex`. */
  class LoadingProgress {
    var displayProgress: real
    var tipIndex: nat

    ghost predicate Valid()
      reads this
    {
      tipIndex < |Tips|
    }

    constructor ()
      ensures Valid() && displayProgress == 0.0 && tipIndex == 0
    {
      displayProgress := 0.0;
      tipIndex := 0;
    }

    /** The effect that copies the loader's progress into `displayProgress`. */
    method SyncProgress(progress: real)
      modifies this
      ensures displayProgress == progress && tipIndex == old(tipIndex)
    {
      displayProgress := progress;
    }

    /** One tick of the three-second tip interval. */
    method RotateTip()
      requires Valid()
      modifies this
      ensures Valid()
      ensures tipIndex == NextTip(old(tipIndex)) && displayProgress == old(displayProgress)
    {
      tipIndex := (tipIndex + 1) % |Tips|;
    }

    /**
     * One render, given what the loader reports. Nothing is drawn exactly when
     * the loader is idle and the displayed progress has reached 100; otherwise
     * the status line follows the loader's own progress, the bar follows the
     * displayed one, and the asset line appears only when there is a total.
     */
    function Render(progress: real, active: bool, loaded: nat, total: nat): (v: Option<Screen>)
      reads this
      requires Valid()
      ensures v.None? <==> !active && displayProgress >= 100.0
      ensures v.Some? ==>
        && v.value.status == Messages[Stage(progress)]
        && v.value.percent == displayProgress
        && (v.value.assets.Some? <==> total > 0)
        && (v.value.assets.Some? ==> v.value.assets.value == (loaded, total))
        && v.value.tip == Tips[tipIndex]
    {
      if !active && displayProgress >= 100.0 then None
      else Some(Screen(StatusMessage(progress), displayProgress,
                       if total > 0 then Some((loaded, total)) else None,
                       Tips[tipIndex]))
    }
  }

  /** Once loading is over and the displayed progress has caught up, the view is gone. */
  method FinishedLoadingHides() returns (v: Option<Screen>, before: Option<Screen>)
    ensures v == None
    ensures before.Some? && before.value.status == "Almost ready!" && before.value.percent == 0.0
  {
    var lp := new LoadingProgress();
    before := lp.Render(100.0, false, 12, 12);
    lp.SyncProgress(100.0);
    v := lp.Render(100.0, false, 12, 12);
  }
}
