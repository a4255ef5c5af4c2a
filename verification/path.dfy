/** A path asset plays synchronously: it computes a step count from its
    duration and step rate, runs its Step handler once per step with the
    progress field updated, then runs its PathEnd handler. Handler runs are
    recorded in a trace instead of executed. */
module Paths {
  import opened Bytes
  import opened Results

  /** The header fields `play` reads (duration in milliseconds, step rate,
      which handlers exist) and the 32-bit progress field. */
  datatype Path = Path(duration: nat, stepRate: nat, hasStepHandler: bool, hasEndHandler: bool, progress: nat)

  /** One handler run, with the progress value the handler can observe. */
  datatype Event = Step(progress: nat) | End

  /** `(duration * stepRate) / 1000` on unsigned 32-bit values: the product
      wraps before the division. */
  function TotalSteps(duration: nat, stepRate: nat): (r: nat)
    ensures r < TWO_32
  {
    ((duration * stepRate) % TWO_32) / 1000
  }

  /** Below 2^32 the product does not wrap, and the count is the plain
      quotient. */
  lemma StepsWithoutWrap(duration: nat, stepRate: nat)
    requires duration * stepRate < TWO_32
    ensures TotalSteps(duration, stepRate) == duration * stepRate / 1000
  {
    var x := duration * stepRate;
    assert x % TWO_32 == x;
  }

  /** The progress before step `i`: `(double)(i + 1) / totalSteps` stored
      into the unsigned field, which truncates it to 0 on every step but
      the last, where it is 1. */
  function Progress(i: nat, total: nat): (r: nat)
    requires i < total
    ensures r == if i + 1 == total then 1 else 0
  {
    (i + 1) / total
  }

  /** The reference trace: one Step per step with its progress if there is a
      Step handler, then End if there is a PathEnd handler. */
  function Trace(hasStep: bool, hasEnd: bool, total: nat): (t: seq<Event>)
    ensures |t| == (if hasStep then total else 0) + (if hasEnd then 1 else 0)
  {
    (if hasStep then Steps(total, total) else []) + (if hasEnd then [End] else [])
  }

  /** The first `i` Step runs of a `total`-step play. */
  function Steps(i: nat, total: nat): (t: seq<Event>)
    requires i <= total
    ensures |t| == i
  {
    seq(i, k requires 0 <= k < i => Step(Progress(k, total)))
  }

  /** `play` as a transition: a zero step rate is fatal, through the
      explicit check when the duration is nonzero and through the division
      `1000 / stepRate` when it is zero. */
  function PlaySpec(p: Path): (r: Result<(Path, seq<Event>)>)
    ensures p.stepRate == 0 && p.duration != 0 ==> r == Fail(ZeroStepRate)
    ensures p.stepRate == 0 && p.duration == 0 ==> r == Fail(DivideByZero)
    ensures p.stepRate != 0 ==> r.Ok?
  {
    if p.stepRate == 0 then
      if p.duration != 0 then Fail(ZeroStepRate) else Fail(DivideByZero)
    else
      Ok((p.(progress := 0), Trace(p.hasStepHandler, p.hasEndHandler, TotalSteps(p.duration, p.stepRate))))
  }

  /** `Path::play`: the step loop, with the progress field set before each
      handler run and reset to 0 at the end. */
  method Play(p: Path) returns (r: Result<(Path, seq<Event>)>)
    ensures r == PlaySpec(p)
    ensures r.Ok? ==> r.value.0 == p.(progress := 0)
  {
    var q := p.(progress := 0);
    if p.stepRate == 0 {
      if p.duration != 0 {
        return Fail(ZeroStepRate);
      }
      return Fail(DivideByZero);
    }
    var total := TotalSteps(p.duration, p.stepRate);
    var trace: seq<Event> := [];
    var i := 0;
    while i < total
      invariant 0 <= i <= total
      invariant q == p.(progress := if i == 0 then 0 else i / total)
      invariant trace == if p.hasStepHandler then Steps(i, total) else []
    {
      q := q.(progress := Progress(i, total));
      if p.hasStepHandler {
        trace := trace + [Step(q.progress)];
        assert trace == Steps(i + 1, total);
      }
      i := i + 1;
    }
    if p.hasEndHandler {
      trace := trace + [End];
    }
    assert trace == Trace(p.hasStepHandler, p.hasEndHandler, total);
    q := q.(progress := 0);
    return Ok((q, trace));
  }

  /** The Step handler runs exactly `totalSteps` times, seeing progress 0
      except on the last step, where it sees 1; the PathEnd handler runs once,
      last; and the progress is 0 again afterwards. */
  lemma PlayRunsEachStep(p: Path)
    requires p.stepRate != 0 && p.hasStepHandler
    ensures var total := TotalSteps(p.duration, p.stepRate);
      && PlaySpec(p).Ok?
      && |PlaySpec(p).value.1| >= total
      && (forall i :: 0 <= i < total ==>
            PlaySpec(p).value.1[i] == Step(if i + 1 == total then 1 else 0))
      && PlaySpec(p).value.0.progress == 0
  {
  }

  lemma PlayEndsWithEnd(p: Path)
    requires p.stepRate != 0 && p.hasEndHandler
    ensures PlaySpec(p).Ok?
    ensures |PlaySpec(p).value.1| > 0 && PlaySpec(p).value.1[|PlaySpec(p).value.1| - 1] == End
    ensures forall i :: 0 <= i < |PlaySpec(p).value.1| - 1 ==> PlaySpec(p).value.1[i].Step?
  {
  }

  /** `setDuration`: only the header duration changes. */
  function SetDuration(p: Path, ms: nat): (r: Path)
    ensures r.duration == ms
    ensures r.(duration := p.duration) == p
  {
    p.(duration := ms)
  }

  /** A new duration takes effect on the next `play`: the step count comes
      from it. */
  lemma SetDurationTakesEffect(p: Path, ms: nat)
    requires p.stepRate != 0 && p.hasStepHandler && !p.hasEndHandler
    ensures PlaySpec(SetDuration(p, ms)).Ok?
    ensures |PlaySpec(SetDuration(p, ms)).value.1| == TotalSteps(ms, p.stepRate)
  {
  }

  /** `percentComplete`: the stored progress. */
  function PercentComplete(p: Path): nat {
    p.progress
  }

  /** Outside a handler the progress reads 0: `play` resets it on return. */
  lemma PercentCompleteAfterPlay(p: Path)
    requires p.stepRate != 0
    ensures PercentComplete(PlaySpec(p).value.0) == 0
  {
  }
}
