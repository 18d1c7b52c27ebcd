/** The shape shared by the three transition coroutines (Crouch, Land and ZoomFOV):
    a local `speed = 1 / duration` fixed when the coroutine starts, a local `progress`
    that starts at 0 and grows by `deltaTime * speed` on every pass of a
    `while (progress < 1)` loop, and a `yield return null` at the end of each pass.
    A live coroutine is a Task: its progress, its speed and the other values it captured
    when it started.  StartCoroutine runs the first pass at once; every later frame
    resumes each live task once, oldest first. */
module Transition {
  import opened Unity

  datatype Task<C> = Task(progress: real, speed: real, capture: C)

  /** `1f / duration`, the per-second speed of a transition. */
  function Speed(duration: real): (r: real)
    requires duration > 0.0
    ensures r > 0.0
    ensures r * duration == 1.0
  {
    1.0 / duration
  }

  /** The task as it stands after StartCoroutine: the first pass of the loop has run
      (progress 0 is always below 1), so it is one resumption of a task at progress 0. */
  function Start<C>(capture: C, speed: real, dt: real): (t: Task<C>)
    ensures t.progress == dt * speed && t.speed == speed && t.capture == capture
    ensures Resume(Task(0.0, speed, capture), dt) == Some(t)
  {
    var t := Task(0.0 + dt * speed, speed, capture);
    assert Resume(Task(0.0, speed, capture), dt).value == t;
    t
  }

  /** One resumption: the loop test fails (None: the coroutine finishes) or one more
      pass runs, which adds `dt * speed` to the progress and nothing else. */
  function Resume<C>(t: Task<C>, dt: real): (r: Option<Task<C>>)
    ensures r.None? <==> t.progress >= 1.0
    ensures r.Some? ==> r.value.speed == t.speed && r.value.capture == t.capture
    ensures r.Some? ==> r.value.progress == t.progress + dt * t.speed
    ensures r.Some? && dt > 0.0 && t.speed > 0.0 ==> r.value.progress > t.progress
  {
    if t.progress < 1.0 then Some(Task(t.progress + dt * t.speed, t.speed, t.capture)) else None
  }

  /** The live tasks after each of ts has been resumed once, in order. */
  function Survivors<C>(ts: seq<Task<C>>, dt: real): (r: seq<Task<C>>)
    ensures |r| <= |ts|
    decreases |ts|
  {
    if ts == [] then []
    else
      var last := ts[|ts| - 1];
      Survivors(ts[..|ts| - 1], dt) + (if last.progress < 1.0 then [Resume(last, dt).value] else [])
  }

  /** At least one of ts finishes on its next resumption. */
  predicate AnyFinishes<C>(ts: seq<Task<C>>)
  {
    exists i :: 0 <= i < |ts| && ts[i].progress >= 1.0
  }

  /** u is one of ts, unfinished, advanced by one pass. */
  predicate ResumedFrom<C(==)>(u: Task<C>, ts: seq<Task<C>>, dt: real)
  {
    exists i :: 0 <= i < |ts| && Resume(ts[i], dt) == Some(u)
  }

  /** Resuming keeps exactly the unfinished tasks, each advanced by one pass; when none
      finishes, all of them survive. */
  lemma {:induction false} SurvivorsAreResumed<C>(ts: seq<Task<C>>, dt: real)
    ensures forall k :: 0 <= k < |Survivors(ts, dt)| ==> ResumedFrom(Survivors(ts, dt)[k], ts, dt)
    ensures forall i :: 0 <= i < |ts| && ts[i].progress < 1.0 ==> Resume(ts[i], dt).value in Survivors(ts, dt)
    ensures !AnyFinishes(ts) <==> |Survivors(ts, dt)| == |ts|
    decreases |ts|
  {
    if ts != [] {
      var init := ts[..|ts| - 1];
      var last := ts[|ts| - 1];
      SurvivorsAreResumed(init, dt);
      assert forall i :: 0 <= i < |init| ==> init[i] == ts[i];
      var r := Survivors(ts, dt);
      assert r == Survivors(init, dt) + (if last.progress < 1.0 then [Resume(last, dt).value] else []);
      forall k | 0 <= k < |r|
        ensures ResumedFrom(r[k], ts, dt)
      {
        if k < |Survivors(init, dt)| {
          assert ResumedFrom(Survivors(init, dt)[k], init, dt);
          var i :| 0 <= i < |init| && Resume(init[i], dt) == Some(Survivors(init, dt)[k]);
        } else {
          assert Resume(ts[|ts| - 1], dt) == Some(r[k]);
        }
      }
    }
  }

  /** What resuming one task leaves live: the task advanced by one pass, or nothing. */
  function Resumed<C>(t: Task<C>, dt: real): (r: seq<Task<C>>)
    ensures |r| <= 1
  {
    match Resume(t, dt)
    case None => []
    case Some(u) => [u]
  }

  /** The survivors computed front to back: an independent definition of the same
      order-keeping filter and map. */
  function ResumeEach<C>(ts: seq<Task<C>>, dt: real): (r: seq<Task<C>>)
    ensures |r| <= |ts|
    decreases |ts|
  {
    if ts == [] then [] else Resumed(ts[0], dt) + ResumeEach(ts[1..], dt)
  }

  lemma {:induction false} ResumeEachAppend<C>(ts: seq<Task<C>>, t: Task<C>, dt: real)
    ensures ResumeEach(ts + [t], dt) == ResumeEach(ts, dt) + Resumed(t, dt)
    decreases |ts|
  {
    if ts == [] {
      assert [t][1..] == [];
    } else {
      assert (ts + [t])[1..] == ts[1..] + [t];
      ResumeEachAppend(ts[1..], t, dt);
    }
  }

  /** Survivors keeps the live tasks in the order they were started: resumed one by one
      from the oldest, each unfinished task contributes itself advanced and each finished
      one nothing. */
  lemma {:induction false} SurvivorsInOrder<C>(ts: seq<Task<C>>, dt: real)
    ensures Survivors(ts, dt) == ResumeEach(ts, dt)
    decreases |ts|
  {
    if ts != [] {
      var init := ts[..|ts| - 1];
      var last := ts[|ts| - 1];
      SurvivorsInOrder(init, dt);
      ResumeEachAppend(init, last, dt);
      assert init + [last] == ts;
    }
  }

  /** A task resumed n times in a row with the same frame time: None once it has
      finished. */
  function ResumeTimes<C>(t: Task<C>, dt: real, n: nat): Option<Task<C>>
    decreases n
  {
    if n == 0 then Some(t)
    else match Resume(t, dt)
      case None => None
      case Some(t') => ResumeTimes(t', dt, n - 1)
  }

  /** Every transition ends: with a positive frame time and speed, a task whose progress
      plus n passes reaches 1 has finished after n + 1 resumptions. */
  lemma {:induction false} TransitionFinishes<C>(t: Task<C>, dt: real, n: nat)
    requires dt > 0.0 && t.speed > 0.0
    requires t.progress + (n as real) * (dt * t.speed) >= 1.0
    ensures ResumeTimes(t, dt, n + 1) == None
    decreases n
  {
    if t.progress < 1.0 {
      assert n > 0;
      var t' := Task(t.progress + dt * t.speed, t.speed, t.capture);
      assert t'.progress + ((n - 1) as real) * (dt * t.speed) == t.progress + (n as real) * (dt * t.speed);
      TransitionFinishes(t', dt, n - 1);
    }
  }
}
