/**
 * The resumable backfill: a chunking loop whose cursor is stored after every window.
 *
 * `attempt(n)` decides how the n-th window attempt of the process history ends, so every schedule of
 * failures and process deaths is covered.
 */
module Backfill {
  import opened Common

  /** The run key is a hash of exactly these values. */
  datatype RunKey = RunKey(symbol: string, timeframe: string, start: int, end: int)

  datatype Status = RUNNING | FAILED | COMPLETE

  datatype BackfillState = BackfillState(nextStart: int, status: Status, lastError: Option<string>)

  datatype Window = Window(start: int, end: int)

  /**
   * How one pass through the loop body ends.  The bars are committed before the cursor is written, so
   * a failure can fall between the two writes; the flag says that the bars were committed.
   */
  datatype Attempt =
    | Succeeds
    | Raises(error: string, torn: bool)  // load, normalize, commit or upsert raises; the handler records the failure
    | Dies(torn: bool)                   // the process ends before the cursor is written

  datatype Outcome = Rejected | Finished | Raised(error: string) | Died

  /**
   * The stored states, and the history: what dry runs previewed, what was fetched, committed and recorded
   * by the others, and what failed.
   */
  datatype World = World(
    states: map<RunKey, BackfillState>, attempts: nat, previewed: seq<Window>, fetched: seq<Window>,
    committed: seq<Window>, recorded: seq<Window>, failures: nat, torn: nat)

  function AdvanceWindow(start: int, end: int, step: int): (r: int) {
    if end < start + step then end else start + step
  }

  function StartOf(states: map<RunKey, BackfillState>, key: RunKey): int {
    if key in states then states[key].nextStart else key.start
  }

  /** The bars of the window are loaded, also by a dry run. */
  function Loaded(w: World, dryRun: bool, window: Window): World {
    w.(attempts := w.attempts + 1,
       previewed := if dryRun then w.previewed + [window] else w.previewed,
       fetched := if dryRun then w.fetched else w.fetched + [window])
  }

  /** A failed attempt: counted, with its bars committed or not. */
  function Failed(w: World, window: Window, torn: bool): World {
    w.(failures := w.failures + 1,
       committed := if torn then w.committed + [window] else w.committed,
       torn := if torn then w.torn + 1 else w.torn)
  }

  /** A successful attempt: the bars are committed and the cursor moves to the end of the window. */
  function Recorded(key: RunKey, w: World, window: Window): World {
    w.(states := w.states[key := BackfillState(window.end, if window.end < key.end then RUNNING else COMPLETE, None)],
       committed := w.committed + [window], recorded := w.recorded + [window])
  }

  /** The loop of `backfill` from `next` on. */
  function Loop(attempt: nat -> Attempt, key: RunKey, step: int, dryRun: bool, next: int, w: World): (r: (World, Outcome))
    requires step > 0
    decreases key.end - next
  {
    if next >= key.end then (w, Finished)
    else
      var chunkEnd := AdvanceWindow(next, key.end, step);
      var w1 := Loaded(w, dryRun, Window(next, chunkEnd));
      match attempt(w.attempts)
      case Succeeds =>
        Loop(attempt, key, step, dryRun, chunkEnd, if dryRun then w1 else Recorded(key, w1, Window(next, chunkEnd)))
      case Raises(error, torn) =>
        var w2 := if dryRun then w1 else
          Failed(w1, Window(next, chunkEnd), torn).(states := w1.states[key := BackfillState(next, FAILED, Some(error))]);
        (w2, Raised(error))
      case Dies(torn) => (if dryRun then w1 else Failed(w1, Window(next, chunkEnd), torn), Died)
  }

  function Call(attempt: nat -> Attempt, key: RunKey, step: int, dryRun: bool, w: World): (r: (World, Outcome))
    requires step > 0
  {
    if key.end <= key.start then (w, Rejected) else Loop(attempt, key, step, dryRun, StartOf(w.states, key), w)
  }

  class BackfillService {
    const attempt: nat -> Attempt
    var states: map<RunKey, BackfillState>
    var attempts: nat
    ghost var previewed: seq<Window>
    ghost var fetched: seq<Window>
    ghost var committed: seq<Window>
    ghost var recorded: seq<Window>
    ghost var failures: nat
    ghost var torn: nat

    ghost function Now(): World
      reads this
    {
      World(states, attempts, previewed, fetched, committed, recorded, failures, torn)
    }

    constructor (attempt: nat -> Attempt)
      ensures this.attempt == attempt && Now() == World(map[], 0, [], [], [], [], 0, 0)
    {
      this.attempt := attempt;
      states, attempts := map[], 0;
      previewed, fetched, committed, recorded := [], [], [], [];
      failures, torn := 0, 0;
    }

    /** The history of a failed attempt. */
    ghost method RecordFailure(window: Window, late: bool)
      modifies this`committed, this`failures, this`torn
      ensures Now() == Failed(old(Now()), window, late)
    {
      failures := failures + 1;
      if late {
        committed := committed + [window];
        torn := torn + 1;
      }
    }

    method RunBackfill(key: RunKey, step: int, dryRun: bool) returns (outcome: Outcome)
      requires step > 0
      modifies this
      ensures (Now(), outcome) == Call(attempt, key, step, dryRun, old(Now()))
    {
      if key.end <= key.start {
        return Rejected;
      }
      var next := StartOf(states, key);
      while next < key.end
        invariant Loop(attempt, key, step, dryRun, next, Now()) == Call(attempt, key, step, dryRun, old(Now()))
        decreases key.end - next
      {
        var chunkEnd := AdvanceWindow(next, key.end, step);
        var result := attempt(attempts);
        attempts := attempts + 1;
        if dryRun {
          previewed := previewed + [Window(next, chunkEnd)];
        } else {
          fetched := fetched + [Window(next, chunkEnd)];
        }
        match result {
          case Succeeds =>
            if !dryRun {
              committed := committed + [Window(next, chunkEnd)];
              states := states[key := BackfillState(chunkEnd, if chunkEnd < key.end then RUNNING else COMPLETE, None)];
              recorded := recorded + [Window(next, chunkEnd)];
            }
          case Raises(error, late) =>
            if !dryRun {
              RecordFailure(Window(next, chunkEnd), late);
              states := states[key := BackfillState(next, FAILED, Some(error))];
            }
            return Raised(error);
          case Dies(late) =>
            if !dryRun {
              RecordFailure(Window(next, chunkEnd), late);
            }
            return Died;
        }
        next := chunkEnd;
      }
      return Finished;
    }
  }

  // ---------- the failure-free window list ----------

  function Windows(start: int, end: int, step: int): seq<Window>
    requires step > 0
    decreases end - start
  {
    if start >= end then []
    else [Window(start, AdvanceWindow(start, end, step))] + Windows(AdvanceWindow(start, end, step), end, step)
  }

  /** The windows tile the range: contiguous, non-empty and no longer than one step. */
  lemma {:induction false} WindowsTile(start: int, end: int, step: int)
    requires step > 0
    ensures var ws := Windows(start, end, step);
            && (start < end ==> ws != [] && ws[0].start == start && ws[|ws| - 1].end == end)
            && (forall i :: 0 <= i < |ws| ==> ws[i].start < ws[i].end <= ws[i].start + step)
            && (forall i :: 0 <= i < |ws| - 1 ==> ws[i].end == ws[i + 1].start == ws[i].start + step)
    decreases end - start
  {
    if start < end {
      WindowsTile(AdvanceWindow(start, end, step), end, step);
    }
  }

  lemma WindowsIncrease(start: int, end: int, step: int, i: nat)
    requires step > 0 && i + 1 < |Windows(start, end, step)|
    ensures Windows(start, end, step)[i].start < Windows(start, end, step)[i + 1].start
  {
    WindowsTile(start, end, step);
    hide Windows;
  }

  /** There are ceil(length / step) of them. */
  lemma {:induction false} WindowsCount(start: int, end: int, step: int)
    requires step > 0 && start < end
    ensures |Windows(start, end, step)| == (end - start + step - 1) / step
    decreases end - start
  {
    var next := AdvanceWindow(start, end, step);
    if next < end {
      WindowsCount(next, end, step);
      CeilStep(end - start, step);
    } else {
      CeilOne(end - start, step);
    }
  }

  lemma CeilStep(n: int, step: int)
    requires step > 0 && n > step
    ensures (n + step - 1) / step == (n - step + step - 1) / step + 1
  {
    var q := (n - 1) / step;
    assert n - 1 == q * step + (n - 1) % step;
    DivUnique(n + step - 1, step, q + 1, (n - 1) % step);
  }

  lemma CeilOne(n: int, step: int)
    requires 0 < n <= step
    ensures (n + step - 1) / step == 1
  {
    DivUnique(n + step - 1, step, 1, n - 1);
  }

  lemma DivUnique(n: int, d: int, q: int, r: int)
    requires d > 0 && 0 <= r < d && n == q * d + r
    ensures n / d == q
  {
    var e := n / d - q;
    assert e * d == r - n % d;
    assert (e >= 1 ==> e * d >= d) && (e <= -1 ==> e * d <= -d);
  }

  // ---------- runs ----------

  ghost function Run(attempt: nat -> Attempt, key: RunKey, step: int, calls: seq<bool>, w: World): World
    requires step > 0
    decreases |calls|
  {
    if calls == [] then w else Run(attempt, key, step, calls[1..], Call(attempt, key, step, calls[0], w).0)
  }

  /** The stored cursor sits at the end of the recorded windows, which are a prefix of the failure-free list. */
  ghost predicate OnTrack(key: RunKey, step: int, w: World)
    requires step > 0
  {
    && key.start <= StartOf(w.states, key) <= key.end
    && Windows(key.start, key.end, step) == w.recorded + Windows(StartOf(w.states, key), key.end, step)
    && (key in w.states ==> (w.states[key].status == COMPLETE <==> w.states[key].nextStart == key.end))
    && |w.fetched| <= |w.recorded| + w.failures
    && AllIn(w.fetched, Windows(key.start, key.end, step))
    && CommitsOnTrack(w, if StartOf(w.states, key) < key.end then Some(NextOf(key, step, w)) else None)
  }

  function NextOf(key: RunKey, step: int, w: World): Window {
    Window(StartOf(w.states, key), AdvanceWindow(StartOf(w.states, key), key.end, step))
  }

  /** Every window once for a run of equal neighbours. */
  ghost function Condense(ws: seq<Window>): seq<Window> {
    if |ws| <= 1 then ws
    else if ws[|ws| - 1] == ws[|ws| - 2] then Condense(ws[..|ws| - 1])
    else Condense(ws[..|ws| - 1]) + [ws[|ws| - 1]]
  }

  /**
   * The committed windows are the recorded ones in order, perhaps followed by the next one; a window is
   * committed again only after a failure that fell between the two writes.
   */
  ghost predicate CommitsOnTrack(w: World, next: Option<Window>) {
    && |w.committed| == |w.recorded| + w.torn && w.torn <= w.failures
    && (Condense(w.committed) == w.recorded || (next.Some? && Condense(w.committed) == w.recorded + [next.value]))
  }

  lemma {:induction false} CondenseShape(ws: seq<Window>)
    ensures ws != [] ==> Condense(ws) != [] && Condense(ws)[|Condense(ws)| - 1] == ws[|ws| - 1]
    ensures |Condense(ws)| <= |ws| && (|Condense(ws)| == |ws| ==> Condense(ws) == ws)
  {
    if |ws| > 1 {
      CondenseShape(ws[..|ws| - 1]);
      assert ws == ws[..|ws| - 1] + [ws[|ws| - 1]];
    }
  }

  /** Committing the next window, for the first time or again. */
  lemma CommitNext(w: World, window: Window)
    requires CommitsOnTrack(w, Some(window)) && (w.recorded == [] || w.recorded[|w.recorded| - 1] != window)
    ensures Condense(w.committed + [window]) == w.recorded + [window]
  {
    CondenseShape(w.committed);
    var grown := w.committed + [window];
    assert grown[..|w.committed|] == w.committed;
    if w.committed != [] {
      assert grown[|grown| - 2] == w.committed[|w.committed| - 1];
    }
  }

  /** The next window was not the last one recorded. */
  lemma NextIsNew(key: RunKey, step: int, w: World)
    requires step > 0 && StartOf(w.states, key) < key.end
    requires Windows(key.start, key.end, step) == w.recorded + Windows(StartOf(w.states, key), key.end, step)
    ensures w.recorded == [] || w.recorded[|w.recorded| - 1] != NextOf(key, step, w)
  {
    hide Windows, AdvanceWindow;
    var ws, rest, n := Windows(key.start, key.end, step), Windows(StartOf(w.states, key), key.end, step), |w.recorded|;
    WindowsTile(StartOf(w.states, key), key.end, step);
    assert ws[n] == rest[0];
    if n > 0 {
      assert ws[n - 1] == w.recorded[n - 1];
      WindowsIncrease(key.start, key.end, step, n - 1);
    }
  }

  ghost predicate AllIn(fetched: seq<Window>, windows: seq<Window>) {
    forall f :: f in fetched ==> f in windows
  }

  lemma AllInAppend(fetched: seq<Window>, window: Window, windows: seq<Window>)
    requires AllIn(fetched, windows) && window in windows
    ensures AllIn(fetched + [window], windows)
  {
  }

  lemma NextWindow(key: RunKey, step: int, w: World)
    requires step > 0 && OnTrack(key, step, w) && StartOf(w.states, key) < key.end
    ensures var next := StartOf(w.states, key);
            var window := Window(next, AdvanceWindow(next, key.end, step));
            && Windows(key.start, key.end, step) == (w.recorded + [window]) + Windows(window.end, key.end, step)
            && window in Windows(key.start, key.end, step)
  {
    var next := StartOf(w.states, key);
    var window := Window(next, AdvanceWindow(next, key.end, step));
    assert Windows(next, key.end, step) == [window] + Windows(window.end, key.end, step);
    assert Windows(key.start, key.end, step)[|w.recorded|] == window;
  }

  /** The world after one attempt at the next window. */
  function AfterAttempt(key: RunKey, step: int, w: World, result: Attempt): World {
    var next := StartOf(w.states, key);
    var chunkEnd := AdvanceWindow(next, key.end, step);
    var w1 := Loaded(w, false, Window(next, chunkEnd));
    match result
    case Succeeds => Recorded(key, w1, Window(next, chunkEnd))
    case Raises(error, torn) =>
      Failed(w1, Window(next, chunkEnd), torn).(states := w1.states[key := BackfillState(next, FAILED, Some(error))])
    case Dies(torn) => Failed(w1, Window(next, chunkEnd), torn)
  }

  /** The committed windows after one attempt. */
  lemma AttemptCommits(key: RunKey, step: int, w: World, result: Attempt)
    requires step > 0 && OnTrack(key, step, w) && StartOf(w.states, key) < key.end
    ensures var w' := AfterAttempt(key, step, w, result);
            CommitsOnTrack(w', if result.Succeeds? then None else Some(NextOf(key, step, w)))
  {
    NextIsNew(key, step, w);
    CommitNext(w, NextOf(key, step, w));
    hide Condense;
  }

  lemma AttemptOnTrack(key: RunKey, step: int, w: World, result: Attempt)
    requires step > 0 && OnTrack(key, step, w) && StartOf(w.states, key) < key.end
    ensures var w', next := AfterAttempt(key, step, w, result), StartOf(w.states, key);
            && OnTrack(key, step, w') && OthersUnchanged(key, w, w')
            && StartOf(w'.states, key) == if result.Succeeds? then AdvanceWindow(next, key.end, step) else next
  {
    NextWindow(key, step, w);
    AttemptFrame(key, step, w, result);
    AttemptCommits(key, step, w, result);
    hide Windows, AllIn, OthersUnchanged, Condense;
    var next := StartOf(w.states, key);
    AllInAppend(w.fetched, Window(next, AdvanceWindow(next, key.end, step)), Windows(key.start, key.end, step));
  }

  lemma AttemptFrame(key: RunKey, step: int, w: World, result: Attempt)
    ensures OthersUnchanged(key, w, AfterAttempt(key, step, w, result))
  {
  }

  ghost predicate OthersUnchanged(key: RunKey, w: World, w': World) {
    forall other :: other != key ==> (other in w'.states <==> other in w.states) && (other in w.states ==> w'.states[other] == w.states[other])
  }

  /** A recording call keeps the cursor on track, never moves it back, and finishes only at the end. */
  lemma {:induction false} LoopOnTrack(attempt: nat -> Attempt, key: RunKey, step: int, w: World)
    requires step > 0 && key.start < key.end && OnTrack(key, step, w)
    ensures var (w', outcome) := Loop(attempt, key, step, false, StartOf(w.states, key), w);
            && OnTrack(key, step, w') && OthersUnchanged(key, w, w')
            && StartOf(w.states, key) <= StartOf(w'.states, key)
            && (outcome == Finished ==> StartOf(w'.states, key) == key.end)
    decreases key.end - StartOf(w.states, key)
  {
    assert StartOf(w.states, key) <= key.end;
    hide OnTrack, StartOf;
    if StartOf(w.states, key) < key.end {
      var result := attempt(w.attempts);
      AttemptOnTrack(key, step, w, result);
      if result.Succeeds? {
        LoopOnTrack(attempt, key, step, AfterAttempt(key, step, w, result));
      }
    }
  }

  /** A dry run changes nothing but its own history, and previews the remaining windows from the first on. */
  lemma {:induction false} DryRunRecordsNothing(attempt: nat -> Attempt, key: RunKey, step: int, next: int, w: World)
    requires step > 0
    ensures var (w', outcome) := Loop(attempt, key, step, true, next, w);
            && w' == w.(attempts := w'.attempts, previewed := w'.previewed)
            && w'.previewed <= w.previewed + Windows(next, key.end, step)
            && (outcome == Finished ==> w'.previewed == w.previewed + Windows(next, key.end, step))
    decreases key.end - next
  {
    if next < key.end {
      var chunkEnd := AdvanceWindow(next, key.end, step);
      var w1 := Loaded(w, true, Window(next, chunkEnd));
      DryRunRecordsNothing(attempt, key, step, chunkEnd, w1);
      assert w1.previewed + Windows(chunkEnd, key.end, step) == w.previewed + Windows(next, key.end, step);
    }
  }

  /**
   * Under every schedule of failures, deaths, restarts and dry runs, the recorded windows are a prefix
   * of the failure-free list, every fetched window belongs to that list, each failure costs at most one
   * extra fetch, and the committed windows are the recorded ones with a repetition for each failure that
   * fell between the two writes.
   */
  lemma {:induction false} RunOnTrack(attempt: nat -> Attempt, key: RunKey, step: int, calls: seq<bool>, w: World)
    requires step > 0 && key.start < key.end && OnTrack(key, step, w)
    ensures OnTrack(key, step, Run(attempt, key, step, calls, w))
    ensures StartOf(w.states, key) <= StartOf(Run(attempt, key, step, calls, w).states, key)
    decreases |calls|
  {
    if calls != [] {
      if calls[0] {
        DryRunRecordsNothing(attempt, key, step, StartOf(w.states, key), w);
      } else {
        LoopOnTrack(attempt, key, step, w);
      }
      RunOnTrack(attempt, key, step, calls[1..], Call(attempt, key, step, calls[0], w).0);
    }
  }

  /**
   * A recording call that returns has recorded exactly the failure-free list and has committed the same
   * windows in the same order, one of them again for each failure between the two writes; a later call
   * fetches nothing.
   */
  lemma FinishedRecordsEverything(attempt: nat -> Attempt, key: RunKey, step: int, calls: seq<bool>, dryRun: bool, w: World)
    requires step > 0 && key.start < key.end && key !in w.states && w.recorded == [] && w.fetched == []
    requires w.committed == [] && w.torn == 0
    requires var before := Run(attempt, key, step, calls, w); Call(attempt, key, step, false, before).1 == Finished
    ensures var after := Call(attempt, key, step, false, Run(attempt, key, step, calls, w)).0;
            && after.recorded == Windows(key.start, key.end, step)
            && |after.fetched| <= |after.recorded| + after.failures
            && Condense(after.committed) == after.recorded && |after.committed| == |after.recorded| + after.torn
            && (after.torn == 0 ==> after.committed == after.recorded)
            && key in after.states && after.states[key].status == COMPLETE && after.states[key].nextStart == key.end
            && Call(attempt, key, step, dryRun, after) == (after, Finished)
  {
    assert w.recorded + Windows(key.start, key.end, step) == Windows(key.start, key.end, step);
    RunOnTrack(attempt, key, step, calls, w);
    var before := Run(attempt, key, step, calls, w);
    LoopOnTrack(attempt, key, step, before);
    var after := Call(attempt, key, step, false, before).0;
    assert after.recorded + [] == after.recorded;
    CondenseShape(after.committed);
  }

  // ---------- progress ----------

  /** The number of attempts from `from` on, up to `n`, that succeed before the first one that does not. */
  ghost function Successes(attempt: nat -> Attempt, from: nat, n: nat): (k: nat)
    ensures k <= n
    decreases n
  {
    if n == 0 || !attempt(from).Succeeds? then 0 else 1 + Successes(attempt, from + 1, n - 1)
  }

  lemma {:induction false} SuccessesAll(attempt: nat -> Attempt, from: nat, n: nat)
    ensures Successes(attempt, from, n) == n <==> forall m: nat :: from <= m < from + n ==> attempt(m).Succeeds?
    ensures Successes(attempt, from, n) < n ==> !attempt(from + Successes(attempt, from, n)).Succeeds?
    decreases n
  {
    if n > 0 && attempt(from).Succeeds? {
      SuccessesAll(attempt, from + 1, n - 1);
    }
  }

  /** With `ws` the windows that remain: whether all attempts succeed, or else how the first other one ends the call. */
  ghost predicate EndsAs(attempt: nat -> Attempt, from: nat, ws: seq<Window>, after: nat, outcome: Outcome) {
    var k := Successes(attempt, from, |ws|);
    if k == |ws| then outcome == Finished && after == from + k
    else
      && after == from + k + 1
      && (attempt(from + k).Raises? ==> outcome == Raised(attempt(from + k).error))
      && (attempt(from + k).Dies? ==> outcome == Died)
  }

  /**
   * What the key's state is after a recording call that fetched something: complete at the end, or the cursor
   * at the window that failed, with its error or, when the process died, as the last success left it.
   */
  ghost predicate StateAs(attempt: nat -> Attempt, key: RunKey, from: nat, ws: seq<Window>, before: World, after: World) {
    var k := Successes(attempt, from, |ws|);
    if k == |ws| then k > 0 ==> key in after.states && after.states[key] == BackfillState(key.end, COMPLETE, None)
    else if attempt(from + k).Raises? then
      key in after.states && after.states[key] == BackfillState(ws[k].start, FAILED, Some(attempt(from + k).error))
    else if k > 0 then key in after.states && after.states[key] == BackfillState(ws[k].start, RUNNING, None)
    else after.states == before.states
  }

  lemma WindowsUnfold(start: int, end: int, step: int)
    requires step > 0 && start < end
    ensures var next := AdvanceWindow(start, end, step);
            start < next <= end && Windows(start, end, step) == [Window(start, next)] + Windows(next, end, step)
    ensures AdvanceWindow(start, end, step) == end ==> Windows(end, end, step) == []
  {
  }

  /** A call finishes exactly when as many attempts succeed as windows remain; otherwise the first other one decides. */
  lemma {:induction false} CallEnds(attempt: nat -> Attempt, key: RunKey, step: int, dryRun: bool, next: int, w: World)
    requires step > 0
    ensures var (w', outcome) := Loop(attempt, key, step, dryRun, next, w);
            EndsAs(attempt, w.attempts, Windows(next, key.end, step), w'.attempts, outcome)
    decreases key.end - next
  {
    if next < key.end {
      WindowsUnfold(next, key.end, step);
      hide Windows, AdvanceWindow;
      var chunkEnd := AdvanceWindow(next, key.end, step);
      if attempt(w.attempts).Succeeds? {
        var w1 := Loaded(w, dryRun, Window(next, chunkEnd));
        CallEnds(attempt, key, step, dryRun, chunkEnd, if dryRun then w1 else Recorded(key, w1, Window(next, chunkEnd)));
      }
    }
  }

  /** What a recording call leaves in the stored state. */
  lemma {:induction false} CallStores(attempt: nat -> Attempt, key: RunKey, step: int, next: int, w: World)
    requires step > 0
    ensures StateAs(attempt, key, w.attempts, Windows(next, key.end, step), w, Loop(attempt, key, step, false, next, w).0)
    decreases key.end - next
  {
    if next < key.end {
      WindowsUnfold(next, key.end, step);
      var chunkEnd := AdvanceWindow(next, key.end, step);
      if attempt(w.attempts).Succeeds? {
        if chunkEnd < key.end {
          WindowsUnfold(chunkEnd, key.end, step);
        }
        hide Windows, AdvanceWindow;
        var w1 := Loaded(w, false, Window(next, chunkEnd));
        CallStores(attempt, key, step, chunkEnd, Recorded(key, w1, Window(next, chunkEnd)));
      }
    }
  }

  /** What a call records: the windows of the attempts that succeed, and nothing when it is a dry run. */
  lemma {:induction false} CallRecords(attempt: nat -> Attempt, key: RunKey, step: int, dryRun: bool, next: int, w: World)
    requires step > 0
    ensures var w' := Loop(attempt, key, step, dryRun, next, w).0;
            var ws := Windows(next, key.end, step);
            if dryRun then w'.states == w.states && w'.recorded == w.recorded
            else w'.recorded == w.recorded + ws[..Successes(attempt, w.attempts, |ws|)]
    decreases key.end - next
  {
    if next < key.end {
      WindowsUnfold(next, key.end, step);
      hide Windows, AdvanceWindow;
      var chunkEnd := AdvanceWindow(next, key.end, step);
      var window, rest := Window(next, chunkEnd), Windows(chunkEnd, key.end, step);
      var w1 := Loaded(w, dryRun, window);
      if attempt(w.attempts).Succeeds? {
        CallRecords(attempt, key, step, dryRun, chunkEnd, if dryRun then w1 else Recorded(key, w1, window));
        var k := Successes(attempt, w.attempts + 1, |rest|);
        assert ([window] + rest)[..k + 1] == [window] + rest[..k];
        assert w.recorded + ([window] + rest)[..k + 1] == (w.recorded + [window]) + rest[..k];
      }
    }
  }

  /**
   * Progress: a recording call whose attempts all succeed, as many as windows remain, finishes, with the
   * whole range recorded and the cursor at its end.
   */
  lemma HealthyCallFinishes(attempt: nat -> Attempt, key: RunKey, step: int, w: World)
    requires step > 0 && key.start < key.end && OnTrack(key, step, w)
    requires var n := |Windows(StartOf(w.states, key), key.end, step)|; forall m: nat :: w.attempts <= m < w.attempts + n ==> attempt(m).Succeeds?
    ensures var (w', outcome) := Call(attempt, key, step, false, w);
            && outcome == Finished && w'.attempts == w.attempts + |Windows(StartOf(w.states, key), key.end, step)|
            && w'.recorded == Windows(key.start, key.end, step) && StartOf(w'.states, key) == key.end
  {
    var next := StartOf(w.states, key);
    var ws := Windows(next, key.end, step);
    assert Windows(key.start, key.end, step) == w.recorded + ws;
    LoopOnTrack(attempt, key, step, w);
    hide Windows, Loop, OnTrack;
    SuccessesAll(attempt, w.attempts, |ws|);
    CallEnds(attempt, key, step, false, next, w);
    CallRecords(attempt, key, step, false, next, w);
    assert ws[..|ws|] == ws;
  }

  /** An empty or inverted range is refused before anything happens. */
  lemma EmptyRangeRefused(attempt: nat -> Attempt, key: RunKey, step: int, dryRun: bool, w: World)
    requires step > 0
    ensures Call(attempt, key, step, dryRun, w) == (w, Rejected) <==> key.end <= key.start
  {
    if key.start < key.end {
      CallEnds(attempt, key, step, dryRun, StartOf(w.states, key), w);
    }
  }
}
