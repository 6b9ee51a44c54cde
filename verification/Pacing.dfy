/** Heal pacing over whole runs: the bookkeeping of every app in every run moves by the beats of its events. */
module Pacing {
  import opened Prelude
  import opened Model
  import opened Transitions
  import opened Runs
  import opened Backoff
  import opened Safety

  /** What `e` is to the bookkeeping of `app`. */
  function BeatFor(e: Event, app: string): Beat {
    if Subject(e) == app then BeatOf(e) else Idle
  }

  function BeatsFor(es: seq<Event>, app: string): (r: seq<Beat>)
    ensures |r| == |es| && forall i | 0 <= i < |r| :: r[i] == BeatFor(es[i], app)
  {
    seq(|es|, i requires 0 <= i < |es| => BeatFor(es[i], app))
  }

  function Entries(ws: seq<World>, app: string): (r: seq<Option<HealState>>)
    ensures |r| == |ws| && forall i | 0 <= i < |r| :: r[i] == Entry(ws[i].heal, app)
  {
    seq(|ws|, i requires 0 <= i < |ws| => Entry(ws[i].heal, app))
  }

  lemma StepIsTempo(w: World, v: World, owner: string -> string, e: Event)
    requires Step(w, v, owner, e)
    ensures Tempo(w.heal, v.heal, Subject(e), BeatOf(e))
  {
    hide Admissible, Flipped, StartedFor, Superseded, Pinned, KeepsPin, LatestAt, Refused, Patched, Mirrored, NextId;
    if e.Deploy? {
      assert Entry(v.heal, e.app.name) == None;
    }
  }

  lemma StepIsBeat(w: World, v: World, owner: string -> string, e: Event, app: string)
    requires Step(w, v, owner, e)
    ensures BeatStep(Entry(w.heal, app), Entry(v.heal, app), BeatFor(e, app))
  {
    hide Step;
    StepIsTempo(w, v, owner, e);
    if app != Subject(e) && !BeatOf(e).Idle? {
      SameButAt(w.heal, v.heal, Subject(e), app);
    }
  }

  /** Every attempt of the run was made under the limit `max`. */
  ghost predicate Under(es: seq<Event>, app: string, max: nat) {
    forall i | 0 <= i < |es| && BeatFor(es[i], app).Attempt? :: BeatFor(es[i], app).max == max
  }

  lemma RunIsBeats(ws: seq<World>, es: seq<Event>, owner: string -> string, app: string, max: nat)
    requires Run(ws, es, owner) && Init(ws[0]) && Under(es, app, max)
    ensures Beats(Entries(ws, app), BeatsFor(es, app), max)
  {
    hide Step, BeatStep;
    forall i | 0 <= i < |es| ensures BeatStep(Entries(ws, app)[i], Entries(ws, app)[i + 1], BeatsFor(es, app)[i]) {
      StepIsBeat(ws[i], ws[i + 1], owner, es[i], app);
    }
  }

  /** In every state of every run an app's attempt count is its failures since the last reset, at most `max`. */
  lemma RunCountsAttempts(ws: seq<World>, es: seq<Event>, owner: string -> string, app: string, max: nat, n: nat)
    requires Run(ws, es, owner) && Init(ws[0]) && Under(es, app, max) && n < |ws|
    ensures Attempts(Entry(ws[n].heal, app)) == Failures(BeatsFor(es, app)[..n]) <= max
  {
    hide Step, BeatStep, Failures;
    RunIsBeats(ws, es, owner, app, max);
    AttemptsAreFailures(Entries(ws, app), BeatsFor(es, app), max, n);
  }

  /** In every run the attempt after a failed one starts at least healBackoff(k) later, k being the count it left. */
  lemma RunIsPaced(ws: seq<World>, es: seq<Event>, owner: string -> string, app: string, max: nat, i: nat, j: nat)
    requires Run(ws, es, owner) && Init(ws[0]) && Under(es, app, max) && i < j < |es|
    requires BeatFor(es[i], app).Attempt? && !BeatFor(es[i], app).ok && BeatFor(es[j], app).Attempt?
    requires forall m | i < m < j :: Passive(BeatFor(es[m], app))
    ensures var k := Attempts(Entry(ws[i + 1].heal, app));
      1 <= k <= max && BeatFor(es[j], app).at - BeatFor(es[i], app).at >= HealBackoff(k) >= BACKOFF_BASE
  {
    hide Step, BeatStep, Failures, HealBackoff;
    RunIsBeats(ws, es, owner, app, max);
    RunCountsAttempts(ws, es, owner, app, max, i + 1);
    Paced(Entries(ws, app), BeatsFor(es, app), max, i, j);
  }

  /** In every run, after the last allowed failure nothing is attempted until a deploy or a healthy observation. */
  lemma RunGivesUp(ws: seq<World>, es: seq<Event>, owner: string -> string, app: string, max: nat, i: nat, j: nat)
    requires Run(ws, es, owner) && Init(ws[0]) && Under(es, app, max) && i <= j < |es|
    requires Attempts(Entry(ws[i].heal, app)) == max && forall m | i <= m < j :: !BeatFor(es[m], app).Reset?
    ensures !BeatFor(es[j], app).Attempt?
  {
    hide Step, BeatStep, Failures;
    RunIsBeats(ws, es, owner, app, max);
    RunCountsAttempts(ws, es, owner, app, max, i);
    GivesUp(Entries(ws, app), BeatsFor(es, app), max, i, j);
  }
}
