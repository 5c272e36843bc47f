/** For which movement shifting the history is rewind and replay: exactly for that
    which commutes with translation. */
module PredictionExact {
  import opened Protocol
  import opened Prediction

  ghost predicate AlwaysRefines(move: Move) {
    forall states: seq<Tracked>, steps: seq<Step>, i: nat ::
      IsRun(move, states, steps) && i <= |steps| ==> Refines(move, states[i])
  }

  /** A reconcile in a run that finds its command. */
  ghost predicate Reconciles(move: Move, states: seq<Tracked>, steps: seq<Step>, i: nat) {
    IsRun(move, states, steps) && i < |steps| && steps[i].Reconcile? && Finds(states[i].p, steps[i].acked)
  }

  ghost predicate AlwaysReplays(move: Move) {
    forall states: seq<Tracked>, steps: seq<Step>, i: nat :: Reconciles(move, states, steps, i) ==>
      ReplaysUnacked(move, states[i], steps[i].server, steps[i].acked, states[i + 1])
  }

  // --------------------------------------------------------------------- runs

  function States(move: Move, steps: seq<Step>): (states: seq<Tracked>)
    ensures |states| == |steps| + 1
  {
    if steps == [] then [StartTracked()]
    else
      var front := States(move, steps[..|steps| - 1]);
      front + [Next(move, front[|front| - 1], steps[|steps| - 1])]
  }

  function End(move: Move, steps: seq<Step>): Tracked { States(move, steps)[|steps|] }

  lemma {:induction false} StatesIsRun(move: Move, steps: seq<Step>)
    ensures IsRun(move, States(move, steps), steps)
  {
    if steps == [] {
    } else {
      var n := |steps| - 1;
      var front := States(move, steps[..n]);
      StatesIsRun(move, steps[..n]);
      forall i | 0 <= i < |steps| ensures States(move, steps)[i + 1] == Next(move, States(move, steps)[i], steps[i]) {
        if i < n { assert front[i + 1] == Next(move, front[i], steps[..n][i]); }
      }
    }
  }

  lemma EndStep(move: Move, steps: seq<Step>, step: Step)
    ensures End(move, steps + [step]) == Next(move, End(move, steps), step)
    ensures States(move, steps + [step])[|steps|] == End(move, steps)
  {
    assert (steps + [step])[..|steps|] == steps;
  }

  // ------------------------------------------------------ reaching any position

  /** The parts of the state that matter below. */
  predicate Is(
    t: Tracked, pending: seq<PendingCommand>, position: Vec3, lastAcked: nat, since: seq<ClientCommand>, next: nat)
  {
    && t.p.pending == pending && t.p.position == position && t.p.lastAcked == lastAcked
    && t.since == since && t.nextSequence == next
  }

  function Entry(n: nat, c: ClientCommand, q: Vec3): PendingCommand { PendingCommand(n, c, q) }

  lemma PredictStep(move: Move, t: Tracked, c: ClientCommand)
    requires |t.p.pending| < MAX_PENDING_COMMANDS
    ensures var q := move(t.p.position, c);
            Is(Next(move, t, Predict(c)), t.p.pending + [Entry(t.nextSequence, c, q)], q, t.p.lastAcked,
               t.since + [c], t.nextSequence + 1)
  {
  }

  /** A reconcile that finds its command in front and corrects by `v`. */
  lemma CorrectStep(move: Move, t: Tracked, acked: nat, rest: seq<PendingCommand>, v: Vec3)
    requires acked > t.p.lastAcked && DropBefore(t.p.pending, acked) == rest && AckedFront(rest, acked)
    requires !ShorterThan(v, ERROR_THRESHOLD) && |rest| - 1 <= |t.since|
    ensures var t' := Next(move, t, Reconcile(rest[0].positionAfter.Plus(v), acked));
            && Finds(t.p, acked)
            && Is(t', ShiftAll(rest[1..], v), t.p.position.Plus(v), acked, t.since[|t.since| - (|rest| - 1)..],
                  t.nextSequence)
            && t'.base == rest[0].positionAfter.Plus(v) && t'.drift == ORIGIN
  {
    assert rest[0].positionAfter.Plus(v).Minus(rest[0].positionAfter) == v;
  }

  lemma LongAcross(v: Vec3)
    requires v.x >= 1.0 || v.x <= -1.0
    ensures !ShorterThan(v, ERROR_THRESHOLD)
  {
    assert v.x * v.x >= 1.0 && v.y * v.y >= 0.0 && v.z * v.z >= 0.0;
  }

  lemma OneMore(move: Move, c: ClientCommand, steps: seq<Step>, pending: seq<PendingCommand>, q: Vec3,
                since: seq<ClientCommand>, n: nat)
    requires Is(End(move, steps), pending, q, 0, since, n) && |pending| < MAX_PENDING_COMMANDS
    ensures Is(End(move, steps + [Predict(c)]), pending + [Entry(n, c, move(q, c))], move(q, c), 0, since + [c], n + 1)
  {
    EndStep(move, steps, Predict(c));
    PredictStep(move, End(move, steps), c);
  }

  function Predictions(c: ClientCommand): seq<Step> { [Predict(c)] + [Predict(c)] + [Predict(c)] + [Predict(c)] }

  /** Four predictions leave four entries. */
  lemma FourPredicted(move: Move, c: ClientCommand) returns (q0: Vec3, q1: Vec3, q2: Vec3, q3: Vec3)
    ensures Is(End(move, Predictions(c)), [Entry(0, c, q0), Entry(1, c, q1), Entry(2, c, q2), Entry(3, c, q3)],
               q3, 0, [c, c, c, c], 4)
  {
    var step := [Predict(c)];
    q0 := move(SPAWN, c);
    q1 := move(q0, c);
    q2 := move(q1, c);
    q3 := move(q2, c);
    OneMore(move, c, [], [], SPAWN, [], 0);
    assert [] + step == step && [] + [Entry(0, c, q0)] == [Entry(0, c, q0)] && [] + [c] == [c];
    OneMore(move, c, step, [Entry(0, c, q0)], q0, [c], 1);
    OneMore(move, c, step + step, [Entry(0, c, q0), Entry(1, c, q1)], q1, [c, c], 2);
    OneMore(move, c, step + step + step, [Entry(0, c, q0), Entry(1, c, q1), Entry(2, c, q2)], q2, [c, c, c], 3);
  }

  /** A correction takes the front entry off and shifts the others and the position. */
  lemma CorrectFirst(move: Move, c: ClientCommand, steps: seq<Step>, q0: Vec3, q1: Vec3, q2: Vec3, q3: Vec3, v: Vec3)
    returns (steps': seq<Step>)
    requires Is(End(move, steps), [Entry(0, c, q0), Entry(1, c, q1), Entry(2, c, q2), Entry(3, c, q3)],
                q3, 0, [c, c, c, c], 4)
    requires !ShorterThan(v, ERROR_THRESHOLD)
    ensures Is(End(move, steps'), [Entry(2, c, q2.Plus(v)), Entry(3, c, q3.Plus(v))], q3.Plus(v), 1, [c, c], 4)
  {
    var t, rest := End(move, steps), [Entry(1, c, q1), Entry(2, c, q2), Entry(3, c, q3)];
    assert t.p.pending[1..] == rest;
    CorrectStep(move, t, 1, rest, v);
    EndStep(move, steps, Reconcile(q1.Plus(v), 1));
    steps' := steps + [Reconcile(q1.Plus(v), 1)];
  }

  lemma CorrectSecond(move: Move, c: ClientCommand, steps: seq<Step>, q2: Vec3, q3: Vec3, v: Vec3)
    returns (steps': seq<Step>)
    requires Is(End(move, steps), [Entry(2, c, q2), Entry(3, c, q3)], q3, 1, [c, c], 4)
    requires !ShorterThan(v, ERROR_THRESHOLD)
    ensures Is(End(move, steps'), [Entry(3, c, q3.Plus(v))], q3.Plus(v), 2, [c], 4)
  {
    var t, rest := End(move, steps), [Entry(2, c, q2), Entry(3, c, q3)];
    CorrectStep(move, t, 2, rest, v);
    EndStep(move, steps, Reconcile(q2.Plus(v), 2));
    steps' := steps + [Reconcile(q2.Plus(v), 2)];
  }

  /** Two corrections, both large, move the last entry anywhere. */
  lemma ReachesAnywhere(move: Move, c: ClientCommand, p: Vec3) returns (steps: seq<Step>)
    ensures Is(End(move, steps), [Entry(3, c, p)], p, 2, [c], 4)
  {
    var q0, q1, q2, q3 := FourPredicted(move, c);
    var far := Vec3((if p.x >= q3.x then p.x - q3.x else q3.x - p.x) + 1.0, 0.0, 0.0);
    var back := p.Minus(q3).Minus(far);
    LongAcross(far);
    LongAcross(back);
    assert q3.Plus(back).Plus(far) == p;
    steps := CorrectFirst(move, c, Predictions(c), q0, q1, q2, q3, back);
    steps := CorrectSecond(move, c, steps, q2.Plus(back), q3.Plus(back), far);
  }

  // -------------------------------------------------------------------- probe

  /** From there one prediction of `c` and a correction by `v` put the prediction at
      `move(p, c) + v` and the reference at `move(p + v, c)`. */
  lemma Probe(move: Move, c: ClientCommand, p: Vec3, v: Vec3) returns (states: seq<Tracked>, steps: seq<Step>, i: nat)
    requires !ShorterThan(v, ERROR_THRESHOLD)
    ensures Reconciles(move, states, steps, i) && |steps| == i + 1 && steps[i] == Reconcile(p.Plus(v), 3)
    ensures states[i].p.position == move(p, c) && states[i].nextSequence == 5
    ensures |states[i].since| == 2 && states[i].since[1] == c
    ensures var t := states[i + 1];
            t.p.position == move(p, c).Plus(v) && t.base == p.Plus(v) && t.since == [c] && t.drift == ORIGIN
  {
    var before := ReachesAnywhere(move, c, p);
    var t := End(move, before);
    PredictStep(move, t, c);
    EndStep(move, before, Predict(c));
    var t' := Next(move, t, Predict(c));
    var rest := [Entry(3, c, p), Entry(4, c, move(p, c))];
    assert Is(t', rest, move(p, c), 2, [c, c], 5);
    var front, last := before + [Predict(c)], Reconcile(p.Plus(v), 3);
    CorrectStep(move, t', 3, rest, v);
    EndStep(move, front, last);
    steps, i := front + [last], |front|;
    states := States(move, steps);
    StatesIsRun(move, steps);
  }

  lemma ReplayOne(move: Move, start: Vec3, c: ClientCommand)
    ensures Replay(move, start, [c]) == move(start, c)
  {
    assert [c][..0] == [];
  }

  ghost predicate ShiftsFar(move: Move) {
    forall p: Vec3, v: Vec3, c: ClientCommand :: !ShorterThan(v, ERROR_THRESHOLD) ==> ShiftsBy(move, p, v, c)
  }

  predicate ShiftsBy(move: Move, p: Vec3, v: Vec3, c: ClientCommand) { move(p.Plus(v), c) == move(p, c).Plus(v) }

  /** A small shift is the sum of two large ones. */
  lemma FarIsEnough(move: Move)
    requires ShiftsFar(move)
    ensures TranslationInvariant(move)
  {
    forall p: Vec3, v: Vec3, c: ClientCommand ensures move(p.Plus(v), c) == move(p, c).Plus(v) {
      var far := Vec3((if v.x >= 0.0 then v.x else -v.x) + 1.0, 0.0, 0.0);
      var out, back := v.Plus(far), Vec3(-far.x, 0.0, 0.0);
      LongAcross(out);
      LongAcross(back);
      assert ShiftsBy(move, p, out, c) && ShiftsBy(move, p.Plus(out), back, c);
      assert p.Plus(out).Plus(back) == p.Plus(v);
      assert move(p, c).Plus(out).Plus(back) == move(p, c).Plus(v);
    }
  }

  lemma RefinesShifts(move: Move, p: Vec3, v: Vec3, c: ClientCommand)
    requires AlwaysRefines(move) && !ShorterThan(v, ERROR_THRESHOLD)
    ensures ShiftsBy(move, p, v, c)
  {
    var states, steps, i := Probe(move, c, p, v);
    assert Refines(move, states[i + 1]);
    ReplayOne(move, p.Plus(v), c);
  }

  lemma ReplaysShifts(move: Move, p: Vec3, v: Vec3, c: ClientCommand)
    requires AlwaysReplays(move) && !ShorterThan(v, ERROR_THRESHOLD)
    ensures ShiftsBy(move, p, v, c)
  {
    var states, steps, i := Probe(move, c, p, v);
    assert ReplaysUnacked(move, states[i], steps[i].server, steps[i].acked, states[i + 1]);
    assert states[i].since[1..] == [c];
    ReplayOne(move, p.Plus(v), c);
    LargeMoves(move(p, c), v);
  }

  lemma LargeMoves(p: Vec3, v: Vec3)
    requires !ShorterThan(v, ERROR_THRESHOLD)
    ensures p.Plus(v) != p
  {
    assert ShorterThan(ORIGIN, ERROR_THRESHOLD);
    assert v != ORIGIN;
  }

  // ------------------------------------------------------------------ results

  /** Over all runs the predicted position is the last accepted server position with
      all later commands replayed, plus the drift, if and only if the movement
      commutes with translation. */
  lemma RefinesExactly(move: Move)
    ensures AlwaysRefines(move) <==> TranslationInvariant(move)
  {
    if TranslationInvariant(move) {
      forall states: seq<Tracked>, steps: seq<Step>, i: nat | IsRun(move, states, steps) && i <= |steps|
        ensures Refines(move, states[i])
      {
        RefinesReplay(move, states, steps, i);
      }
    }
    if AlwaysRefines(move) {
      forall p: Vec3, v: Vec3, c: ClientCommand | !ShorterThan(v, ERROR_THRESHOLD) ensures ShiftsBy(move, p, v, c) {
        RefinesShifts(move, p, v, c);
      }
      FarIsEnough(move);
    }
  }

  /** And so for single reconciles: each that finds its command replays exactly the
      unacked ones if and only if the movement commutes with translation. */
  lemma ReplaysExactly(move: Move)
    ensures AlwaysReplays(move) <==> TranslationInvariant(move)
  {
    if TranslationInvariant(move) {
      forall states: seq<Tracked>, steps: seq<Step>, i: nat | Reconciles(move, states, steps, i)
        ensures ReplaysUnacked(move, states[i], steps[i].server, steps[i].acked, states[i + 1])
      {
        ReconcileReplaysUnacked(move, states, steps, i);
      }
    }
    if AlwaysReplays(move) {
      forall p: Vec3, v: Vec3, c: ClientCommand | !ShorterThan(v, ERROR_THRESHOLD) ensures ShiftsBy(move, p, v, c) {
        ReplaysShifts(move, p, v, c);
      }
      FarIsEnough(move);
    }
  }
}
