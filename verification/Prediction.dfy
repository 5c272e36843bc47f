/** Client prediction: shifting the pending history is a fast form of resetting
    to the server's position and replaying the commands it has not seen.

    Collision and gravity are one function `move` from a position and a command
    to the next position; the results need it to be translation invariant. */
module Prediction {
  import opened Collections
  import opened Protocol

  const MAX_PENDING_COMMANDS: nat := 128
  const ERROR_THRESHOLD: real := 0.0001
  const SNAP_THRESHOLD: real := 1.0

  /** `length() < limit`, without the square root. */
  predicate ShorterThan(v: Vec3, limit: real) { v.LengthSquared() < limit * limit }

  predicate LongerThan(v: Vec3, limit: real) { v.LengthSquared() > limit * limit }

  datatype PendingCommand = PendingCommand(sequence: nat, command: ClientCommand, positionAfter: Vec3)

  datatype Predictor = Predictor(
    pending: seq<PendingCommand>,
    position: Vec3,
    prevPosition: Vec3,
    visualPosition: Vec3,
    positionError: Vec3,
    lastAcked: nat)

  const SPAWN: Vec3 := Vec3(0.0, 2.0, 0.0)

  function FreshPredictor(): Predictor { Predictor([], SPAWN, SPAWN, SPAWN, ORIGIN, 0) }

  function Prepared(p: Predictor): Predictor { p.(prevPosition := p.position) }

  function Remember(p: Predictor, command: ClientCommand, sequence: nat): Predictor {
    p.(pending := KeepLast(p.pending + [PendingCommand(sequence, command, p.position)], MAX_PENDING_COMMANDS))
  }

  function Visualized(p: Predictor, alpha: real): Predictor {
    p.(visualPosition := p.prevPosition.Lerp(p.position, alpha).Plus(p.positionError))
  }

  /** `update`: the smoothing error decays by some factor. */
  function Decayed(p: Predictor, factor: real): Predictor { p.(positionError := p.positionError.Scale(factor)) }

  function DropBefore(pending: seq<PendingCommand>, acked: nat): seq<PendingCommand> {
    if pending != [] && pending[0].sequence < acked then DropBefore(pending[1..], acked) else pending
  }

  function ShiftAll(pending: seq<PendingCommand>, v: Vec3): seq<PendingCommand> {
    seq(|pending|, i requires 0 <= i < |pending| => pending[i].(positionAfter := pending[i].positionAfter.Plus(v)))
  }

  function Corrected(p: Predictor, rest: seq<PendingCommand>, error: Vec3): Predictor {
    p.(pending := ShiftAll(rest, error),
       position := p.position.Plus(error),
       prevPosition := p.prevPosition.Plus(error),
       positionError := if LongerThan(error, SNAP_THRESHOLD) then ORIGIN else p.positionError.Minus(error))
  }

  predicate AckedFront(rest: seq<PendingCommand>, acked: nat) {
    rest != [] && rest[0].sequence == acked
  }

  function Reconciled(p: Predictor, server: Vec3, acked: nat): Predictor {
    if acked <= p.lastAcked then p else
    var rest := DropBefore(p.pending, acked);
    var noted := p.(lastAcked := acked);
    if !AckedFront(rest, acked) then noted.(pending := rest) else
    var error := server.Minus(rest[0].positionAfter);
    if ShorterThan(error, ERROR_THRESHOLD) then noted.(pending := rest[1..])
    else Corrected(noted, rest[1..], error)
  }

  // ---------------------------------------------------------------- reference

  type Move = (Vec3, ClientCommand) -> Vec3

  ghost predicate TranslationInvariant(move: Move) {
    forall p: Vec3, v: Vec3, c: ClientCommand :: move(p.Plus(v), c) == move(p, c).Plus(v)
  }

  /** Replays commands from a position. */
  function Replay(move: Move, start: Vec3, commands: seq<ClientCommand>): Vec3 {
    if commands == [] then start
    else move(Replay(move, start, commands[..|commands| - 1]), commands[|commands| - 1])
  }

  lemma {:induction false} ReplayShifts(move: Move, start: Vec3, v: Vec3, commands: seq<ClientCommand>)
    requires TranslationInvariant(move)
    ensures Replay(move, start.Plus(v), commands) == Replay(move, start, commands).Plus(v)
  {
    if commands == [] {
    } else {
      ReplayShifts(move, start, v, commands[..|commands| - 1]);
    }
  }

  lemma {:induction false} ReplaySplits(move: Move, start: Vec3, commands: seq<ClientCommand>, k: nat)
    requires k <= |commands|
    ensures Replay(move, start, commands) == Replay(move, Replay(move, start, commands[..k]), commands[k..])
    decreases |commands| - k
  {
    if k < |commands| {
      var n := |commands| - 1;
      ReplaySplits(move, start, commands[..n], k);
      assert commands[..n][..k] == commands[..k];
      assert commands[k..][..n - k] == commands[..n][k..];
    } else {
      assert commands[..k] == commands && commands[k..] == [];
    }
  }

  /** The predictor beside the reference it refines: `base` is the last server
      position accepted for an acked command, `since` every command after it. */
  datatype Tracked = Tracked(p: Predictor, base: Vec3, since: seq<ClientCommand>, drift: Vec3, nextSequence: nat)

  datatype Step =
    | Predict(command: ClientCommand)
    | Reconcile(server: Vec3, acked: nat)
    | Decay(factor: real)
    | Draw(alpha: real)

  function StartTracked(): Tracked { Tracked(FreshPredictor(), SPAWN, [], ORIGIN, 0) }

  /** The acked command is still in the history. */
  predicate Finds(p: Predictor, acked: nat) {
    acked > p.lastAcked && AckedFront(DropBefore(p.pending, acked), acked)
  }

  function Next(move: Move, t: Tracked, step: Step): Tracked {
    match step
    case Predict(command) =>
      var p := Prepared(t.p);
      t.(p := Remember(p.(position := move(p.position, command)), command, t.nextSequence),
         since := t.since + [command],
         nextSequence := t.nextSequence + 1)
    case Reconcile(server, acked) =>
      var p := Reconciled(t.p, server, acked);
      if !Finds(t.p, acked) then t.(p := p) else
      var rest := DropBefore(t.p.pending, acked);
      var error := server.Minus(rest[0].positionAfter);
      t.(p := p, base := server,
         since := KeepLast(t.since, |rest| - 1),
         drift := if ShorterThan(error, ERROR_THRESHOLD) then rest[0].positionAfter.Minus(server) else ORIGIN)
    case Decay(factor) => t.(p := Decayed(t.p, factor))
    case Draw(alpha) => t.(p := Visualized(t.p, alpha))
  }

  ghost predicate IsRun(move: Move, states: seq<Tracked>, steps: seq<Step>) {
    && |states| == |steps| + 1
    && states[0] == StartTracked()
    && forall i :: 0 <= i < |steps| ==> states[i + 1] == Next(move, states[i], steps[i])
  }

  /** Entry `i` belongs to the command as far from the end as itself, and was stored
      where replaying up to it leads. */
  ghost predicate EntryOk(move: Move, start: Vec3, pending: seq<PendingCommand>, since: seq<ClientCommand>, i: nat)
    requires i < |pending| <= |since|
  {
    var k := |since| - |pending| + i;
    pending[i].command == since[k] && pending[i].positionAfter == Replay(move, start, since[..k + 1])
  }

  ghost predicate EntriesOk(move: Move, start: Vec3, pending: seq<PendingCommand>, since: seq<ClientCommand>) {
    |pending| <= |since| && forall i: nat :: i < |pending| ==> EntryOk(move, start, pending, since, i)
  }

  ghost predicate Consecutive(pending: seq<PendingCommand>, next: nat) {
    |pending| <= next && forall i :: 0 <= i < |pending| ==> pending[i].sequence == next - |pending| + i
  }

  /** The position and every entry are where replaying from `start` leads. */
  ghost predicate OnReplay(move: Move, start: Vec3, t: Tracked) {
    && EntriesOk(move, start, t.p.pending, t.since)
    && t.p.position == Replay(move, start, t.since)
  }

  ghost predicate Inv(move: Move, t: Tracked) {
    && OnReplay(move, t.base.Plus(t.drift), t)
    && Consecutive(t.p.pending, t.nextSequence)
    && (t.drift == ORIGIN || ShorterThan(t.drift, ERROR_THRESHOLD))
  }

  // ------------------------------------------------------------------ entries

  lemma {:induction false} DropBeforeIsSuffix(pending: seq<PendingCommand>, acked: nat, next: nat)
    requires Consecutive(pending, next)
    ensures var rest := DropBefore(pending, acked);
            && |rest| <= |pending| && rest == pending[|pending| - |rest|..]
            && Consecutive(rest, next)
            && (AckedFront(rest, acked) <==> next - |pending| <= acked < next)
  {
    if pending != [] && pending[0].sequence < acked {
      DropBeforeIsSuffix(pending[1..], acked, next);
    } else {
      assert pending == pending[0..];
    }
  }

  lemma AppendKeepsEntries(move: Move, start: Vec3, pending: seq<PendingCommand>, since: seq<ClientCommand>,
                           command: ClientCommand, entry: PendingCommand)
    requires EntriesOk(move, start, pending, since)
    requires entry.command == command && entry.positionAfter == Replay(move, start, since + [command])
    ensures EntriesOk(move, start, pending + [entry], since + [command])
  {
    var pending', since' := pending + [entry], since + [command];
    forall i: nat | i < |pending'| ensures EntryOk(move, start, pending', since', i) {
      var k := |since'| - |pending'| + i;
      if i == |pending| {
        assert since'[..k + 1] == since';
      } else {
        assert EntryOk(move, start, pending, since, i);
        assert since'[..k + 1] == since[..k + 1];
      }
    }
  }

  /** Dropping old entries keeps the rest in place. */
  lemma SuffixKeepsEntries(move: Move, start: Vec3, pending: seq<PendingCommand>, since: seq<ClientCommand>, n: nat)
    requires EntriesOk(move, start, pending, since) && n <= |pending|
    ensures EntriesOk(move, start, pending[n..], since)
  {
    forall i: nat | i < |pending| - n ensures EntryOk(move, start, pending[n..], since, i) {
      assert EntryOk(move, start, pending, since, i + n);
    }
  }

  /** Rebasing on the front entry: replaying from it gives the same positions. */
  lemma RebaseEntries(move: Move, start: Vec3, pending: seq<PendingCommand>, since: seq<ClientCommand>)
    requires EntriesOk(move, start, pending, since) && pending != []
    ensures var at, m := pending[0].positionAfter, |since| - |pending| + 1;
            && EntriesOk(move, at, pending[1..], since[m..])
            && Replay(move, start, since) == Replay(move, at, since[m..])
  {
    var at, m := pending[0].positionAfter, |since| - |pending| + 1;
    assert EntryOk(move, start, pending, since, 0);
    ReplaySplits(move, start, since, m);
    forall i: nat | i < |pending| - 1 ensures EntryOk(move, at, pending[1..], since[m..], i) {
      assert EntryOk(move, start, pending, since, i + 1);
      RebaseSlice(move, start, since, m, i);
    }
  }

  lemma RebaseSlice(move: Move, start: Vec3, commands: seq<ClientCommand>, m: nat, i: nat)
    requires m + i + 1 <= |commands|
    ensures Replay(move, start, commands[..m + i + 1])
            == Replay(move, Replay(move, start, commands[..m]), commands[m..][..i + 1])
  {
    var upTo := commands[..m + i + 1];
    ReplaySplits(move, start, upTo, m);
    assert upTo[..m] == commands[..m] && upTo[m..] == commands[m..][..i + 1];
  }

  lemma ShiftKeepsEntries(move: Move, at: Vec3, v: Vec3, pending: seq<PendingCommand>, since: seq<ClientCommand>)
    requires TranslationInvariant(move) && EntriesOk(move, at, pending, since)
    ensures EntriesOk(move, at.Plus(v), ShiftAll(pending, v), since)
  {
    forall i: nat | i < |pending| ensures EntryOk(move, at.Plus(v), ShiftAll(pending, v), since, i) {
      assert EntryOk(move, at, pending, since, i);
      ReplayShifts(move, at, v, since[..|since| - |pending| + i + 1]);
    }
  }

  lemma KeepLastConsecutive(pending: seq<PendingCommand>, entry: PendingCommand, next: nat, max: nat)
    requires Consecutive(pending, next) && entry.sequence == next
    ensures Consecutive(KeepLast(pending + [entry], max), next + 1)
  {
    var all := pending + [entry];
    var kept := KeepLast(all, max);
    forall i | 0 <= i < |kept| ensures kept[i] == all[|all| - |kept| + i] {}
  }

  lemma TailConsecutive(rest: seq<PendingCommand>, next: nat, v: Vec3)
    requires Consecutive(rest, next) && rest != []
    ensures Consecutive(rest[1..], next) && Consecutive(ShiftAll(rest[1..], v), next)
  {
    var tail, shifted := rest[1..], ShiftAll(rest[1..], v);
    forall i | 0 <= i < |tail|
      ensures tail[i].sequence == next - |tail| + i && shifted[i].sequence == tail[i].sequence
    {
      assert tail[i] == rest[i + 1];
    }
  }

  lemma ReconciledConsecutive(p: Predictor, server: Vec3, acked: nat, next: nat)
    requires Consecutive(p.pending, next)
    ensures Consecutive(Reconciled(p, server, acked).pending, next)
  {
    DropBeforeIsSuffix(p.pending, acked, next);
    var rest := DropBefore(p.pending, acked);
    if AckedFront(rest, acked) { TailConsecutive(rest, next, server.Minus(rest[0].positionAfter)); }
  }

  lemma StepKeepsConsecutive(move: Move, t: Tracked, step: Step)
    requires Consecutive(t.p.pending, t.nextSequence)
    ensures Consecutive(Next(move, t, step).p.pending, Next(move, t, step).nextSequence)
  {
    match step
    case Predict(command) =>
      var entry := PendingCommand(t.nextSequence, command, move(t.p.position, command));
      KeepLastConsecutive(t.p.pending, entry, t.nextSequence, MAX_PENDING_COMMANDS);
    case Reconcile(server, acked) => ReconciledConsecutive(t.p, server, acked, t.nextSequence);
    case Decay(_) =>
    case Draw(_) =>
  }

  // -------------------------------------------------------------------- steps

  lemma PredictKeeps(move: Move, start: Vec3, t: Tracked, command: ClientCommand)
    requires OnReplay(move, start, t)
    ensures OnReplay(move, start, Next(move, t, Predict(command)))
  {
    var position := move(t.p.position, command);
    var entry := PendingCommand(t.nextSequence, command, position);
    var all := t.p.pending + [entry];
    assert (t.since + [command])[..|t.since|] == t.since;
    assert position == Replay(move, start, t.since + [command]);
    AppendKeepsEntries(move, start, t.p.pending, t.since, command, entry);
    if |all| > MAX_PENDING_COMMANDS {
      SuffixKeepsEntries(move, start, all, t.since + [command], |all| - MAX_PENDING_COMMANDS);
    }
  }

  lemma MinusPlus(a: Vec3, b: Vec3)
    ensures a.Plus(b.Minus(a)) == b
    ensures b.Minus(a).LengthSquared() == a.Minus(b).LengthSquared()
  {
    var d := b.Minus(a);
    assert a.Minus(b) == Vec3(-d.x, -d.y, -d.z);
    assert (-d.x) * (-d.x) == d.x * d.x && (-d.y) * (-d.y) == d.y * d.y && (-d.z) * (-d.z) == d.z * d.z;
  }

  /** `reconcile` once the front of the history is the acked command. */
  function Accept(t: Tracked, server: Vec3): Tracked
    requires t.p.pending != [] && |t.p.pending| <= |t.since|
  {
    var at, tail := t.p.pending[0].positionAfter, t.p.pending[1..];
    var error := server.Minus(at);
    var small := ShorterThan(error, ERROR_THRESHOLD);
    t.(p := if small then t.p.(pending := tail) else Corrected(t.p, tail, error),
       base := server,
       since := KeepLast(t.since, |tail|),
       drift := if small then at.Minus(server) else ORIGIN)
  }

  lemma AcceptKeeps(move: Move, start: Vec3, t: Tracked, server: Vec3)
    requires TranslationInvariant(move) && OnReplay(move, start, t) && t.p.pending != []
    ensures var t' := Accept(t, server);
            OnReplay(move, t'.base.Plus(t'.drift), t') && (t'.drift == ORIGIN || ShorterThan(t'.drift, ERROR_THRESHOLD))
  {
    var at, tail := t.p.pending[0].positionAfter, t.p.pending[1..];
    var error, since := server.Minus(at), KeepLast(t.since, |tail|);
    RebaseEntries(move, start, t.p.pending, t.since);
    assert since == t.since[|t.since| - |t.p.pending| + 1..];
    if ShorterThan(error, ERROR_THRESHOLD) {
      MinusPlus(server, at);
    } else {
      MinusPlus(at, server);
      assert server.Plus(ORIGIN) == server == at.Plus(error);
      ShiftKeepsEntries(move, at, error, tail, since);
      ReplayShifts(move, at, error, since);
    }
  }

  lemma ReconcileKeepsInv(move: Move, t: Tracked, server: Vec3, acked: nat)
    requires TranslationInvariant(move) && Inv(move, t)
    ensures Inv(move, Next(move, t, Reconcile(server, acked)))
  {
    var start, rest := t.base.Plus(t.drift), DropBefore(t.p.pending, acked);
    StepKeepsConsecutive(move, t, Reconcile(server, acked));
    DropBeforeIsSuffix(t.p.pending, acked, t.nextSequence);
    SuffixKeepsEntries(move, start, t.p.pending, t.since, |t.p.pending| - |rest|);
    if Finds(t.p, acked) {
      var dropped := t.(p := t.p.(pending := rest, lastAcked := acked));
      AcceptKeeps(move, start, dropped, server);
      assert Next(move, t, Reconcile(server, acked)) == Accept(dropped, server);
    }
  }

  lemma {:induction false} RunKeepsInv(move: Move, states: seq<Tracked>, steps: seq<Step>, i: nat)
    requires TranslationInvariant(move) && IsRun(move, states, steps) && i <= |steps|
    ensures Inv(move, states[i])
  {
    if i == 0 {
    } else {
      assert states[i - 1 + 1] == Next(move, states[i - 1], steps[i - 1]);
      RunKeepsInv(move, states, steps, i - 1);
      StepKeepsInv(move, states[i - 1], steps[i - 1]);
    }
  }

  lemma StepKeepsInv(move: Move, t: Tracked, step: Step)
    requires TranslationInvariant(move) && Inv(move, t)
    ensures Inv(move, Next(move, t, step))
  {
    match step
    case Predict(command) =>
      PredictKeeps(move, t.base.Plus(t.drift), t, command);
      StepKeepsConsecutive(move, t, step);
    case Reconcile(server, acked) => ReconcileKeepsInv(move, t, server, acked);
    case Decay(factor) =>
    case Draw(alpha) =>
  }

  // ------------------------------------------------------------------ results

  ghost predicate Refines(move: Move, t: Tracked) {
    && t.p.position == Replay(move, t.base, t.since).Plus(t.drift)
    && (t.drift == ORIGIN || ShorterThan(t.drift, ERROR_THRESHOLD))
  }

  /** After a reconcile the position is that of replaying exactly the commands the
      server has not seen, from the server's own position, or it was left alone,
      within the threshold of that. */
  ghost predicate ReplaysUnacked(move: Move, t: Tracked, server: Vec3, acked: nat, t': Tracked) {
    var unacked := t.nextSequence - 1 - acked;
    && 0 <= unacked <= |t.since|
    && |t'.p.pending| == unacked
    && var replayed := Replay(move, server, t.since[|t.since| - unacked..]);
       t'.p.position == replayed
       || (t'.p.position == t.p.position && ShorterThan(t'.p.position.Minus(replayed), ERROR_THRESHOLD))
  }

  /** Reconcile refines rewind-and-replay. At every point of every run the
      predicted position is the last accepted server position with all later
      commands replayed, plus a drift that is zero or below the threshold. */
  lemma RefinesReplay(move: Move, states: seq<Tracked>, steps: seq<Step>, i: nat)
    requires TranslationInvariant(move) && IsRun(move, states, steps) && i <= |steps|
    ensures Refines(move, states[i])
  {
    RunKeepsInv(move, states, steps, i);
    ReplayShifts(move, states[i].base, states[i].drift, states[i].since);
  }

  /** And one reconcile that finds its command replays exactly the commands the
      server has not seen, from the server's own position. */
  lemma ReconcileReplaysUnacked(move: Move, states: seq<Tracked>, steps: seq<Step>, i: nat)
    requires TranslationInvariant(move) && IsRun(move, states, steps) && i < |steps|
    requires steps[i].Reconcile? && Finds(states[i].p, steps[i].acked)
    ensures ReplaysUnacked(move, states[i], steps[i].server, steps[i].acked, states[i + 1])
  {
    var t, t', step := states[i], states[i + 1], steps[i];
    assert states[i + 1] == Next(move, t, step);
    RunKeepsInv(move, states, steps, i);
    RefinesReplay(move, states, steps, i + 1);
    DropBeforeIsSuffix(t.p.pending, step.acked, t.nextSequence);
    var replayed := Replay(move, step.server, t'.since);
    if t'.drift != ORIGIN { assert t'.p.position.Minus(replayed) == t'.drift; }
  }

  lemma {:induction false} RunKeepsConsecutive(move: Move, states: seq<Tracked>, steps: seq<Step>, i: nat)
    requires IsRun(move, states, steps) && i <= |steps|
    ensures Consecutive(states[i].p.pending, states[i].nextSequence)
  {
    if i == 0 {
    } else {
      var t, step := states[i - 1], steps[i - 1];
      assert states[i - 1 + 1] == Next(move, t, step);
      RunKeepsConsecutive(move, states, steps, i - 1);
      StepKeepsConsecutive(move, t, step);
    }
  }

  /** Whatever the movement, the acked command is found exactly while it is among the
      last stored ones that no earlier ack or the size limit has dropped. */
  lemma FoundExactly(move: Move, states: seq<Tracked>, steps: seq<Step>, i: nat, acked: nat)
    requires IsRun(move, states, steps) && i <= |steps|
    ensures var t := states[i];
            Finds(t.p, acked) <==> acked > t.p.lastAcked && t.nextSequence - |t.p.pending| <= acked < t.nextSequence
  {
    RunKeepsConsecutive(move, states, steps, i);
    DropBeforeIsSuffix(states[i].p.pending, acked, states[i].nextSequence);
  }

  /** A reconcile is invisible, for every alpha the drawn position is what it would
      have been, exactly if it does not snap, or snaps by what was left to smooth. */
  lemma SmoothCorrectionIsInvisible(p: Predictor, server: Vec3, acked: nat, alpha: real)
    requires Finds(p, acked)
    ensures var error := server.Minus(DropBefore(p.pending, acked)[0].positionAfter);
            Visualized(Reconciled(p, server, acked), alpha).visualPosition == Visualized(p, alpha).visualPosition
            <==> !LongerThan(error, SNAP_THRESHOLD) || error == p.positionError
  {
    var error := server.Minus(DropBefore(p.pending, acked)[0].positionAfter);
    LerpShifts(p.prevPosition, p.position, error, alpha);
    SnapIsNotSmall(error);
  }

  /** The thresholds are lengths: along an axis they compare the distance itself, and
      a vector is as long as its negative. */
  lemma ThresholdsAreLengths(x: real, limit: real)
    requires limit >= 0.0
    ensures ShorterThan(Vec3(x, 0.0, 0.0), limit) <==> -limit < x < limit
    ensures ShorterThan(Vec3(0.0, x, 0.0), limit) <==> -limit < x < limit
    ensures ShorterThan(Vec3(0.0, 0.0, x), limit) <==> -limit < x < limit
    ensures LongerThan(Vec3(x, 0.0, 0.0), limit) <==> x < -limit || limit < x
  {
    SquareBelow(if x < 0.0 then -x else x, limit);
  }

  lemma SquareBelow(a: real, b: real)
    requires a >= 0.0 && b >= 0.0
    ensures a * a < b * b <==> a < b
    ensures a * a == b * b <==> a == b
  {
    if a < b {
      SquareGrows(a, b);
    } else if b < a {
      SquareGrows(b, a);
    }
  }

  function Times(x: real, y: real): real { x * y }

  lemma SquareGrows(a: real, b: real)
    requires 0.0 <= a < b
    ensures a * a < b * b
  {
    TimesIsPositive(b - a, b + a);
    assert Times(b - a, b + a) == Times(b, b) - Times(a, a);
    assert Times(a, a) == a * a && Times(b, b) == b * b;
  }

  lemma TimesIsPositive(x: real, y: real)
    requires x > 0.0 && y > 0.0
    ensures Times(x, y) > 0.0
  {
  }

  lemma SnapIsNotSmall(v: Vec3)
    ensures LongerThan(v, SNAP_THRESHOLD) ==> !ShorterThan(v, ERROR_THRESHOLD)
  {
    assert ERROR_THRESHOLD * ERROR_THRESHOLD < SNAP_THRESHOLD * SNAP_THRESHOLD;
  }

  /** From the position before the tick to the one after it, evenly, the remaining
      error on top. */
  lemma VisualIsEven(p: Predictor, alpha: real)
    ensures var v, a, b := Visualized(p, alpha).visualPosition, p.prevPosition, p.position;
            && v.x == a.x + (b.x - a.x) * alpha + p.positionError.x
            && v.y == a.y + (b.y - a.y) * alpha + p.positionError.y
            && v.z == a.z + (b.z - a.z) * alpha + p.positionError.z
    ensures Visualized(p, 0.0).visualPosition == p.prevPosition.Plus(p.positionError)
    ensures Visualized(p, 1.0).visualPosition == p.position.Plus(p.positionError)
  {
  }

  lemma LerpShifts(a: Vec3, b: Vec3, v: Vec3, alpha: real)
    ensures a.Plus(v).Lerp(b.Plus(v), alpha) == a.Lerp(b, alpha).Plus(v)
  {
    assert b.Plus(v).Minus(a.Plus(v)) == b.Minus(a);
  }

  // -------------------------------------------------------------------- class

  class ClientPrediction {
    var pendingCommands: seq<PendingCommand>
    var position: Vec3
    var prevPosition: Vec3
    var visualPosition: Vec3
    var positionError: Vec3
    var lastAckedSequence: nat

    ghost function Value(): Predictor
      reads this
    {
      Predictor(pendingCommands, position, prevPosition, visualPosition, positionError, lastAckedSequence)
    }

    constructor ()
      ensures Value() == FreshPredictor() && pendingCommands == [] && lastAckedSequence == 0
      ensures position == prevPosition == visualPosition == SPAWN && positionError == ORIGIN
    {
      pendingCommands, lastAckedSequence := [], 0;
      position, prevPosition, visualPosition, positionError := SPAWN, SPAWN, SPAWN, ORIGIN;
    }

    method PrepareTick()
      modifies `prevPosition
      ensures Value() == Prepared(old(Value())) && prevPosition == position
    {
      prevPosition := position;
    }

    method ApplyInput(move: Move, command: ClientCommand)
      modifies `position
      ensures position == move(old(position), command)
    {
      position := move(position, command);
    }

    method StoreCommand(command: ClientCommand, sequence: nat)
      modifies `pendingCommands
      ensures Value() == Remember(old(Value()), command, sequence)
      ensures |pendingCommands| == if |old(pendingCommands)| < 128 then |old(pendingCommands)| + 1 else 128
      ensures pendingCommands[|pendingCommands| - 1] == PendingCommand(sequence, command, position)
    {
      pendingCommands := pendingCommands + [PendingCommand(sequence, command, position)];
      TrimPending(MAX_PENDING_COMMANDS);
    }

    method TrimPending(max: nat)
      modifies `pendingCommands
      ensures pendingCommands == KeepLast(old(pendingCommands), max)
    {
      while |pendingCommands| > max
        invariant KeepLast(pendingCommands, max) == KeepLast(old(pendingCommands), max)
        decreases |pendingCommands|
      {
        pendingCommands := pendingCommands[1..];
      }
    }

    method Update(factor: real)
      modifies `positionError
      ensures Value() == Decayed(old(Value()), factor)
      ensures var e := old(positionError); positionError == Vec3(e.x * factor, e.y * factor, e.z * factor)
    {
      positionError := positionError.Scale(factor);
    }

    method UpdateVisuals(alpha: real)
      modifies `visualPosition
      ensures Value() == Visualized(old(Value()), alpha)
      ensures alpha == 0.0 ==> visualPosition == prevPosition.Plus(positionError)
      ensures alpha == 1.0 ==> visualPosition == position.Plus(positionError)
    {
      VisualIsEven(Value(), alpha);
      visualPosition := prevPosition.Lerp(position, alpha).Plus(positionError);
    }

    method ReconcileWith(serverPosition: Vec3, ackedSequence: nat)
      modifies this
      ensures Value() == Reconciled(old(Value()), serverPosition, ackedSequence)
      ensures lastAckedSequence
              == if ackedSequence > old(lastAckedSequence) then ackedSequence else old(lastAckedSequence)
      ensures visualPosition == old(visualPosition)
      ensures !Finds(old(Value()), ackedSequence) ==>
                position == old(position) && prevPosition == old(prevPosition) && positionError == old(positionError)
    {
      if ackedSequence <= lastAckedSequence {
        return;
      }
      lastAckedSequence := ackedSequence;
      while |pendingCommands| > 0 && pendingCommands[0].sequence < ackedSequence
        invariant DropBefore(pendingCommands, ackedSequence) == DropBefore(old(pendingCommands), ackedSequence)
        invariant Value() == old(Value()).(pending := pendingCommands, lastAcked := ackedSequence)
        decreases |pendingCommands|
      {
        pendingCommands := pendingCommands[1..];
      }
      if |pendingCommands| == 0 || pendingCommands[0].sequence != ackedSequence {
        return;
      }
      var serverError := serverPosition.Minus(pendingCommands[0].positionAfter);
      pendingCommands := pendingCommands[1..];
      if ShorterThan(serverError, ERROR_THRESHOLD) {
        return;
      }
      position := position.Plus(serverError);
      prevPosition := prevPosition.Plus(serverError);
      ShiftPending(serverError);
      if LongerThan(serverError, SNAP_THRESHOLD) {
        positionError := ORIGIN;
      } else {
        positionError := positionError.Minus(serverError);
      }
    }

    method ShiftPending(v: Vec3)
      modifies `pendingCommands
      ensures pendingCommands == ShiftAll(old(pendingCommands), v)
    {
      for i := 0 to |pendingCommands|
        invariant |pendingCommands| == |old(pendingCommands)|
        invariant forall j :: 0 <= j < i ==> pendingCommands[j] == ShiftAll(old(pendingCommands), v)[j]
        invariant forall j :: i <= j < |pendingCommands| ==> pendingCommands[j] == old(pendingCommands)[j]
      {
        var c := pendingCommands[i];
        pendingCommands := pendingCommands[i := c.(positionAfter := c.positionAfter.Plus(v))];
      }
    }
  }
}
