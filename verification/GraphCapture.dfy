/**
 Double-checked locking around the one-shot choice of JIT, Dynamo or eager execution
 (cpu/graph_capture.py `GraphCapture.__call__`). Threads take atomic steps in any order; a step reads or writes one
 shared field, or takes the lock. Captures succeed or fail as they please.
 */
module GraphCapture {
  import opened Basics

  datatype Method = JIT | TorchDynamo | EagerInfer | EagerTrain

  datatype Model = Original | Traced | Dynamo(of: Model)

  /** What a finished call ran: the wrapped function under an outer trace, the function in training, or a model. */
  datatype Ran = UnderTrace | RanFunc | RanModel(m: Model)

  /** Where a thread stands in `forward`. */
  datatype Pc =
    | Idle
    | ReadMethod | RunUnlocked              // the first check, without the lock
    | Acquire | Recheck | RunLocked         // the second check, with the lock
    | MarkTrain
    | Trace | WriteTraced | MarkJit
    | Compile | WriteDynamo | MarkDynamo
    | MarkEager
    | Return(m: Model)                      // hand out the output of the model just captured

  datatype State = State(train: bool, chosen: Option<Method>, model: Model, lock: Option<nat>, pcs: seq<Pc>,
                         log: seq<Ran>)

  /** The scheduler's choice: which thread moves, whether it is being traced, whether its capture succeeds. */
  datatype Turn = Turn(t: nat, tracing: bool, succeeds: bool)

  function Start(threads: nat, train: bool): State
  {
    State(train, None, Original, None, seq(threads, _ => Idle), [])
  }

  predicate Enabled(s: State, t: nat)
  {
    t < |s.pcs| && (s.pcs[t].Acquire? ==> s.lock.None?)
  }

  function Goto(s: State, t: nat, pc: Pc): State
    requires t < |s.pcs|
  {
    s.(pcs := s.pcs[t := pc])
  }

  function Finish(s: State, t: nat, r: Ran): State
    requires t < |s.pcs|
  {
    s.(pcs := s.pcs[t := Idle], log := s.log + [r])
  }

  function FinishLocked(s: State, t: nat, r: Ran): State
    requires t < |s.pcs|
  {
    Finish(s, t, r).(lock := None)
  }

  /** `func` in training, `self.model` as it is now otherwise. */
  function RanNow(s: State): Ran
  {
    if s.train then RanFunc else RanModel(s.model)
  }

  function Step(s: State, e: Turn): State
    requires Enabled(s, e.t)
  {
    var t := e.t;
    match s.pcs[t]
    case Idle => if e.tracing then Finish(s, t, UnderTrace) else Goto(s, t, ReadMethod)
    case ReadMethod => Goto(s, t, if s.chosen.Some? then RunUnlocked else Acquire)
    case RunUnlocked => Finish(s, t, RanNow(s))
    case Acquire => Goto(s, t, Recheck).(lock := Some(t))
    case Recheck => Goto(s, t, if s.chosen.Some? then RunLocked else if s.train then MarkTrain else Trace)
    case RunLocked => FinishLocked(s, t, RanNow(s))
    case MarkTrain => Goto(s, t, RunLocked).(chosen := Some(EagerTrain))
    case Trace => Goto(s, t, if e.succeeds then WriteTraced else Compile)
    case WriteTraced => Goto(s, t, MarkJit).(model := Traced)
    case MarkJit => Goto(s, t, Return(Traced)).(chosen := Some(JIT))
    case Compile => Goto(s, t, if e.succeeds then WriteDynamo else MarkEager)
    case WriteDynamo => Goto(s, t, MarkDynamo).(model := Dynamo(s.model))
    case MarkDynamo => Goto(s, t, Return(s.model)).(chosen := Some(TorchDynamo))
    case MarkEager => Goto(s, t, RunLocked).(chosen := Some(EagerInfer))
    case Return(m) => FinishLocked(s, t, RanModel(m))
  }

  /** A disabled thread's turn changes nothing. */
  function Move(s: State, e: Turn): State
  {
    if Enabled(s, e.t) then Step(s, e) else s
  }

  function Run(s: State, turns: seq<Turn>): State
  {
    if turns == [] then s else Move(Run(s, turns[..|turns| - 1]), turns[|turns| - 1])
  }

  // ----- The invariant

  /** Between taking and releasing the lock. */
  predicate Critical(pc: Pc)
  {
    !(pc.Idle? || pc.ReadMethod? || pc.RunUnlocked? || pc.Acquire?)
  }

  /** Generating a graph: the method is still open. */
  predicate Generating(pc: Pc)
  {
    pc.MarkTrain? || pc.Trace? || pc.WriteTraced? || pc.MarkJit? || pc.Compile? || pc.WriteDynamo? || pc.MarkDynamo?
    || pc.MarkEager?
  }

  /** The model that belongs to a method. */
  function ModelOf(how: Method): Model
  {
    match how
    case JIT => Traced
    case TorchDynamo => Dynamo(Original)
    case _ => Original
  }

  /** What a thread at `pc` may rely on. */
  ghost predicate PcHolds(s: State, pc: Pc)
  {
    && (pc.RunUnlocked? || pc.RunLocked? || pc.Return? ==> s.chosen.Some?)
    && (Generating(pc) ==> s.chosen.None? && (s.train <==> pc.MarkTrain?))
    && (pc.Return? ==> !s.train && pc.m == s.model)
    && (pc.MarkJit? ==> s.model == Traced)
    && (pc.MarkDynamo? ==> s.model == Dynamo(Original))
    && (pc.Recheck? ==> s.chosen.None? ==> s.model == Original)
    && (Generating(pc) && !pc.MarkJit? && !pc.MarkDynamo? ==> s.model == Original)
  }

  /** The log entry agrees with the final model. */
  ghost predicate RanHolds(s: State, r: Ran)
  {
    match r
    case UnderTrace => true
    case RanFunc => s.train
    case RanModel(m) => !s.train && s.chosen.Some? && m == s.model
  }

  ghost predicate Inv(s: State)
  {
    && (s.chosen.Some? ==> s.model == ModelOf(s.chosen.value) && (s.train <==> s.chosen.value == EagerTrain))
    && (s.chosen.None? && s.lock.None? ==> s.model == Original)
    && (s.lock.Some? ==> s.lock.value < |s.pcs|)
    && (forall t :: 0 <= t < |s.pcs| ==> (Critical(s.pcs[t]) <==> s.lock == Some(t)) && PcHolds(s, s.pcs[t]))
    && (forall k :: 0 <= k < |s.log| ==> RanHolds(s, s.log[k]))
  }

  lemma StartHolds(threads: nat, train: bool)
    ensures Inv(Start(threads, train))
  {
  }

  lemma MoveHolds(s: State, e: Turn)
    requires Inv(s)
    ensures Inv(Move(s, e))
  {
    if Enabled(s, e.t) {
      if s.pcs[e.t].Idle? || s.pcs[e.t].ReadMethod? {
        EntryStepHolds(s, e);
      } else if !Critical(s.pcs[e.t]) {
        FreeStepHolds(s, e);
      } else if !Generating(s.pcs[e.t]) {
        LockedStepHolds(s, e);
      } else {
        GeneratingStepHolds(s, e);
      }
    }
  }

  lemma EntryStepHolds(s: State, e: Turn)
    requires Inv(s) && Enabled(s, e.t) && (s.pcs[e.t].Idle? || s.pcs[e.t].ReadMethod?)
    ensures Inv(Step(s, e))
  {
    assert PcHolds(s, s.pcs[e.t]);
  }

  lemma FreeStepHolds(s: State, e: Turn)
    requires Inv(s) && Enabled(s, e.t) && (s.pcs[e.t].RunUnlocked? || s.pcs[e.t].Acquire?)
    ensures Inv(Step(s, e))
  {
    assert PcHolds(s, s.pcs[e.t]);
  }

  lemma LockedStepHolds(s: State, e: Turn)
    requires Inv(s) && Enabled(s, e.t) && Critical(s.pcs[e.t]) && !Generating(s.pcs[e.t])
    ensures Inv(Step(s, e))
  {
    assert PcHolds(s, s.pcs[e.t]);
  }

  lemma GeneratingStepHolds(s: State, e: Turn)
    requires Inv(s) && Enabled(s, e.t) && Generating(s.pcs[e.t])
    ensures Inv(Step(s, e))
  {
    match s.pcs[e.t]
    case Trace => CaptureStepHolds(s, e);
    case Compile => CaptureStepHolds(s, e);
    case WriteTraced => WriteStepHolds(s, e);
    case WriteDynamo => WriteStepHolds(s, e);
    case MarkTrain => MarkEagerStepHolds(s, e);
    case MarkEager => MarkEagerStepHolds(s, e);
    case _ => MarkCapturedStepHolds(s, e);
  }

  /** A capture succeeds or fails. */
  lemma CaptureStepHolds(s: State, e: Turn)
    requires Inv(s) && Enabled(s, e.t) && (s.pcs[e.t].Trace? || s.pcs[e.t].Compile?)
    ensures Inv(Step(s, e))
  {
    assert PcHolds(s, s.pcs[e.t]);
    assert Critical(s.pcs[e.t]);
  }

  /** The captured model replaces the original one. */
  lemma WriteStepHolds(s: State, e: Turn)
    requires Inv(s) && Enabled(s, e.t) && (s.pcs[e.t].WriteTraced? || s.pcs[e.t].WriteDynamo?)
    ensures Inv(Step(s, e))
  {
    assert PcHolds(s, s.pcs[e.t]);
    assert Critical(s.pcs[e.t]);
  }

  /** The method is chosen: the model stays the original one. */
  lemma MarkEagerStepHolds(s: State, e: Turn)
    requires Inv(s) && Enabled(s, e.t) && (s.pcs[e.t].MarkTrain? || s.pcs[e.t].MarkEager?)
    ensures Inv(Step(s, e))
  {
    assert PcHolds(s, s.pcs[e.t]);
    assert Critical(s.pcs[e.t]);
  }

  /** The method is chosen: the model is the captured one. */
  lemma MarkCapturedStepHolds(s: State, e: Turn)
    requires Inv(s) && Enabled(s, e.t) && (s.pcs[e.t].MarkJit? || s.pcs[e.t].MarkDynamo?)
    ensures Inv(Step(s, e))
  {
    assert PcHolds(s, s.pcs[e.t]);
    assert Critical(s.pcs[e.t]);
  }

  lemma {:induction false} RunHolds(threads: nat, train: bool, turns: seq<Turn>)
    ensures Inv(Run(Start(threads, train), turns))
  {
    if turns == [] {
      StartHolds(threads, train);
    } else {
      RunHolds(threads, train, turns[..|turns| - 1]);
      MoveHolds(Run(Start(threads, train), turns[..|turns| - 1]), turns[|turns| - 1]);
    }
  }

  // ----- Whole runs

  /** What later states keep of earlier ones: the training flag, a method once chosen with its model, and the log. */
  ghost predicate Keeps(s: State, s': State)
  {
    && s'.train == s.train && |s'.pcs| == |s.pcs| && s.log <= s'.log
    && (s.chosen.Some? ==> s'.chosen == s.chosen && s'.model == s.model)
  }

  lemma MoveKeeps(s: State, e: Turn)
    requires Inv(s)
    ensures Keeps(s, Move(s, e))
  {
    if Enabled(s, e.t) {
      assert PcHolds(s, s.pcs[e.t]);
    }
  }

  lemma {:induction false} RunKeeps(threads: nat, train: bool, turns: seq<Turn>, k: nat)
    requires k <= |turns|
    ensures Keeps(Run(Start(threads, train), turns[..k]), Run(Start(threads, train), turns))
    decreases |turns|
  {
    if k == |turns| {
      assert turns[..k] == turns;
    } else {
      var front := turns[..|turns| - 1];
      assert front[..k] == turns[..k];
      RunKeeps(threads, train, front, k);
      RunHolds(threads, train, front);
      MoveKeeps(Run(Start(threads, train), front), turns[|turns| - 1]);
    }
  }

  /** The turns in which a thread starts to generate a graph. */
  function Generations(s: State, turns: seq<Turn>): nat
  {
    if turns == [] then 0
    else
      var front, e := turns[..|turns| - 1], turns[|turns| - 1];
      var before := Run(s, front);
      Generations(s, front) +
      if e.t < |before.pcs| && !before.pcs[e.t].Trace? && Move(before, e).pcs[e.t].Trace? then 1 else 0
  }

  /** The turns in which the method changes. */
  function MethodWrites(s: State, turns: seq<Turn>): nat
  {
    if turns == [] then 0
    else
      var front, e := turns[..|turns| - 1], turns[|turns| - 1];
      MethodWrites(s, front) + if Move(Run(s, front), e).chosen != Run(s, front).chosen then 1 else 0
  }

  /** The graph is being generated now. */
  ghost predicate Underway(s: State)
  {
    exists t :: 0 <= t < |s.pcs| && Generating(s.pcs[t])
  }

  ghost predicate CountsHold(s: State, generations: nat, writes: nat)
  {
    && generations <= 1 && writes <= 1 && (writes == 1 <==> s.chosen.Some?)
    && (generations == 1 ==> s.chosen.Some? || Underway(s))
  }

  lemma CountsStep(s: State, e: Turn, generations: nat, writes: nat)
    requires Inv(s) && CountsHold(s, generations, writes)
    ensures
      var s' := Move(s, e);
      CountsHold(s', generations + (if e.t < |s.pcs| && !s.pcs[e.t].Trace? && s'.pcs[e.t].Trace? then 1 else 0),
                 writes + if s'.chosen != s.chosen then 1 else 0)
  {
    if Enabled(s, e.t) {
      assert PcHolds(s, s.pcs[e.t]);
      UnderwayStep(s, e);
    }
  }

  /** Generation goes on until the method is written, and no second thread starts meanwhile. */
  lemma UnderwayStep(s: State, e: Turn)
    requires Inv(s) && Enabled(s, e.t)
    ensures Underway(s) ==> Step(s, e).chosen.Some? || Underway(Step(s, e))
    ensures !s.pcs[e.t].Trace? && Step(s, e).pcs[e.t].Trace? ==> !Underway(s) && Underway(Step(s, e))
  {
    var s' := Step(s, e);
    assert PcHolds(s, s.pcs[e.t]);
    if Underway(s) {
      var t :| 0 <= t < |s.pcs| && Generating(s.pcs[t]);
      assert Critical(s.pcs[t]);
      if t != e.t {
        assert s'.pcs[t] == s.pcs[t];
      } else {
        assert s'.chosen.Some? || Generating(s'.pcs[t]);
      }
    }
    if s'.pcs[e.t].Trace? {
      assert Generating(s'.pcs[e.t]);
    }
  }

  /** In every interleaving of any number of threads, graph generation starts at most once and the method changes at
      most once. */
  lemma {:induction false} AtMostOnce(threads: nat, train: bool, turns: seq<Turn>)
    ensures
      var s := Start(threads, train);
      CountsHold(Run(s, turns), Generations(s, turns), MethodWrites(s, turns))
    decreases |turns|
  {
    if turns != [] {
      var front := turns[..|turns| - 1];
      AtMostOnce(threads, train, front);
      RunHolds(threads, train, front);
      CountsStep(Run(Start(threads, train), front), turns[|turns| - 1],
                 Generations(Start(threads, train), front), MethodWrites(Start(threads, train), front));
    }
  }

  // ----- Which captures were tried

  /** In state `s`, the turn runs the capture that `at` stands for, with this outcome. */
  predicate Takes(s: State, e: Turn, at: Pc, succeeds: bool)
  {
    Enabled(s, e.t) && s.pcs[e.t] == at && e.succeeds == succeeds
  }

  /** Turn `k` of the run did. */
  ghost predicate TakesAt(s: State, turns: seq<Turn>, k: nat, at: Pc, succeeds: bool)
  {
    k < |turns| && Takes(Run(s, turns[..k]), turns[k], at, succeeds)
  }

  /** Some turn did. */
  ghost predicate Happened(s: State, turns: seq<Turn>, at: Pc, succeeds: bool)
  {
    exists k: nat :: TakesAt(s, turns, k, at, succeeds)
  }

  lemma TakesEarlier(s: State, turns: seq<Turn>, k: nat, at: Pc, succeeds: bool)
    requires k + 1 < |turns|
    ensures TakesAt(s, turns, k, at, succeeds) <==> TakesAt(s, turns[..|turns| - 1], k, at, succeeds)
  {
    assert turns[..|turns| - 1][..k] == turns[..k];
  }

  lemma HappenedStep(s: State, turns: seq<Turn>, at: Pc, succeeds: bool)
    requires turns != []
    ensures
      var front, last := turns[..|turns| - 1], turns[|turns| - 1];
      Happened(s, turns, at, succeeds) <==> Happened(s, front, at, succeeds) || Takes(Run(s, front), last, at, succeeds)
  {
    var n := |turns| - 1;
    assert TakesAt(s, turns, n, at, succeeds) <==> Takes(Run(s, turns[..n]), turns[n], at, succeeds);
    if k: nat :| TakesAt(s, turns, k, at, succeeds) {
      if k < n {
        TakesEarlier(s, turns, k, at, succeeds);
      }
    }
    if k: nat :| TakesAt(s, turns[..n], k, at, succeeds) {
      TakesEarlier(s, turns, k, at, succeeds);
    }
  }

  /** Which captures succeeded and failed so far. */
  datatype Tries = Tries(traced: bool, untraced: bool, compiled: bool, uncompiled: bool)

  const NONE: Tries := Tries(false, false, false, false)
  const TRACED: Tries := Tries(true, false, false, false)
  const UNTRACED: Tries := Tries(false, true, false, false)
  const COMPILED: Tries := Tries(false, true, true, false)
  const UNCOMPILED: Tries := Tries(false, true, false, true)

  ghost function TriedBy(s: State, turns: seq<Turn>): Tries
  {
    Tries(Happened(s, turns, Trace, true), Happened(s, turns, Trace, false),
          Happened(s, turns, Compile, true), Happened(s, turns, Compile, false))
  }

  function TriedNext(s: State, e: Turn, now: Tries): Tries
  {
    Tries(now.traced || Takes(s, e, Trace, true), now.untraced || Takes(s, e, Trace, false),
          now.compiled || Takes(s, e, Compile, true), now.uncompiled || Takes(s, e, Compile, false))
  }

  /** What must have been tried before a method is chosen. */
  function TriedFor(how: Method): Tries
  {
    match how
    case JIT => TRACED
    case TorchDynamo => COMPILED
    case EagerInfer => UNCOMPILED
    case EagerTrain => NONE
  }

  /** What has been tried by the thread that generates a graph. */
  function TriedAt(pc: Pc): Tries
  {
    if pc.WriteTraced? || pc.MarkJit? then TRACED
    else if pc.Compile? then UNTRACED
    else if pc.WriteDynamo? || pc.MarkDynamo? then COMPILED
    else if pc.MarkEager? then UNCOMPILED
    else NONE
  }

  ghost predicate TriesHold(s: State, now: Tries)
    requires Inv(s)
  {
    now == if s.chosen.Some? then TriedFor(s.chosen.value)
           else if s.lock.Some? then TriedAt(s.pcs[s.lock.value])
           else NONE
  }

  lemma TriesStep(s: State, e: Turn, now: Tries)
    requires Inv(s) && Inv(Move(s, e)) && TriesHold(s, now)
    ensures TriesHold(Move(s, e), TriedNext(s, e, now))
  {
    if Enabled(s, e.t) {
      if Critical(s.pcs[e.t]) {
        HolderTries(s, e, now);
      } else {
        OutsiderTries(s, e, now);
      }
    }
  }

  lemma HolderTries(s: State, e: Turn, now: Tries)
    requires Inv(s) && Enabled(s, e.t) && Critical(s.pcs[e.t]) && Inv(Step(s, e)) && TriesHold(s, now)
    ensures TriesHold(Step(s, e), TriedNext(s, e, now))
  {
    assert PcHolds(s, s.pcs[e.t]);
    assert s.lock == Some(e.t);
  }

  /** A thread outside the lock tries nothing, and leaves the holder where it is. */
  lemma OutsiderTries(s: State, e: Turn, now: Tries)
    requires Inv(s) && Enabled(s, e.t) && !Critical(s.pcs[e.t]) && Inv(Step(s, e)) && TriesHold(s, now)
    ensures TriesHold(Step(s, e), TriedNext(s, e, now))
  {
    assert s.lock != Some(e.t);
    assert TriedNext(s, e, now) == now;
  }

  lemma {:induction false} RunTries(threads: nat, train: bool, turns: seq<Turn>)
    ensures Inv(Run(Start(threads, train), turns))
    ensures TriesHold(Run(Start(threads, train), turns), TriedBy(Start(threads, train), turns))
    decreases |turns|
  {
    var s := Start(threads, train);
    RunHolds(threads, train, turns);
    if turns != [] {
      var front, last := turns[..|turns| - 1], turns[|turns| - 1];
      RunTries(threads, train, front);
      TriesStep(Run(s, front), last, TriedBy(s, front));
      HappenedStep(s, turns, Trace, true);
      HappenedStep(s, turns, Trace, false);
      HappenedStep(s, turns, Compile, true);
      HappenedStep(s, turns, Compile, false);
    }
  }

  /** Whichever way the threads interleave, once a method is chosen it is JIT exactly if a trace succeeded, Dynamo
      exactly if a compilation succeeded, and eager inference exactly if one failed; a compilation is only tried after a
      trace failed. In training neither is tried. */
  lemma ChosenByOutcome(threads: nat, train: bool, turns: seq<Turn>)
    requires Run(Start(threads, train), turns).chosen.Some?
    ensures
      var s, how := Start(threads, train), Run(Start(threads, train), turns).chosen.value;
      && (how == JIT <==> Happened(s, turns, Trace, true))
      && (how == TorchDynamo <==> Happened(s, turns, Compile, true))
      && (how == EagerInfer <==> Happened(s, turns, Compile, false))
      && (how == TorchDynamo || how == EagerInfer <==> Happened(s, turns, Trace, false))
      && (how == EagerTrain <==> train)
  {
    RunTries(threads, train, turns);
    StartKeeps(threads, train, turns);
  }

  /** Whatever has run by some point of a run agrees with its end: every call outside an outer trace ran the model that
      is still in place at the end, whichever path it took; in training every such call ran the wrapped function. The
      model at the end is the one that belongs to the method. */
  lemma CallsRunTheFinalModel(threads: nat, train: bool, turns: seq<Turn>, k: nat, c: nat)
    requires k <= |turns| && c < |Run(Start(threads, train), turns[..k]).log|
    ensures
      var ran, end := Run(Start(threads, train), turns[..k]).log[c], Run(Start(threads, train), turns);
      ran == UnderTrace || ran == (if train then RanFunc else RanModel(end.model))
    ensures
      var end := Run(Start(threads, train), turns);
      end.chosen.Some? ==> end.model == ModelOf(end.chosen.value)
  {
    RunHolds(threads, train, turns[..k]);
    RunHolds(threads, train, turns);
    RunKeeps(threads, train, turns, k);
    StartKeeps(threads, train, turns[..k]);
    var s := Run(Start(threads, train), turns[..k]);
    assert RanHolds(s, s.log[c]);
  }

  lemma StartKeeps(threads: nat, train: bool, turns: seq<Turn>)
    ensures Run(Start(threads, train), turns).train == train
  {
    RunKeeps(threads, train, turns, 0);
    assert turns[..0] == [];
  }

  /** After both captures failed, the model is the original one and stays so; so did every call run it. */
  lemma FallbackKeepsOriginal(threads: nat, turns: seq<Turn>)
    requires Run(Start(threads, false), turns).chosen == Some(EagerInfer)
    ensures Run(Start(threads, false), turns).model == Original
    ensures Happened(Start(threads, false), turns, Trace, false)
    ensures Happened(Start(threads, false), turns, Compile, false)
    ensures forall c :: 0 <= c < |Run(Start(threads, false), turns).log| ==>
      Run(Start(threads, false), turns).log[c] in {UnderTrace, RanModel(Original)}
  {
    RunHolds(threads, false, turns);
    StartKeeps(threads, false, turns);
    ChosenByOutcome(threads, false, turns);
    EagerRanOriginal(Run(Start(threads, false), turns));
  }

  lemma EagerRanOriginal(s: State)
    requires Inv(s) && !s.train && s.chosen == Some(EagerInfer)
    ensures s.model == Original
    ensures forall c :: 0 <= c < |s.log| ==> s.log[c] in {UnderTrace, RanModel(Original)}
  {
    forall c | 0 <= c < |s.log| ensures s.log[c] in {UnderTrace, RanModel(Original)} {
      assert RanHolds(s, s.log[c]);
    }
  }

  /** Outside the lock, and not waiting for it. */
  predicate OnFastPath(pc: Pc)
  {
    pc.Idle? || pc.ReadMethod? || pc.RunUnlocked?
  }

  /** Once a method is chosen, calls that start do without the lock: whatever the other threads do, the thread never
      waits for it or takes it again, and can always move. */
  lemma {:induction false} ChosenNeedsNoLock(threads: nat, train: bool, turns: seq<Turn>, k: nat, t: nat)
    requires k <= |turns| && t < threads
    requires Run(Start(threads, train), turns[..k]).chosen.Some?
    requires |Run(Start(threads, train), turns[..k]).pcs| == threads
    requires OnFastPath(Run(Start(threads, train), turns[..k]).pcs[t])
    ensures
      var s := Run(Start(threads, train), turns);
      |s.pcs| == threads && OnFastPath(s.pcs[t]) && s.chosen.Some? && Enabled(s, t)
    decreases |turns|
  {
    if k == |turns| {
      assert turns[..k] == turns;
    } else {
      var front := turns[..|turns| - 1];
      assert front[..k] == turns[..k];
      ChosenNeedsNoLock(threads, train, front, k, t);
      FastPathStays(Run(Start(threads, train), front), turns[|turns| - 1], t);
    }
  }

  lemma FastPathStays(s: State, e: Turn, t: nat)
    requires s.chosen.Some? && t < |s.pcs| && OnFastPath(s.pcs[t])
    ensures
      var s' := Move(s, e);
      s'.chosen.Some? && |s'.pcs| == |s.pcs| && OnFastPath(s'.pcs[t])
  {
  }

  /** The turns that start a call while an outer trace is running. */
  function OuterCalls(s: State, turns: seq<Turn>): nat
  {
    if turns == [] then 0
    else
      var front, last := turns[..|turns| - 1], turns[|turns| - 1];
      var now := Run(s, front);
      OuterCalls(s, front) + if last.t < |now.pcs| && now.pcs[last.t].Idle? && last.tracing then 1 else 0
  }

  /** Exactly the calls that start under an outer trace bypass the wrapper: in any interleaving the log has one such
      entry for each of them. */
  lemma {:induction false} OuterCallsBypass(threads: nat, train: bool, turns: seq<Turn>)
    ensures
      var s := Start(threads, train);
      multiset(Run(s, turns).log)[UnderTrace] == OuterCalls(s, turns)
    decreases |turns|
  {
    if turns != [] {
      var front, last := turns[..|turns| - 1], turns[|turns| - 1];
      OuterCallsBypass(threads, train, front);
      RunHolds(threads, train, front);
      OuterStep(Run(Start(threads, train), front), last);
    }
  }

  lemma OuterStep(s: State, e: Turn)
    requires Inv(s)
    ensures
      multiset(Move(s, e).log)[UnderTrace] == multiset(s.log)[UnderTrace]
                                              + if e.t < |s.pcs| && s.pcs[e.t].Idle? && e.tracing then 1 else 0
  {
  }

  /** If every call is under an outer trace, no graph is ever generated. */
  lemma {:induction false} OnlyOuterCalls(threads: nat, train: bool, turns: seq<Turn>)
    requires forall k :: 0 <= k < |turns| ==> turns[k].tracing
    ensures
      var s := Start(threads, train);
      Run(s, turns) == s.(log := Run(s, turns).log)
    decreases |turns|
  {
    if turns != [] {
      OnlyOuterCalls(threads, train, turns[..|turns| - 1]);
      var s, last := Run(Start(threads, train), turns[..|turns| - 1]), turns[|turns| - 1];
      if last.t < threads {
        assert s.pcs[last.t].Idle?;
        assert s.pcs[last.t := Idle] == s.pcs;
      }
    }
  }

  /** At most one thread is inside the lock, and the thread that has it can always move: no run deadlocks. */
  lemma LockHolderMoves(threads: nat, train: bool, turns: seq<Turn>)
    ensures
      var s := Run(Start(threads, train), turns);
      && (forall t, u :: 0 <= t < |s.pcs| && 0 <= u < |s.pcs| && Critical(s.pcs[t]) && Critical(s.pcs[u]) ==> t == u)
      && (s.lock.Some? ==> Enabled(s, s.lock.value))
  {
    RunHolds(threads, train, turns);
  }
}
