/**
 The op counter protocol of a prepared model: every module with quantization state records the ops
 it runs during the first call and checks every later call against the record
 (quantization/_quantization_state.py `AutoQuantizationState`,
 quantization/_quantize_utils.py `auto_prepare`).

 A call is a tree of events. It is checked in execution order while the counters of all modules
 live side by side, so a nested module call runs between two ops of its caller.
 */
module OpSequence {
  import opened Basics

  /** An op about to run: `name` is str(op), `typeName` is str(type(op)). */
  datatype Op = Op(name: string, typeName: string, isModule: bool)

  /** A recorded op (`SeenQOpInfo.type` and `type_is_module`). */
  datatype Seen = Seen(kind: string, isModule: bool)

  datatype Event = OpCall(op: Op) | ModuleCall(m: nat, body: seq<Event>)

  function RecordOf(op: Op): Seen
  {
    Seen(if op.isModule then op.typeName else op.name, op.isModule)
  }

  const RELATED: set<(string, string)> :=
    { ("torch.add", "torch.Tensor.add"), ("torch.Tensor.add", "torch.add"),
      ("torch.nn.Linear", "nnqd.Linear"), ("nnqd.Linear", "torch.nn.Linear"),
      ("torch.nn.LSTM", "nnqd.LSTM"), ("nnqd.LSTM", "torch.nn.LSTM") }

  /** `ops_are_related` */
  predicate OpsAreRelated(op: Op, expected: Seen)
  {
    var cur := if expected.isModule then op.typeName else op.name;
    cur == expected.kind || (cur, expected.kind) in RELATED
  }

  /** The same string, or two spellings of the same op. */
  predicate Alike(a: string, b: string)
  {
    a == b || (a, b) in RELATED
  }

  /** `op` may stand where `first` was recorded: modules are compared by their types, functions by themselves. */
  predicate Interchangeable(first: Op, op: Op)
  {
    if first.isModule then Alike(op.typeName, first.typeName) else Alike(op.name, first.name)
  }

  /** This is what comparing with the record comes to. An op is always accepted where it was recorded itself, and for
      two modules or two functions it does not matter which one was recorded. */
  lemma RelatedExactly(first: Op, op: Op)
    ensures OpsAreRelated(op, RecordOf(first)) <==> Interchangeable(first, op)
    ensures OpsAreRelated(op, RecordOf(op))
    ensures first.isModule == op.isModule ==>
      (OpsAreRelated(op, RecordOf(first)) <==> OpsAreRelated(first, RecordOf(op)))
  {
    assert forall a, b :: (a, b) in RELATED <==> (b, a) in RELATED;
  }

  // ----- What a module activation runs

  /** The ops a module runs itself, without those of the modules it calls. */
  function DirectOps(events: seq<Event>): (ops: seq<Op>)
  {
    if events == [] then []
    else
      var last := events[|events| - 1];
      DirectOps(events[..|events| - 1]) + (if last.OpCall? then [last.op] else [])
  }

  /** Every module id called below `events`. */
  function Modules(events: seq<Event>): set<nat>
  {
    if events == [] then {}
    else
      var last := events[|events| - 1];
      Modules(events[..|events| - 1]) + (if last.ModuleCall? then {last.m} + Modules(last.body) else {})
  }

  /** No module is called while it is active, and all ids are known. */
  ghost predicate NonReentrant(events: seq<Event>, active: set<nat>, known: nat)
  {
    forall e {:trigger EventNonReentrant(events[e], active, known)} :: 0 <= e < |events| ==>
      EventNonReentrant(events[e], active, known)
  }

  ghost predicate EventNonReentrant(event: Event, active: set<nat>, known: nat)
  {
    event.ModuleCall? ==>
      event.m < known && event.m !in active && NonReentrant(event.body, active + {event.m}, known)
  }

  /** Keys 0 .. n-1, in the order in which the ops were recorded. */
  ghost predicate Contiguous(record: map<nat, Seen>)
  {
    forall k: nat :: k in record <==> k < |record|
  }

  /** From index `start` on, the record has an entry for every op and the entry is related to it. */
  ghost predicate MatchesFrom(record: map<nat, Seen>, start: nat, ops: seq<Op>)
  {
    forall j :: 0 <= j < |ops| ==> MatchesAt(record, start + j, ops[j])
  }

  predicate MatchesAt(record: map<nat, Seen>, i: nat, op: Op)
  {
    i in record && OpsAreRelated(op, record[i])
  }

  /** The activation ran exactly the recorded ops, up to relatedness. */
  ghost predicate ActivationMatches(record: map<nat, Seen>, ops: seq<Op>)
  {
    |ops| == |record| && MatchesFrom(record, 0, ops)
  }

  /** Every activation below `events` ran exactly its recorded ops. */
  ghost predicate AllActivationsMatch(seen: seq<map<nat, Seen>>, events: seq<Event>)
  {
    forall e :: 0 <= e < |events| ==> EventRecorded(seen, events[e])
  }

  ghost predicate EventRecorded(seen: seq<map<nat, Seen>>, event: Event)
  {
    event.ModuleCall? ==> event.m < |seen| && ActivationMatches(seen[event.m], DirectOps(event.body))
                          && AllActivationsMatch(seen, event.body)
  }

  // ----- Modules that are activated several times

  /** The ops of every module's first activation, if `acc` are those of the modules activated before. */
  function Firsts(acc: map<nat, seq<Op>>, events: seq<Event>): map<nat, seq<Op>>
    decreases events, 0
  {
    if events == [] then acc else FirstsEvent(Firsts(acc, events[..|events| - 1]), events[|events| - 1])
  }

  function FirstsEvent(acc: map<nat, seq<Op>>, event: Event): map<nat, seq<Op>>
    decreases event, 0
  {
    match event
    case OpCall(op) => acc
    case ModuleCall(m, body) => Firsts(if m in acc then acc else acc[m := DirectOps(body)], body)
  }

  /** As many ops, each interchangeable with the one of the first activation. */
  ghost predicate RelatedOps(first: seq<Op>, ops: seq<Op>)
  {
    |ops| == |first| && forall j :: 0 <= j < |ops| ==> Interchangeable(first[j], ops[j])
  }

  /** No module is activated twice below `events`. */
  ghost predicate OncePerModule(events: seq<Event>)
  {
    events == [] ||
    (var front, last := events[..|events| - 1], events[|events| - 1];
     OncePerModule(front) && Modules(front) !! Modules([last])
     && (last.ModuleCall? ==> last.m !in Modules(last.body) && OncePerModule(last.body)))
  }

  /** Every activation below `events` runs ops related to `firsts`. */
  ghost predicate Conforms(firsts: map<nat, seq<Op>>, events: seq<Event>)
  {
    forall e :: 0 <= e < |events| ==> EventConforms(firsts, events[e])
  }

  ghost predicate EventConforms(firsts: map<nat, seq<Op>>, event: Event)
  {
    event.ModuleCall? ==>
      event.m in firsts && RelatedOps(firsts[event.m], DirectOps(event.body)) && Conforms(firsts, event.body)
  }

  function RecordAt(record: map<nat, Seen>, i: nat, op: Op): map<nat, Seen>
  {
    if i in record then record else record[i := RecordOf(op)]
  }

  /** The record after running `ops` from index `start` on; known indices keep their record. */
  function RecordFrom(record: map<nat, Seen>, start: nat, ops: seq<Op>): map<nat, Seen>
  {
    if ops == [] then record
    else RecordAt(RecordFrom(record, start, ops[..|ops| - 1]), start + |ops| - 1, ops[|ops| - 1])
  }

  /** All records after `events` ran inside `cur`, whose counter stood at `start`. */
  function Recording(seen: seq<map<nat, Seen>>, cur: nat, start: nat, events: seq<Event>): (r: Try<seq<map<nat, Seen>>>)
    requires cur < |seen|
    ensures r.Ok? ==> |r.value| == |seen|
    decreases events, 0
  {
    if events == [] then Ok(seen)
    else
      var front := events[..|events| - 1];
      var mid :- Recording(seen, cur, start, front);
      RecordingEvent(mid, cur, start + |DirectOps(front)|, events[|events| - 1])
  }

  /** A module activation raises unless its counter ends at the last recorded index. */
  function RecordingEvent(seen: seq<map<nat, Seen>>, cur: nat, at: nat, event: Event): (r: Try<seq<map<nat, Seen>>>)
    requires cur < |seen|
    ensures r.Ok? ==> |r.value| == |seen|
    decreases event, 0
  {
    match event
    case OpCall(op) => Ok(seen[cur := RecordAt(seen[cur], at, op)])
    case ModuleCall(m, body) =>
      if m >= |seen| then Raised
      else
        var after :- Recording(seen, m, 0, body);
        if |after[m]| == 0 || |DirectOps(body)| == |after[m]| then Ok(after) else Raised
  }

  class Interception {
    var idx: seq<nat>
    var seen: seq<map<nat, Seen>>

    ghost predicate Valid()
      reads this
    {
      |idx| == |seen| && forall m :: 0 <= m < |seen| ==> Contiguous(seen[m])
    }

    constructor (modules: nat)
      ensures Valid() && |seen| == modules && forall m :: 0 <= m < modules ==> idx[m] == 0 && seen[m] == map[]
    {
      idx := seq(modules, _ => 0);
      seen := seq(modules, _ => map[]);
    }

    /** The first call: an op with a new index is recorded, one with a known index is not recorded again. */
    method FirstRun(cur: nat, events: seq<Event>, ghost active: set<nat>) returns (ok: bool)
      requires |idx| == |seen| && cur < |seen| && cur in active && NonReentrant(events, active, |seen|)
      modifies this`idx, this`seen
      ensures |idx| == |seen| == old(|seen|)
      ensures ok <==> Recording(old(seen), cur, old(idx[cur]), events).Ok?
      ensures ok ==> seen == Recording(old(seen), cur, old(idx[cur]), events).value
      ensures ok ==> idx[cur] == old(idx[cur]) + |DirectOps(events)|
      ensures forall m :: m in active && m != cur && m < |idx| ==> idx[m] == old(idx[m])
      decreases events, 0
    {
      ghost var start, before := idx[cur], seen;
      for e := 0 to |events|
        invariant |idx| == |seen| == |before|
        invariant Recording(before, cur, start, events[..e]) == Ok(seen)
        invariant idx[cur] == start + |DirectOps(events[..e])|
        invariant forall m :: m in active && m != cur && m < |idx| ==> idx[m] == old(idx[m])
      {
        RecordingStep(before, cur, start, events, e);
        ok := FirstEvent(cur, events[e], active);
        if !ok {
          RaisedStays(before, cur, start, events, e + 1);
          return;
        }
      }
      ok := true;
      assert events[..|events|] == events;
    }

    method FirstEvent(cur: nat, event: Event, ghost active: set<nat>) returns (ok: bool)
      requires |idx| == |seen| && cur < |seen| && cur in active && EventNonReentrant(event, active, |seen|)
      modifies this`idx, this`seen
      ensures |idx| == |seen| == old(|seen|)
      ensures ok <==> RecordingEvent(old(seen), cur, old(idx[cur]), event).Ok?
      ensures ok ==> seen == RecordingEvent(old(seen), cur, old(idx[cur]), event).value
      ensures ok ==> idx[cur] == old(idx[cur]) + if event.OpCall? then 1 else 0
      ensures forall m :: m in active && m != cur && m < |idx| ==> idx[m] == old(idx[m])
      decreases event, 0
    {
      match event
      case OpCall(op) =>
        if idx[cur] !in seen[cur] {
          seen := seen[cur := seen[cur][idx[cur] := RecordOf(op)]];
        }
        idx := idx[cur := idx[cur] + 1];
        ok := true;
      case ModuleCall(m, body) =>
        ok := FirstModule(m, body, active);
    }

    /** One activation of module `m` in the first call. */
    method FirstModule(m: nat, body: seq<Event>, ghost active: set<nat>) returns (ok: bool)
      requires |idx| == |seen| && m < |seen| && m !in active && NonReentrant(body, active + {m}, |seen|)
      modifies this`idx, this`seen
      ensures |idx| == |seen| == old(|seen|)
      ensures ok <==> RecordingEvent(old(seen), m, 0, ModuleCall(m, body)).Ok?
      ensures ok ==> seen == RecordingEvent(old(seen), m, 0, ModuleCall(m, body)).value
      ensures forall a :: a in active && a < |idx| ==> idx[a] == old(idx[a])
      decreases body, 1
    {
      idx := idx[m := 0];
      ok := FirstRun(m, body, active + {m});
      ok := ok && (|seen[m]| == 0 || idx[m] == |seen[m]|);
    }

    /** A call after the first one: it is accepted iff every activation runs exactly its recorded ops. */
    method Replay(cur: nat, events: seq<Event>, ghost active: set<nat>) returns (ok: bool)
      requires Valid() && cur < |seen| && cur in active && NonReentrant(events, active, |seen|)
      modifies this`idx
      ensures Valid()
      ensures ok <==> RunMatches(seen, cur, old(idx[cur]), events)
      ensures ok ==> idx[cur] == old(idx[cur]) + |DirectOps(events)|
      ensures forall m :: m in active && m != cur && m < |idx| ==> idx[m] == old(idx[m])
      decreases events, 0
    {
      ghost var start := idx[cur];
      for e := 0 to |events|
        invariant |idx| == |seen|
        invariant idx[cur] == start + |DirectOps(events[..e])|
        invariant RunMatches(seen, cur, start, events[..e])
        invariant forall m :: m in active && m != cur && m < |idx| ==> idx[m] == old(idx[m])
      {
        RunMatchesStep(seen, cur, start, events, e);
        ok := ReplayEvent(cur, events[e], active);
        if !ok {
          RejectedStays(seen, cur, start, events, e + 1);
          return;
        }
      }
      ok := true;
      assert events[..|events|] == events;
    }

    method ReplayEvent(cur: nat, event: Event, ghost active: set<nat>) returns (ok: bool)
      requires Valid() && cur < |seen| && cur in active && EventNonReentrant(event, active, |seen|)
      modifies this`idx
      ensures Valid()
      ensures ok <==> EventMatches(seen, cur, old(idx[cur]), event)
      ensures ok ==> idx[cur] == old(idx[cur]) + if event.OpCall? then 1 else 0
      ensures forall m :: m in active && m != cur && m < |idx| ==> idx[m] == old(idx[m])
      decreases event, 0
    {
      match event
      case OpCall(op) =>
        // validate_cur_op
        ok := idx[cur] in seen[cur] && OpsAreRelated(op, seen[cur][idx[cur]]);
        if ok {
          // mark_cur_op_complete
          idx := idx[cur := idx[cur] + 1];
        }
      case ModuleCall(m, body) =>
        ok := ReplayModule(m, body, active);
    }

    /** One activation of module `m`, called while the modules `active` are running. */
    method ReplayModule(m: nat, body: seq<Event>, ghost active: set<nat>) returns (ok: bool)
      requires Valid() && m < |seen| && m !in active && NonReentrant(body, active + {m}, |seen|)
      modifies this`idx
      ensures Valid()
      ensures ok <==> ActivationMatches(seen[m], DirectOps(body)) && AllActivationsMatch(seen, body)
      ensures forall a :: a in active && a < |idx| ==> idx[a] == old(idx[a])
      decreases body, 1
    {
      // reset_to_new_call
      idx := idx[m := 0];
      var fine := Replay(m, body, active + {m});
      // validate_is_at_last_seen_idx
      ok := fine && (|seen[m]| == 0 || idx[m] == |seen[m]|);
      RunMatchesMeaning(seen, m, 0, body);
      if |seen[m]| == 0 {
        EmptyRecordMatchesNothing(seen[m], DirectOps(body));
      }
    }
  
    /** Two identical calls of a model that was never called: both are accepted exactly if every activation of a
        module runs ops related to those of the module's first activation. */
    method CallTwice(root: nat, body: seq<Event>) returns (ok: bool)
      requires Valid() && EventNonReentrant(ModuleCall(root, body), {}, |seen|)
      requires forall m :: 0 <= m < |seen| ==> seen[m] == map[]
      modifies this`idx, this`seen
      ensures ok <==> EventConforms(FirstsEvent(map[], ModuleCall(root, body)), ModuleCall(root, body))
      ensures OncePerModule([ModuleCall(root, body)]) ==> ok
    {
      if OncePerModule([ModuleCall(root, body)]) {
        OnceConforms(root, body);
      }
      ghost var before, call := seen, ModuleCall(root, body);
      ok := FirstModule(root, body, {});
      if !ok {
        if EventConforms(FirstsEvent(map[], call), call) {
          EventRecordsFirsts(FirstsEvent(map[], call), map[], before, root, 0, call, {});
          assert false;
        }
        return;
      }
      RecordingContiguous(before, root, 0, body, {root});
      ok := ReplayModule(root, body, {});
      AcceptedExactly(before, seen, root, call);
    }
  }

  /** The run of `events` inside `cur`, whose counter stands at `start`, is accepted event by event. */
  ghost predicate RunMatches(seen: seq<map<nat, Seen>>, cur: nat, start: nat, events: seq<Event>)
    requires cur < |seen|
    decreases |events|
  {
    events == [] ||
    (var front := events[..|events| - 1];
     RunMatches(seen, cur, start, front)
     && EventMatches(seen, cur, start + |DirectOps(front)|, events[|events| - 1]))
  }

  ghost predicate EventMatches(seen: seq<map<nat, Seen>>, cur: nat, at: nat, event: Event)
    requires cur < |seen|
  {
    match event
    case OpCall(op) => MatchesAt(seen[cur], at, op)
    case ModuleCall(m, body) => EventRecorded(seen, event)
  }

  lemma RunMatchesStep(seen: seq<map<nat, Seen>>, cur: nat, start: nat, events: seq<Event>, e: nat)
    requires cur < |seen| && e < |events| && RunMatches(seen, cur, start, events[..e])
    ensures RunMatches(seen, cur, start, events[..e + 1]) <==>
      EventMatches(seen, cur, start + |DirectOps(events[..e])|, events[e])
    ensures |DirectOps(events[..e + 1])| == |DirectOps(events[..e])| + if events[e].OpCall? then 1 else 0
  {
    assert events[..e + 1][..e] == events[..e];
  }

  /** A rejected prefix is a rejected run. */
  lemma {:induction false} RejectedStays(seen: seq<map<nat, Seen>>, cur: nat, start: nat, events: seq<Event>, n: nat)
    requires cur < |seen| && n <= |events| && !RunMatches(seen, cur, start, events[..n])
    ensures !RunMatches(seen, cur, start, events)
    decreases |events|
  {
    if n < |events| {
      assert events[..|events| - 1][..n] == events[..n];
      RejectedStays(seen, cur, start, events[..|events| - 1], n);
    } else {
      assert events[..n] == events;
    }
  }

  /** The ops run by `cur` from index `start` on, and by every activation below, are the recorded ones. */
  ghost predicate ObeysRecords(seen: seq<map<nat, Seen>>, cur: nat, start: nat, events: seq<Event>)
    requires cur < |seen|
  {
    MatchesFrom(seen[cur], start, DirectOps(events)) && AllActivationsMatch(seen, events)
  }

  /** Checking event by event is checking the whole sequence, here and in every activation below. */
  lemma {:induction false} RunMatchesMeaning(seen: seq<map<nat, Seen>>, cur: nat, start: nat, events: seq<Event>)
    requires cur < |seen|
    ensures RunMatches(seen, cur, start, events) <==> ObeysRecords(seen, cur, start, events)
    decreases |events|
  {
    if events == [] {
      assert ObeysRecords(seen, cur, start, events);
    } else {
      var front := events[..|events| - 1];
      assert RunMatches(seen, cur, start, events) <==>
        RunMatches(seen, cur, start, front)
          && EventMatches(seen, cur, start + |DirectOps(front)|, events[|events| - 1]);
      RunMatchesMeaning(seen, cur, start, front);
      ObeysAppend(seen, cur, start, events);
    }
  }

  lemma ObeysAppend(seen: seq<map<nat, Seen>>, cur: nat, start: nat, events: seq<Event>)
    requires cur < |seen| && events != []
    ensures ObeysRecords(seen, cur, start, events) <==>
      ObeysRecords(seen, cur, start, events[..|events| - 1])
      && EventMatches(seen, cur, start + |DirectOps(events[..|events| - 1])|, events[|events| - 1])
  {
    var front, last := events[..|events| - 1], events[|events| - 1];
    assert events == front + [last];
    ActivationsAppend(seen, front, last);
    if last.OpCall? {
      MatchesAppend(seen[cur], start, DirectOps(front), last.op);
    } else {
      assert DirectOps(events) == DirectOps(front);
    }
  }

  lemma MatchesAppend(record: map<nat, Seen>, start: nat, ops: seq<Op>, op: Op)
    ensures MatchesFrom(record, start, ops + [op]) <==>
      MatchesFrom(record, start, ops) && MatchesAt(record, start + |ops|, op)
  {
    var all := ops + [op];
    if MatchesFrom(record, start, all) {
      assert all[|ops|] == op;
      forall j | 0 <= j < |ops| ensures MatchesAt(record, start + j, ops[j]) { assert all[j] == ops[j]; }
    }
  }

  lemma ActivationsAppend(seen: seq<map<nat, Seen>>, events: seq<Event>, last: Event)
    ensures AllActivationsMatch(seen, events + [last]) <==>
      AllActivationsMatch(seen, events) && EventRecorded(seen, last)
  {
    var all := events + [last];
    if AllActivationsMatch(seen, all) {
      assert all[|events|] == last;
      forall e | 0 <= e < |events| ensures EventRecorded(seen, events[e]) { assert all[e] == events[e]; }
    }
  }

  lemma EmptyRecordMatchesNothing(record: map<nat, Seen>, ops: seq<Op>)
    requires |record| == 0
    ensures MatchesFrom(record, 0, ops) <==> ops == []
  {
    assert record == map[];
    if 0 < |ops| {
      var first := ops[0];
      assert !MatchesAt(record, 0 + 0, first);
    }
  }

  // ----- Lemmas about the first call

  lemma {:induction false} NotActive(events: seq<Event>, active: set<nat>, known: nat)
    requires NonReentrant(events, active, known)
    ensures active !! Modules(events) && forall m :: m in Modules(events) ==> m < known
    decreases events
  {
    if events != [] {
      var front, last := events[..|events| - 1], events[|events| - 1];
      assert NonReentrant(front, active, known) by {
        forall e | 0 <= e < |front| ensures EventNonReentrant(front[e], active, known) { assert front[e] == events[e]; }
      }
      NotActive(front, active, known);
      assert EventNonReentrant(last, active, known);
      if last.ModuleCall? {
        NotActive(last.body, active + {last.m}, known);
      }
    }
  }

  lemma RecordOne(record: map<nat, Seen>, start: nat, ops: seq<Op>, op: Op)
    ensures RecordFrom(record, start, ops + [op]) == RecordAt(RecordFrom(record, start, ops), start + |ops|, op)
  {
    assert (ops + [op])[..|ops|] == ops;
  }

  lemma {:induction false} RecordFromKeys(record: map<nat, Seen>, start: nat, ops: seq<Op>)
    ensures forall k: nat :: k in RecordFrom(record, start, ops) <==> k in record || start <= k < start + |ops|
    ensures forall k: nat :: k in RecordFrom(record, start, ops) ==>
      RecordFrom(record, start, ops)[k] == if k in record then record[k] else RecordOf(ops[k - start])
    decreases |ops|
  {
    if ops != [] {
      RecordFromKeys(record, start, ops[..|ops| - 1]);
    }
  }

  lemma {:induction false} RaisedStays(seen: seq<map<nat, Seen>>, cur: nat, start: nat, events: seq<Event>, n: nat)
    requires cur < |seen| && n <= |events| && Recording(seen, cur, start, events[..n]).Raised?
    ensures Recording(seen, cur, start, events).Raised?
    decreases |events|
  {
    if n < |events| {
      assert events[..|events| - 1][..n] == events[..n];
      RaisedStays(seen, cur, start, events[..|events| - 1], n);
    } else {
      assert events[..n] == events;
    }
  }

  lemma RecordingStep(seen: seq<map<nat, Seen>>, cur: nat, start: nat, events: seq<Event>, e: nat)
    requires cur < |seen| && e < |events| && Recording(seen, cur, start, events[..e]).Ok?
    ensures Recording(seen, cur, start, events[..e + 1]) ==
      RecordingEvent(Recording(seen, cur, start, events[..e]).value, cur, start + |DirectOps(events[..e])|, events[e])
    ensures |DirectOps(events[..e + 1])| == |DirectOps(events[..e])| + if events[e].OpCall? then 1 else 0
  {
    assert events[..e + 1][..e] == events[..e];
  }

  /** A first run only touches the records of the modules it runs. */
  lemma {:induction false} RecordingFrame(seen: seq<map<nat, Seen>>, cur: nat, start: nat, events: seq<Event>, m: nat)
    requires cur < |seen| && m < |seen| && m != cur && m !in Modules(events)
    requires Recording(seen, cur, start, events).Ok?
    ensures Recording(seen, cur, start, events).value[m] == seen[m]
    decreases events
  {
    if events != [] {
      var front, last := events[..|events| - 1], events[|events| - 1];
      RecordingFrame(seen, cur, start, front, m);
      if last.ModuleCall? {
        RecordingFrame(Recording(seen, cur, start, front).value, last.m, 0, last.body, m);
      }
    }
  }

  /** Nested calls never disturb the caller's own record. */
  lemma {:induction false} RecordingOwn(seen: seq<map<nat, Seen>>, cur: nat, start: nat, events: seq<Event>)
    requires cur < |seen| && cur !in Modules(events) && Recording(seen, cur, start, events).Ok?
    ensures Recording(seen, cur, start, events).value[cur] == RecordFrom(seen[cur], start, DirectOps(events))
    decreases |events|
  {
    if events != [] {
      var front, last := events[..|events| - 1], events[|events| - 1];
      RecordingOwn(seen, cur, start, front);
      if last.ModuleCall? {
        RecordingFrame(Recording(seen, cur, start, front).value, last.m, 0, last.body, cur);
        assert DirectOps(events) == DirectOps(front);
      } else {
        RecordOne(seen[cur], start, DirectOps(front), last.op);
      }
    }
  }

  lemma RecordAtContiguous(record: map<nat, Seen>, i: nat, op: Op)
    requires Contiguous(record) && i <= |record|
    ensures Contiguous(RecordAt(record, i, op)) && i < |RecordAt(record, i, op)|
  {
  }

  lemma {:induction false} RecordFromContiguous(record: map<nat, Seen>, start: nat, ops: seq<Op>)
    requires Contiguous(record) && start <= |record|
    ensures Contiguous(RecordFrom(record, start, ops)) && start + |ops| <= |RecordFrom(record, start, ops)|
    decreases |ops|
  {
    if ops != [] {
      RecordFromContiguous(record, start, ops[..|ops| - 1]);
      RecordAtContiguous(RecordFrom(record, start, ops[..|ops| - 1]), start + |ops| - 1, ops[|ops| - 1]);
    }
  }

  ghost predicate AllContiguous(seen: seq<map<nat, Seen>>)
  {
    forall m :: 0 <= m < |seen| ==> Contiguous(seen[m])
  }

  /** Recorded indices are 0 .. n-1 in every module after any first run. */
  lemma {:induction false} RecordingContiguous(
      seen: seq<map<nat, Seen>>, cur: nat, start: nat, events: seq<Event>, active: set<nat>)
    requires cur < |seen| && cur in active && NonReentrant(events, active, |seen|)
    requires AllContiguous(seen) && start <= |seen[cur]| && Recording(seen, cur, start, events).Ok?
    ensures AllContiguous(Recording(seen, cur, start, events).value)
    decreases events
  {
    NotActive(events, active, |seen|);
    RecordingOwn(seen, cur, start, events);
    RecordFromContiguous(seen[cur], start, DirectOps(events));
    if events != [] {
      var front, last := events[..|events| - 1], events[|events| - 1];
      assert NonReentrant(front, active, |seen|) by {
        forall e | 0 <= e < |front|
          ensures EventNonReentrant(front[e], active, |seen|) { assert front[e] == events[e]; }
      }
      RecordingContiguous(seen, cur, start, front, active);
      assert EventNonReentrant(last, active, |seen|);
      if last.ModuleCall? {
        RecordingContiguous(Recording(seen, cur, start, front).value, last.m, 0, last.body, active + {last.m});
      }
    }
  }

  // ----- Two identical calls

  /** Outside `active`, activated modules have recorded exactly their first activation. */
  ghost predicate RecordsAre(acc: map<nat, seq<Op>>, seen: seq<map<nat, Seen>>, active: set<nat>)
  {
    forall m: nat :: m < |seen| && m !in active ==>
      seen[m] == if m in acc then RecordFrom(map[], 0, acc[m]) else map[]
  }

  ghost predicate Submap(a: map<nat, seq<Op>>, b: map<nat, seq<Op>>)
  {
    forall m :: m in a ==> m in b && b[m] == a[m]
  }

  lemma {:induction false} FirstsGrow(acc: map<nat, seq<Op>>, events: seq<Event>)
    ensures Submap(acc, Firsts(acc, events))
    decreases events
  {
    if events != [] {
      FirstsGrow(acc, events[..|events| - 1]);
      EventFirstsGrow(Firsts(acc, events[..|events| - 1]), events[|events| - 1]);
    }
  }

  lemma {:induction false} EventFirstsGrow(acc: map<nat, seq<Op>>, event: Event)
    ensures Submap(acc, FirstsEvent(acc, event))
    decreases event
  {
    if event.ModuleCall? {
      FirstsGrow(if event.m in acc then acc else acc[event.m := DirectOps(event.body)], event.body);
    }
  }

  lemma NonReentrantFront(events: seq<Event>, active: set<nat>, known: nat)
    requires events != [] && NonReentrant(events, active, known)
    ensures NonReentrant(events[..|events| - 1], active, known)
    ensures EventNonReentrant(events[|events| - 1], active, known)
  {
    assert forall e :: 0 <= e < |events| - 1 ==> events[..|events| - 1][e] == events[e];
  }

  /** If all activations conform, the first call succeeds and records every module's first activation. */
  lemma {:induction false} RecordsFirsts(firsts: map<nat, seq<Op>>, acc: map<nat, seq<Op>>,
      seen: seq<map<nat, Seen>>, cur: nat, start: nat, events: seq<Event>, active: set<nat>)
    requires cur < |seen| && cur in active && NonReentrant(events, active, |seen|) && RecordsAre(acc, seen, active)
    requires Conforms(firsts, events) && Submap(Firsts(acc, events), firsts)
    ensures Recording(seen, cur, start, events).Ok?
    ensures RecordsAre(Firsts(acc, events), Recording(seen, cur, start, events).value, active)
    decreases events, 0
  {
    if events != [] {
      var front, last := events[..|events| - 1], events[|events| - 1];
      NonReentrantFront(events, active, |seen|);
      EventFirstsGrow(Firsts(acc, front), last);
      assert Conforms(firsts, front) by {
        assert forall e :: 0 <= e < |front| ==> front[e] == events[e];
      }
      RecordsFirsts(firsts, acc, seen, cur, start, front, active);
      var mid := Recording(seen, cur, start, front).value;
      EventRecordsFirsts(firsts, Firsts(acc, front), mid, cur, start + |DirectOps(front)|, last, active);
    }
  }

  lemma {:induction false} EventRecordsFirsts(firsts: map<nat, seq<Op>>, acc: map<nat, seq<Op>>,
      seen: seq<map<nat, Seen>>, cur: nat, at: nat, event: Event, active: set<nat>)
    requires cur < |seen| && EventNonReentrant(event, active, |seen|) && RecordsAre(acc, seen, active)
    requires event.OpCall? ==> cur in active
    requires EventConforms(firsts, event) && Submap(FirstsEvent(acc, event), firsts)
    ensures RecordingEvent(seen, cur, at, event).Ok?
    ensures RecordsAre(FirstsEvent(acc, event), RecordingEvent(seen, cur, at, event).value, active)
    decreases event, 0
  {
    if event.ModuleCall? {
      var m, body := event.m, event.body;
      var acc' := if m in acc then acc else acc[m := DirectOps(body)];
      FirstsGrow(acc', body);
      RecordsFirsts(firsts, acc', seen, m, 0, body, active + {m});
      NotActive(body, active + {m}, |seen|);
      RecordingOwn(seen, m, 0, body);
      RecordedAgain(acc'[m], DirectOps(body), seen[m]);
    }
  }

  /** A module's first activation, or a later one with as many ops: the record is that of the first one. */
  lemma RecordedAgain(first: seq<Op>, ops: seq<Op>, record: map<nat, Seen>)
    requires |ops| == |first|
    requires (record == map[] && ops == first) || record == RecordFrom(map[], 0, first)
    ensures RecordFrom(record, 0, ops) == RecordFrom(map[], 0, first) && |RecordFrom(map[], 0, first)| == |ops|
  {
    RecordFromKeys(map[], 0, first);
    RecordFromContiguous(map[], 0, first);
    RecordFromKeys(record, 0, ops);
    var r := RecordFrom(map[], 0, first);
    assert |first| as nat !in r;
    if |first| > 0 {
      assert (|first| - 1) as nat in r;
    }
    assert RecordFrom(record, 0, ops).Keys == r.Keys;
  }

  /** Outside `active`, the records of activated modules begin with their first activation. */
  ghost predicate RecordsBegin(acc: map<nat, seq<Op>>, seen: seq<map<nat, Seen>>, active: set<nat>)
  {
    forall m: nat :: m < |seen| && m !in active ==>
      if m in acc then Begins(acc[m], seen[m]) else seen[m] == map[]
  }

  ghost predicate Begins(first: seq<Op>, record: map<nat, Seen>)
  {
    forall k: nat :: k < |first| ==> k in record && record[k] == RecordOf(first[k])
  }

  /** Whatever a successful first call runs, recorded ops are never replaced. */
  lemma {:induction false} RecordsStay(
      acc: map<nat, seq<Op>>, seen: seq<map<nat, Seen>>, cur: nat, start: nat, events: seq<Event>, active: set<nat>)
    requires cur < |seen| && cur in active && NonReentrant(events, active, |seen|) && RecordsBegin(acc, seen, active)
    requires Recording(seen, cur, start, events).Ok?
    ensures RecordsBegin(Firsts(acc, events), Recording(seen, cur, start, events).value, active)
    decreases events, 0
  {
    if events != [] {
      var front, last := events[..|events| - 1], events[|events| - 1];
      NonReentrantFront(events, active, |seen|);
      RecordsStay(acc, seen, cur, start, front, active);
      var mid := Recording(seen, cur, start, front).value;
      EventRecordsStay(Firsts(acc, front), mid, cur, start + |DirectOps(front)|, last, active);
    }
  }

  lemma {:induction false} EventRecordsStay(
      acc: map<nat, seq<Op>>, seen: seq<map<nat, Seen>>, cur: nat, at: nat, event: Event, active: set<nat>)
    requires cur < |seen| && EventNonReentrant(event, active, |seen|) && RecordsBegin(acc, seen, active)
    requires event.OpCall? ==> cur in active
    requires RecordingEvent(seen, cur, at, event).Ok?
    ensures RecordsBegin(FirstsEvent(acc, event), RecordingEvent(seen, cur, at, event).value, active)
    decreases event, 0
  {
    if event.ModuleCall? {
      var m, body := event.m, event.body;
      var acc' := if m in acc then acc else acc[m := DirectOps(body)];
      FirstsGrow(acc', body);
      RecordsStay(acc', seen, m, 0, body, active + {m});
      NotActive(body, active + {m}, |seen|);
      RecordingOwn(seen, m, 0, body);
      BeginsAgain(acc'[m], DirectOps(body), seen[m]);
    }
  }

  lemma BeginsAgain(first: seq<Op>, ops: seq<Op>, record: map<nat, Seen>)
    requires (record == map[] && ops == first) || Begins(first, record)
    ensures Begins(first, RecordFrom(record, 0, ops))
  {
    RecordFromKeys(record, 0, ops);
  }

  /** First activations are activations. */
  lemma {:induction false} FirstsMatch(acc: map<nat, seq<Op>>, seen: seq<map<nat, Seen>>, events: seq<Event>)
    requires AllActivationsMatch(seen, events)
    requires forall m :: m in acc ==> m < |seen| && |acc[m]| == |seen[m]|
    ensures forall m :: m in Firsts(acc, events) ==> m < |seen| && |Firsts(acc, events)[m]| == |seen[m]|
    decreases events, 0
  {
    if events != [] {
      var front, last := events[..|events| - 1], events[|events| - 1];
      assert forall e :: 0 <= e < |front| ==> front[e] == events[e];
      FirstsMatch(acc, seen, front);
      assert EventRecorded(seen, last);
      EventFirstsMatch(Firsts(acc, front), seen, last);
    }
  }

  lemma {:induction false} EventFirstsMatch(acc: map<nat, seq<Op>>, seen: seq<map<nat, Seen>>, event: Event)
    requires EventRecorded(seen, event)
    requires forall m :: m in acc ==> m < |seen| && |acc[m]| == |seen[m]|
    ensures forall m :: m in FirstsEvent(acc, event) ==> m < |seen| && |FirstsEvent(acc, event)[m]| == |seen[m]|
    decreases event, 0
  {
    if event.ModuleCall? {
      FirstsMatch(if event.m in acc then acc else acc[event.m := DirectOps(event.body)], seen, event.body);
    }
  }

  /** Records that begin with the first activations and match every activation make all activations conform. */
  lemma {:induction false} MatchConforms(
      firsts: map<nat, seq<Op>>, acc: map<nat, seq<Op>>, seen: seq<map<nat, Seen>>, events: seq<Event>)
    requires AllActivationsMatch(seen, events) && Submap(Firsts(acc, events), firsts)
    requires forall m :: m in firsts ==> m < |seen| && |firsts[m]| == |seen[m]| && Begins(firsts[m], seen[m])
    ensures Conforms(firsts, events)
    decreases events, 0
  {
    forall e | 0 <= e < |events| ensures EventConforms(firsts, events[e]) {
      assert EventRecorded(seen, events[e]);
      FirstsPrefix(acc, events, e);
      EventMatchConforms(firsts, Firsts(acc, events[..e]), seen, events[e]);
    }
  }

  lemma {:induction false} FirstsPrefix(acc: map<nat, seq<Op>>, events: seq<Event>, e: nat)
    requires e < |events|
    ensures Submap(FirstsEvent(Firsts(acc, events[..e]), events[e]), Firsts(acc, events))
    decreases |events|
  {
    var front, last := events[..|events| - 1], events[|events| - 1];
    if e < |front| {
      assert front[..e] == events[..e] && front[e] == events[e];
      FirstsPrefix(acc, front, e);
      EventFirstsGrow(Firsts(acc, front), last);
    } else {
      assert front == events[..e];
    }
  }

  lemma {:induction false} EventMatchConforms(
      firsts: map<nat, seq<Op>>, acc: map<nat, seq<Op>>, seen: seq<map<nat, Seen>>, event: Event)
    requires EventRecorded(seen, event) && Submap(FirstsEvent(acc, event), firsts)
    requires forall m :: m in firsts ==> m < |seen| && |firsts[m]| == |seen[m]| && Begins(firsts[m], seen[m])
    ensures EventConforms(firsts, event)
    decreases event, 0
  {
    if event.ModuleCall? {
      var m, body := event.m, event.body;
      var acc' := if m in acc then acc else acc[m := DirectOps(body)];
      FirstsGrow(acc', body);
      MatchConforms(firsts, acc', seen, body);
      var ops := DirectOps(body);
      forall j | 0 <= j < |ops| ensures Interchangeable(firsts[m][j], ops[j]) {
        assert MatchesAt(seen[m], 0 + j, ops[j]);
        assert seen[m][j] == RecordOf(firsts[m][j]);
        RelatedExactly(firsts[m][j], ops[j]);
      }
    }
  }

  /** Conforming activations match records of first activations. */
  lemma {:induction false} ConformsMatch(firsts: map<nat, seq<Op>>, seen: seq<map<nat, Seen>>, events: seq<Event>)
    requires Conforms(firsts, events)
    requires forall m :: m in firsts ==> m < |seen| && seen[m] == RecordFrom(map[], 0, firsts[m])
    ensures AllActivationsMatch(seen, events)
    decreases events, 0
  {
    forall e | 0 <= e < |events| ensures EventRecorded(seen, events[e]) {
      EventConformsMatch(firsts, seen, events[e]);
    }
  }

  lemma {:induction false} EventConformsMatch(firsts: map<nat, seq<Op>>, seen: seq<map<nat, Seen>>, event: Event)
    requires EventConforms(firsts, event)
    requires forall m :: m in firsts ==> m < |seen| && seen[m] == RecordFrom(map[], 0, firsts[m])
    ensures EventRecorded(seen, event)
    decreases event, 0
  {
    if event.ModuleCall? {
      ConformsMatch(firsts, seen, event.body);
      RelatedMatches(firsts[event.m], DirectOps(event.body));
    }
  }

  lemma RelatedMatches(first: seq<Op>, ops: seq<Op>)
    requires RelatedOps(first, ops)
    ensures ActivationMatches(RecordFrom(map[], 0, first), ops)
  {
    RecordedAgain(first, first, map[]);
    RecordFromKeys(map[], 0, first);
    forall j | 0 <= j < |ops| ensures OpsAreRelated(ops[j], RecordOf(first[j])) {
      RelatedExactly(first[j], ops[j]);
    }
  }

  // ----- Models that activate every module once

  lemma ModulesSnoc(events: seq<Event>, event: Event)
    ensures Modules(events + [event]) == Modules(events) + Modules([event])
    ensures Modules([event]) == if event.ModuleCall? then {event.m} + Modules(event.body) else {}
  {
    assert (events + [event])[..|events + [event]| - 1] == events && [event][..0] == [];
  }

  /** First activations are recorded of the modules called, and of no others. */
  lemma {:induction false} FirstsKeys(acc: map<nat, seq<Op>>, events: seq<Event>)
    ensures Firsts(acc, events).Keys == acc.Keys + Modules(events)
    decreases events, 0
  {
    if events != [] {
      var front, last := events[..|events| - 1], events[|events| - 1];
      assert events == front + [last];
      ModulesSnoc(front, last);
      FirstsKeys(acc, front);
      EventFirstsKeys(Firsts(acc, front), last);
    }
  }

  lemma {:induction false} EventFirstsKeys(acc: map<nat, seq<Op>>, event: Event)
    ensures FirstsEvent(acc, event).Keys == acc.Keys + Modules([event])
    decreases event, 0
  {
    ModulesSnoc([], event);
    if event.ModuleCall? {
      FirstsKeys(if event.m in acc then acc else acc[event.m := DirectOps(event.body)], event.body);
    }
  }

  /** If every module is activated once, each activation is the first one. */
  lemma {:induction false} EachIsFirst(firsts: map<nat, seq<Op>>, acc: map<nat, seq<Op>>, events: seq<Event>)
    requires OncePerModule(events) && acc.Keys !! Modules(events) && Submap(Firsts(acc, events), firsts)
    ensures Conforms(firsts, events)
    decreases events, 0
  {
    if events != [] {
      var front, last := events[..|events| - 1], events[|events| - 1];
      assert events == front + [last];
      ModulesSnoc(front, last);
      EventFirstsGrow(Firsts(acc, front), last);
      EachIsFirst(firsts, acc, front);
      FirstsKeys(acc, front);
      EventIsFirst(firsts, Firsts(acc, front), last);
      forall e | 0 <= e < |events| ensures EventConforms(firsts, events[e]) {
        assert e < |front| ==> events[e] == front[e];
      }
    }
  }

  lemma {:induction false} EventIsFirst(firsts: map<nat, seq<Op>>, acc: map<nat, seq<Op>>, event: Event)
    requires event.ModuleCall? ==> event.m !in Modules(event.body) && OncePerModule(event.body)
    requires acc.Keys !! Modules([event]) && Submap(FirstsEvent(acc, event), firsts)
    ensures EventConforms(firsts, event)
    decreases event, 0
  {
    ModulesSnoc([], event);
    if event.ModuleCall? {
      var ops := DirectOps(event.body);
      var acc' := acc[event.m := ops];
      FirstsGrow(acc', event.body);
      EachIsFirst(firsts, acc', event.body);
      forall j | 0 <= j < |ops| ensures Interchangeable(ops[j], ops[j]) {
      }
    }
  }

  lemma OnceConforms(root: nat, body: seq<Event>)
    requires OncePerModule([ModuleCall(root, body)])
    ensures EventConforms(FirstsEvent(map[], ModuleCall(root, body)), ModuleCall(root, body))
  {
    var call := ModuleCall(root, body);
    assert [call][..0] == [];
    EventIsFirst(FirstsEvent(map[], call), map[], call);
  }

  /** After a successful first call, an identical one is accepted exactly if all activations conform. */
  lemma AcceptedExactly(before: seq<map<nat, Seen>>, after: seq<map<nat, Seen>>, root: nat, call: Event)
    requires call.ModuleCall? && root < |before| && EventNonReentrant(call, {}, |before|)
    requires forall m :: 0 <= m < |before| ==> before[m] == map[]
    requires RecordingEvent(before, root, 0, call) == Ok(after)
    ensures EventRecorded(after, call) <==> EventConforms(FirstsEvent(map[], call), call)
  {
    var firsts := FirstsEvent(map[], call);
    FirstsKnown(map[], call, {}, |before|);
    if EventConforms(firsts, call) {
      EventRecordsFirsts(firsts, map[], before, root, 0, call, {});
      EventConformsMatch(firsts, after, call);
    }
    if EventRecorded(after, call) {
      EventRecordsStay(map[], before, root, 0, call, {});
      EventFirstsMatch(map[], after, call);
      EventMatchConforms(firsts, map[], after, call);
    }
  }

  lemma {:induction false} FirstsKnown(acc: map<nat, seq<Op>>, event: Event, active: set<nat>, known: nat)
    requires EventNonReentrant(event, active, known) && forall m :: m in acc ==> m < known
    ensures forall m :: m in FirstsEvent(acc, event) ==> m < known
    decreases event, 0
  {
    if event.ModuleCall? {
      var acc' := if event.m in acc then acc else acc[event.m := DirectOps(event.body)];
      AllFirstsKnown(acc', event.body, active + {event.m}, known);
    }
  }

  lemma {:induction false} AllFirstsKnown(acc: map<nat, seq<Op>>, events: seq<Event>, active: set<nat>, known: nat)
    requires NonReentrant(events, active, known) && forall m :: m in acc ==> m < known
    ensures forall m :: m in Firsts(acc, events) ==> m < known
    decreases events, 0
  {
    if events != [] {
      NonReentrantFront(events, active, known);
      AllFirstsKnown(acc, events[..|events| - 1], active, known);
      FirstsKnown(Firsts(acc, events[..|events| - 1]), events[|events| - 1], active, known);
    }
  }
}
