/** Whole lives of a JSONL log: any processes, limits, calls and crashes, one after the other. */
module JsonlRuns {
  import opened Basics
  import opened AuditChain
  import opened JsonlLog
  import opened JsonlSafety
  import opened JsonlSteps
  import opened JsonlLimits

  /** A call that gets through at most `ops` durable file operations before its process dies. */
  datatype Call =
    | OpenCall(limit: Option<int>, maxBytes: Option<int>)
    | WriteCall(body: Body, ops: nat)
    | ReadCall(ops: nat)

  datatype Reply = Opened(ok: bool) | Wrote(write: WriteReply) | Returned(read: ReadReply)

  ghost function Step(env: Env, log: Log, call: Call): Log {
    match call
    case OpenCall(limit, maxBytes) => OpenStep(log, limit, maxBytes)
    case WriteCall(body, ops) => WriteStep(env, log, body, ops)
    case ReadCall(ops) => ReadStep(env, log, ops)
  }

  ghost function Answer(env: Env, log: Log, call: Call): Reply {
    match call
    case OpenCall(limit, maxBytes) => Opened(Allowed(limit, maxBytes))
    case WriteCall(body, ops) => Wrote(WriteAnswer(env, log, body, ops))
    case ReadCall(ops) => Returned(ReadAnswer(log, ops))
  }

  /** The calls of a run, their replies, and the log before, between and after them. */
  datatype Run = Run(calls: seq<Call>, replies: seq<Reply>, logs: seq<Log>)

  predicate Fits(run: Run) {
    |run.replies| == |run.calls| && |run.logs| == |run.calls| + 1
  }

  ghost predicate StepAt(env: Env, run: Run, k: int) {
    Fits(run) && 0 <= k < |run.calls| ==>
      && run.logs[k + 1] == Step(env, run.logs[k], run.calls[k])
      && run.replies[k] == Answer(env, run.logs[k], run.calls[k])
  }

  ghost predicate IsRun(env: Env, run: Run) {
    Fits(run) && forall k :: StepAt(env, run, k)
  }

  /** A run from the empty directory. */
  ghost predicate IsLife(env: Env, run: Run) {
    IsRun(env, run) && run.logs[0] == EMPTY
  }

  /** Every sequence of calls has its life. */
  lemma LifeOf(env: Env, calls: seq<Call>) returns (run: Run)
    ensures IsLife(env, run) && run.calls == calls
  {
    if calls == [] {
      run := Run([], [], [EMPTY]);
    } else {
      var before, call := calls[..|calls| - 1], calls[|calls| - 1];
      var past := LifeOf(env, before);
      run := Extended(env, past, call);
      assert before + [call] == calls;
    }
  }

  lemma Extended(env: Env, past: Run, call: Call) returns (run: Run)
    requires IsRun(env, past)
    ensures IsRun(env, run) && run.logs[0] == past.logs[0]
    ensures run.calls == past.calls + [call]
    ensures run.replies == past.replies + [Answer(env, past.logs[|past.calls|], call)]
    ensures run.logs == past.logs + [Step(env, past.logs[|past.calls|], call)]
  {
    var last := past.logs[|past.calls|];
    run := Run(past.calls + [call], past.replies + [Answer(env, last, call)], past.logs + [Step(env, last, call)]);
    forall k ensures StepAt(env, run, k) {
      assert StepAt(env, past, k);
    }
  }

  lemma SameStep(env: Env, a: Run, b: Run, k: nat)
    requires IsRun(env, a) && IsRun(env, b) && a.calls == b.calls && k < |a.calls| && a.logs[k] == b.logs[k]
    ensures a.logs[k + 1] == b.logs[k + 1]
  {
    assert StepAt(env, a, k) && StepAt(env, b, k);
  }

  /** And only one. */
  lemma {:induction false} LivesAgree(env: Env, a: Run, b: Run, k: nat)
    requires IsLife(env, a) && IsLife(env, b) && a.calls == b.calls && k <= |a.calls|
    ensures a.logs[k] == b.logs[k]
  {
    if k > 0 {
      LivesAgree(env, a, b, k - 1);
      SameStep(env, a, b, k - 1);
    }
  }

  // ---------------------------------------------------------------- the log stays in order

  lemma ReadKeeps(env: Env, log: Log, ops: nat)
    requires LogOk(env, log)
    ensures var next := ReadStep(env, log, ops);
            && LogOk(env, next) && (CanRead(next) <==> CanRead(log))
            && next == log.(files := log.files.(state := next.files.state))
            && (next.files.state.Some? <==> log.files.state.Some?)
            && (log.files.state.Some? ==> next.files.state.value.first == log.files.state.value.first)
            && (Lost(log) ==> next == log)
  {
    if log.files.state.Some? {
      SettledKeeps(env, log);
    }
  }

  /** Every call keeps the log in order. */
  lemma StepKeeps(env: Env, log: Log, call: Call)
    requires LogOk(env, log)
    ensures LogOk(env, Step(env, log, call))
  {
    match call
    case OpenCall(_, _) =>
    case WriteCall(body, ops) => WriteKeeps(env, log, body, ops);
    case ReadCall(ops) => ReadKeeps(env, log, ops);
  }

  lemma OrderAt(env: Env, run: Run, k: nat)
    requires IsRun(env, run) && k < |run.calls| && LogOk(env, run.logs[k])
    ensures LogOk(env, run.logs[k + 1])
  {
    assert StepAt(env, run, k);
    StepKeeps(env, run.logs[k], run.calls[k]);
  }

  lemma EmptyIsOk(env: Env)
    ensures LogOk(env, EMPTY) && CanRead(EMPTY) && Gapless(EMPTY)
  {
    NoBackups(None);
  }

  lemma {:induction false} RunKeeps(env: Env, run: Run, k: nat)
    requires IsRun(env, run) && k <= |run.calls| && LogOk(env, run.logs[0])
    ensures LogOk(env, run.logs[k])
  {
    if k > 0 {
      RunKeeps(env, run, k - 1);
      OrderAt(env, run, k - 1);
    }
  }

  lemma LifeKeeps(env: Env, run: Run, k: nat)
    requires IsLife(env, run) && k <= |run.calls|
    ensures LogOk(env, run.logs[k])
  {
    EmptyIsOk(env);
    RunKeeps(env, run, k);
  }

  // ---------------------------------------------------------------- confirmed writes

  /** The bodies confirmed by the first `k` calls. */
  function Confirmed(run: Run, k: nat): seq<Body>
    requires Fits(run) && k <= |run.calls|
  {
    if k == 0 then [] else Confirmed(run, k - 1) + Confirms(run.calls[k - 1], run.replies[k - 1])
  }

  function Confirms(call: Call, reply: Reply): seq<Body> {
    if call.WriteCall? && reply == Wrote(Written) then [call.body] else []
  }

  predicate IsPlaced(bodies: seq<Body>, all: seq<Entry>, at: seq<nat>, i: int) {
    0 <= i < |at| && i < |bodies| ==>
      && at[i] < |all| && all[at[i]].body == bodies[i]
      && (i > 0 ==> at[i - 1] < at[i])
  }

  /** `at` places the bodies among the entries, in order and each at its own entry. */
  ghost predicate ArePlaced(bodies: seq<Body>, all: seq<Entry>, at: seq<nat>) {
    |at| == |bodies| && forall i :: IsPlaced(bodies, all, at, i)
  }

  ghost predicate AreAmong(bodies: seq<Body>, all: seq<Entry>) {
    exists at :: ArePlaced(bodies, all, at)
  }

  /** A call appends at most one entry, the one it confirms, and a confirmed one is recorded. */
  lemma StepAppends(env: Env, log: Log, call: Call)
    ensures var next, done := Step(env, log, call), Confirms(call, Answer(env, log, call));
            && log.all <= next.all
            && (log.files.state.Some? || done != [] ==> next.files.state.Some?)
            && (done != [] ==> |next.all| == |log.all| + 1 && next.all[|log.all|].body == done[0])
  {
    if call.WriteCall? && !Lost(log) && call.ops >= Owed(log) {
      WriteUnfolds(env, log, call.body, call.ops);
    }
  }

  lemma AppendAt(env: Env, run: Run, k: nat)
    requires IsRun(env, run) && k < |run.calls|
    ensures var log, next, done := run.logs[k], run.logs[k + 1], Confirms(run.calls[k], run.replies[k]);
            && log.all <= next.all
            && (log.files.state.Some? || done != [] ==> next.files.state.Some?)
            && (done != [] ==> |next.all| == |log.all| + 1 && next.all[|log.all|].body == done[0])
  {
    assert StepAt(env, run, k);
    StepAppends(env, run.logs[k], run.calls[k]);
  }

  lemma PlacesStay(bodies: seq<Body>, all: seq<Entry>, all': seq<Entry>, at: seq<nat>, done: seq<Body>)
    requires ArePlaced(bodies, all, at) && all <= all'
    requires done == [] || (|done| == 1 && |all| < |all'| && all'[|all|].body == done[0])
    ensures ArePlaced(bodies + done, all', if done == [] then at else at + [|all|])
  {
    assert bodies + [] == bodies;
    var at' := if done == [] then at else at + [|all|];
    forall i ensures IsPlaced(bodies + done, all', at', i) {
      assert IsPlaced(bodies, all, at, i) && IsPlaced(bodies, all, at, i - 1);
    }
  }

  lemma PlaceAt(env: Env, run: Run, k: nat, bodies: seq<Body>, at: seq<nat>)
    requires IsRun(env, run) && k < |run.calls| && ArePlaced(bodies, run.logs[k].all, at)
    ensures var done := Confirms(run.calls[k], run.replies[k]);
            ArePlaced(bodies + done, run.logs[k + 1].all, if done == [] then at else at + [|run.logs[k].all|])
  {
    AppendAt(env, run, k);
    PlacesStay(bodies, run.logs[k].all, run.logs[k + 1].all, at, Confirms(run.calls[k], run.replies[k]));
  }

  /** The confirmed writes of a life are among its appends, in order and each at its own entry. */
  lemma {:induction false} ConfirmedArePlaced(env: Env, run: Run, k: nat) returns (at: seq<nat>)
    requires IsLife(env, run) && k <= |run.calls|
    ensures ArePlaced(Confirmed(run, k), run.logs[k].all, at)
  {
    at := [];
    if k > 0 {
      at := ConfirmedArePlaced(env, run, k - 1);
      PlaceAt(env, run, k - 1, Confirmed(run, k - 1), at);
      at := if Confirms(run.calls[k - 1], run.replies[k - 1]) == [] then at else at + [|run.logs[k - 1].all|];
    }
  }

  /** While there is no state file nothing was confirmed. */
  lemma {:induction false} ConfirmedIsRecorded(env: Env, run: Run, k: nat)
    requires IsLife(env, run) && k <= |run.calls|
    ensures Confirmed(run, k) != [] ==> run.logs[k].files.state.Some?
  {
    if k > 0 {
      ConfirmedIsRecorded(env, run, k - 1);
      AppendAt(env, run, k - 1);
    }
  }

  // ---------------------------------------------------------------- limits that are never raised

  /** A call that puts the log under a backup limit. */
  predicate SetsLimit(call: Call) {
    call.OpenCall? && Allowed(call.limit, call.maxBytes) && call.limit.Some?
  }

  /** Among the first `k` calls no limit is larger than an earlier one. */
  predicate NeverRaised(calls: seq<Call>, k: nat)
    requires k <= |calls|
  {
    forall i, j | 0 <= i < j < k && SetsLimit(calls[i]) && SetsLimit(calls[j]) :: calls[j].limit.value <= calls[i].limit.value
  }

  /** Every limit among the first `k` calls reaches at least to an index. */
  predicate AllReach(calls: seq<Call>, k: nat, n: nat)
    requires k <= |calls|
  {
    forall i | 0 <= i < k && SetsLimit(calls[i]) :: n <= calls[i].limit.value
  }

  lemma LimitAt(env: Env, run: Run, k: nat)
    requires IsRun(env, run) && k < |run.calls|
    ensures var call := run.calls[k];
            run.logs[k + 1].limit ==
              if call.OpenCall? && Allowed(call.limit, call.maxBytes) then call.limit else run.logs[k].limit
  {
    assert StepAt(env, run, k);
  }

  lemma {:induction false} CurrentLimit(env: Env, run: Run, k: nat, n: nat)
    requires IsLife(env, run) && k <= |run.calls|
    ensures AllReach(run.calls, k, n) ==> Within(n, run.logs[k].limit)
    ensures NeverRaised(run.calls, k) && run.logs[k].limit == Some(n) ==> AllReach(run.calls, k, n)
  {
    if k > 0 {
      CurrentLimit(env, run, k - 1, n);
      LimitAt(env, run, k - 1);
    }
  }

  lemma StepGuards(env: Env, log: Log, call: Call, n: nat)
    requires LogOk(env, log) && Within(n, log.limit) && IsWhole(log, n) && IsAhead(log.files, n)
    ensures var next := Step(env, log, call);
            IsWhole(next, n) && IsAhead(next.files, n)
  {
    match call
    case OpenCall(_, _) =>
    case WriteCall(body, ops) =>
      WriteKeepsWhole(env, log, body, ops, n);
      AnchorMovesForward(env, log, body, ops, n);
    case ReadCall(ops) => ReadKeeps(env, log, ops);
  }

  lemma GuardAt(env: Env, run: Run, k: nat, n: nat)
    requires IsRun(env, run) && k < |run.calls| && LogOk(env, run.logs[k])
    requires Within(n, run.logs[k].limit) && IsWhole(run.logs[k], n) && IsAhead(run.logs[k].files, n)
    ensures IsWhole(run.logs[k + 1], n) && IsAhead(run.logs[k + 1].files, n)
  {
    assert StepAt(env, run, k);
    StepGuards(env, run.logs[k], run.calls[k], n);
  }

  /** Below every limit so far nothing is missing, and nothing is before the anchor. */
  lemma {:induction false} LifeGuards(env: Env, run: Run, k: nat, n: nat)
    requires IsLife(env, run) && k <= |run.calls| && AllReach(run.calls, k, n)
    ensures IsWhole(run.logs[k], n) && IsAhead(run.logs[k].files, n)
  {
    if k == 0 {
      OlderOfNone(n);
    } else {
      LifeGuards(env, run, k - 1, n);
      LifeKeeps(env, run, k - 1);
      CurrentLimit(env, run, k - 1, n);
      GuardAt(env, run, k - 1, n);
    }
  }

  /** The first write is through exactly when the state file is there. */
  lemma FirstWriteRecords(env: Env, log: Log, body: Body, ops: nat)
    requires LogOk(env, log) && log.files.state.None?
    ensures WriteStep(env, log, body, ops).files.state.Some? ==> !Lost(log) && ops >= 3
  {
    if !Lost(log) {
      WriteUnfolds(env, log, body, ops);
    }
  }

  lemma ReadsOn(env: Env, log: Log, body: Body, ops: nat)
    requires LogOk(env, log) && log.files.state.Some? && CanRead(log)
    requires log.limit.Some? ==> IsWhole(log, log.limit.value - 1)
    ensures ReadsAfter(env, log, body, ops)
  {
  }

  lemma WriteReads(env: Env, log: Log, body: Body, ops: nat)
    requires LogOk(env, log) && (log.files.state.Some? ==> CanRead(log))
    requires log.limit.Some? ==> IsWhole(log, log.limit.value - 1)
    ensures var next := WriteStep(env, log, body, ops);
            next.files.state.Some? ==> CanRead(next)
  {
    if log.files.state.None? {
      FirstWriteRecords(env, log, body, ops);
      if !Lost(log) {
        FirstWriteKeeps(env, log, body, ops);
      }
    } else {
      ReadsOn(env, log, body, ops);
      WriteKeeps(env, log, body, ops);
    }
  }

  /** A log with a state file stays readable when nothing is missing below its limit. */
  lemma StepReads(env: Env, log: Log, call: Call)
    requires LogOk(env, log) && (log.files.state.Some? ==> CanRead(log))
    requires log.limit.Some? ==> IsWhole(log, log.limit.value - 1)
    ensures var next := Step(env, log, call);
            next.files.state.Some? ==> CanRead(next)
  {
    match call
    case OpenCall(_, _) =>
    case WriteCall(body, ops) => WriteReads(env, log, body, ops);
    case ReadCall(ops) => ReadKeeps(env, log, ops);
  }

  lemma ReadableAt(env: Env, run: Run, k: nat)
    requires IsRun(env, run) && k < |run.calls| && LogOk(env, run.logs[k])
    requires run.logs[k].files.state.Some? ==> CanRead(run.logs[k])
    requires run.logs[k].limit.Some? ==> IsWhole(run.logs[k], run.logs[k].limit.value - 1)
    ensures run.logs[k + 1].files.state.Some? ==> CanRead(run.logs[k + 1])
  {
    assert StepAt(env, run, k);
    StepReads(env, run.logs[k], run.calls[k]);
  }

  lemma LimitIsWhole(env: Env, run: Run, k: nat)
    requires IsLife(env, run) && k <= |run.calls| && NeverRaised(run.calls, k) && run.logs[k].limit.Some?
    ensures var n := run.logs[k].limit.value;
            n >= 1 && IsWhole(run.logs[k], n - 1) && IsAhead(run.logs[k].files, n)
  {
    var n := run.logs[k].limit.value;
    LifeKeeps(env, run, k);
    CurrentLimit(env, run, k, n);
    LifeGuards(env, run, k, n);
    WholeBelow(run.logs[k], n - 1, n);
  }

  /** As long as no limit is larger than an earlier one, a log with a state file can always be read. */
  lemma {:induction false} LoweredLimitsRead(env: Env, run: Run, k: nat)
    requires IsLife(env, run) && k <= |run.calls| && NeverRaised(run.calls, k)
    ensures run.logs[k].files.state.Some? ==> CanRead(run.logs[k])
  {
    if k > 0 {
      LoweredLimitsRead(env, run, k - 1);
      LifeKeeps(env, run, k - 1);
      if run.logs[k - 1].limit.Some? {
        LimitIsWhole(env, run, k - 1);
      }
      ReadableAt(env, run, k - 1);
    }
  }

  lemma ForwardAt(env: Env, run: Run, k: nat, n: nat)
    requires IsRun(env, run) && k < |run.calls| && LogOk(env, run.logs[k]) && run.logs[k].files.state.Some?
    requires (run.logs[k].limit.None? || run.logs[k].limit == Some(n)) && IsAhead(run.logs[k].files, n)
    ensures run.logs[k + 1].files.state.Some?
    ensures run.logs[k + 1].files.state.value.first >= run.logs[k].files.state.value.first
  {
    assert StepAt(env, run, k);
    var log := run.logs[k];
    match run.calls[k]
    case OpenCall(_, _) =>
    case WriteCall(body, ops) => AnchorMovesForward(env, log, body, ops, n);
    case ReadCall(ops) => ReadKeeps(env, log, ops);
  }

  /** And its anchor only moves forward. */
  lemma LoweredLimitsMoveForward(env: Env, run: Run, k: nat)
    requires IsLife(env, run) && k < |run.calls| && NeverRaised(run.calls, k) && run.logs[k].files.state.Some?
    ensures run.logs[k + 1].files.state.Some?
    ensures run.logs[k + 1].files.state.value.first >= run.logs[k].files.state.value.first
  {
    LifeKeeps(env, run, k);
    if run.logs[k].limit.Some? {
      LimitIsWhole(env, run, k);
      ForwardAt(env, run, k, run.logs[k].limit.value);
    } else {
      LifeGuards(env, run, k, 0);
      ForwardAt(env, run, k, 0);
    }
  }

  // ---------------------------------------------------------------- lives without a crash

  /** None of the first `k` calls crashed. */
  predicate Uncrashed(run: Run, k: nat)
    requires Fits(run) && k <= |run.calls|
  {
    forall i | 0 <= i < k :: run.replies[i] != Wrote(WriteCrashed)
  }

  lemma SurvivorStaysGapless(env: Env, log: Log, body: Body, ops: nat)
    requires LogOk(env, log) && Gapless(log) && CanRead(log) && WriteAnswer(env, log, body, ops).Written?
    ensures CanRead(WriteStep(env, log, body, ops))
  {
    if log.limit.Some? {
      GaplessIsWhole(log, log.limit.value - 1);
    }
    WrittenReadsIff(env, log, body, ops);
  }

  lemma GaplessAt(env: Env, run: Run, k: nat)
    requires IsRun(env, run) && k < |run.calls| && run.replies[k] != Wrote(WriteCrashed)
    requires LogOk(env, run.logs[k]) && Gapless(run.logs[k]) && CanRead(run.logs[k])
    ensures Gapless(run.logs[k + 1]) && CanRead(run.logs[k + 1])
  {
    assert StepAt(env, run, k);
    var log := run.logs[k];
    match run.calls[k]
    case OpenCall(_, _) =>
    case WriteCall(body, ops) =>
      WriteKeepsGapless(env, log, body, ops);
      SurvivorStaysGapless(env, log, body, ops);
    case ReadCall(ops) => ReadKeeps(env, log, ops);
  }

  /** Without a crash the limits may change freely: the log can always be read. */
  lemma {:induction false} UncrashedReads(env: Env, run: Run, k: nat)
    requires IsLife(env, run) && k <= |run.calls| && Uncrashed(run, k)
    ensures Gapless(run.logs[k]) && CanRead(run.logs[k])
  {
    if k == 0 {
      EmptyIsOk(env);
    } else {
      UncrashedReads(env, run, k - 1);
      LifeKeeps(env, run, k - 1);
      GaplessAt(env, run, k - 1);
    }
  }

  // ---------------------------------------------------------------- reading back

  /** Whenever limits were never raised or no write crashed, the log reads back: every append from the
      anchor on.  The one exception is a first write that never got to its state file. */
  lemma ReadsBack(env: Env, run: Run, k: nat)
    requires IsLife(env, run) && k <= |run.calls| && (NeverRaised(run.calls, k) || Uncrashed(run, k))
    ensures var log := run.logs[k];
            CanRead(log) || (Orphaned(log.files) && Confirmed(run, k) == [] && |log.all| <= 1)
  {
    if Uncrashed(run, k) {
      UncrashedReads(env, run, k);
    } else {
      LoweredLimitsRead(env, run, k);
      LifeKeeps(env, run, k);
      ConfirmedIsRecorded(env, run, k);
    }
  }

  lemma FirstAt(env: Env, run: Run, k: nat)
    requires IsRun(env, run) && k < |run.calls| && LogOk(env, run.logs[k]) && run.logs[k].limit.None?
    requires run.logs[k].files.state.Some? ==> run.logs[k].files.state.value.first == 0
    requires IsAhead(run.logs[k].files, 0)
    ensures run.logs[k + 1].files.state.Some? ==> run.logs[k + 1].files.state.value.first == 0
  {
    assert StepAt(env, run, k);
    var log := run.logs[k];
    match run.calls[k]
    case OpenCall(_, _) =>
    case WriteCall(body, ops) =>
      AnchorMovesForward(env, log, body, ops, 0);
      if log.files.state.None? && !Lost(log) {
        WriteUnfolds(env, log, body, ops);
      }
    case ReadCall(ops) => ReadKeeps(env, log, ops);
  }

  /** A log that never was under a backup limit still starts at its first event. */
  lemma {:induction false} UnlimitedKeepsAll(env: Env, run: Run, k: nat)
    requires IsLife(env, run) && k <= |run.calls| && forall i | 0 <= i < k :: !SetsLimit(run.calls[i])
    ensures run.logs[k].limit.None?
    ensures run.logs[k].files.state.Some? ==> run.logs[k].files.state.value.first == 0
  {
    if k > 0 {
      UnlimitedKeepsAll(env, run, k - 1);
      LifeKeeps(env, run, k - 1);
      LifeGuards(env, run, k - 1, 0);
      LimitAt(env, run, k - 1);
      FirstAt(env, run, k - 1);
    }
  }

  // ---------------------------------------------------------------- the end of a log

  lemma LostAt(env: Env, run: Run, k: nat)
    requires IsRun(env, run) && k < |run.calls| && LogOk(env, run.logs[k]) && Lost(run.logs[k])
    ensures run.logs[k + 1].files == run.logs[k].files && run.logs[k + 1].all == run.logs[k].all
    ensures !run.calls[k].OpenCall? ==> run.replies[k] in {Wrote(WriteRefused), Returned(ReadRefused)}
  {
    assert StepAt(env, run, k);
  }

  /** A lost log stays as it is and refuses every read and write. */
  lemma {:induction false} LostForGood(env: Env, run: Run, k: nat)
    requires IsRun(env, run) && k <= |run.calls| && LogOk(env, run.logs[0]) && Lost(run.logs[0])
    ensures run.logs[k].files == run.logs[0].files && run.logs[k].all == run.logs[0].all
    ensures k > 0 && !run.calls[k - 1].OpenCall? ==> run.replies[k - 1] in {Wrote(WriteRefused), Returned(ReadRefused)}
  {
    if k > 0 {
      LostForGood(env, run, k - 1);
      RunKeeps(env, run, k - 1);
      LostAt(env, run, k - 1);
    }
  }

  // ---------------------------------------------------------------- mending

  /** The first `k` calls are writes that succeed. */
  predicate AllSucceed(run: Run, k: nat)
    requires Fits(run) && k <= |run.calls|
  {
    forall i | 0 <= i < k :: run.calls[i].WriteCall? && run.replies[i] == Wrote(Written)
  }

  /** How many of the first `k` calls rotate. */
  function Rotations(env: Env, run: Run, k: nat): nat
    requires Fits(run) && k <= |run.calls|
  {
    if k == 0 then 0
    else
      Rotations(env, run, k - 1)
      + if run.calls[k - 1].WriteCall? && Rotates(env, run.logs[k - 1], run.calls[k - 1].body) then 1 else 0
  }

  function Min(a: nat, b: nat): nat {
    if a < b then a else b
  }

  /** What is whole after a number of rotations under a limit. */
  ghost predicate Mended(log: Log, n: nat, r: nat) {
    IsWhole(log, Min(r, n)) && (r >= n ==> CanRead(log))
  }

  lemma RotationReads(env: Env, log: Log, body: Body, ops: nat, n: nat, m: nat, next: Log)
    requires LogOk(env, log) && log.limit == Some(n) && Rotates(env, log, body) && n <= m + 1 && IsWhole(log, m)
    requires WriteAnswer(env, log, body, ops).Written? && next == WriteStep(env, log, body, ops)
    ensures CanRead(next)
  {
    WholeBelow(log, n - 1, m);
    RotationDecides(env, log, body, ops, n, next);
  }

  lemma RotationMends(env: Env, log: Log, body: Body, ops: nat, n: nat, r: nat)
    requires LogOk(env, log) && log.limit == Some(n) && WriteAnswer(env, log, body, ops).Written?
    requires Rotates(env, log, body) && Mended(log, n, r)
    ensures Mended(WriteStep(env, log, body, ops), n, r + 1)
  {
    var next := WriteStep(env, log, body, ops);
    if r < n {
      RotationLifts(env, log, body, ops, r);
    } else {
      WriteKeepsWhole(env, log, body, ops, n);
    }
    if r + 1 >= n {
      RotationReads(env, log, body, ops, n, Min(r, n), next);
    }
  }

  lemma PlainWriteMends(env: Env, log: Log, body: Body, ops: nat, n: nat, r: nat)
    requires LogOk(env, log) && log.limit == Some(n) && WriteAnswer(env, log, body, ops).Written?
    requires !Rotates(env, log, body) && Mended(log, n, r)
    ensures Mended(WriteStep(env, log, body, ops), n, r)
  {
    WriteKeepsWhole(env, log, body, ops, Min(r, n));
    if r >= n {
      WrittenReadsIff(env, log, body, ops);
    }
  }

  lemma MendAt(env: Env, run: Run, k: nat, n: nat, r: nat)
    requires IsRun(env, run) && k < |run.calls| && run.calls[k].WriteCall? && run.replies[k] == Wrote(Written)
    requires LogOk(env, run.logs[k]) && run.logs[k].limit == Some(n) && Mended(run.logs[k], n, r)
    ensures Mended(run.logs[k + 1], n, if Rotates(env, run.logs[k], run.calls[k].body) then r + 1 else r)
  {
    assert StepAt(env, run, k);
    var log, call := run.logs[k], run.calls[k];
    if Rotates(env, log, call.body) {
      RotationMends(env, log, call.body, call.ops, n, r);
    } else {
      PlainWriteMends(env, log, call.body, call.ops, n, r);
    }
  }

  lemma OneMoreMends(env: Env, run: Run, k: nat, n: nat)
    requires IsRun(env, run) && k < |run.calls| && run.calls[k].WriteCall? && run.replies[k] == Wrote(Written)
    requires LogOk(env, run.logs[k]) && run.logs[k].limit == Some(n) && Mended(run.logs[k], n, Rotations(env, run, k))
    ensures run.logs[k + 1].limit == Some(n) && Mended(run.logs[k + 1], n, Rotations(env, run, k + 1))
  {
    LimitAt(env, run, k);
    MendAt(env, run, k, n, Rotations(env, run, k));
  }

  /** A log that can be worked on can be read again after as many rotations as its limit allows backups,
      whatever is missing at first. */
  lemma {:induction false} RotationsMend(env: Env, run: Run, k: nat, n: nat)
    requires IsRun(env, run) && k <= |run.calls| && AllSucceed(run, k)
    requires LogOk(env, run.logs[0]) && run.logs[0].limit == Some(n)
    ensures run.logs[k].limit == Some(n) && Mended(run.logs[k], n, Rotations(env, run, k))
  {
    if k == 0 {
      ActiveIsWhole(env, run.logs[0]);
    } else {
      RotationsMend(env, run, k - 1, n);
      RunKeeps(env, run, k - 1);
      OneMoreMends(env, run, k - 1, n);
    }
  }

  lemma ActiveIsWhole(env: Env, log: Log)
    requires LogOk(env, log)
    ensures IsWhole(log, 0)
  {
  }
}
