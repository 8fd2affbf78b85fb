/** Failed checkpoints, and how the multi-worker copy reports them. */
module CopyHalts {
  import opened BlockGraph
  import opened FailureTracker
  import opened Ledger
  import opened CopyProtocol
  import opened CopyControl
  import opened CopyProgress
  import opened CopyTheorem

  /** The step is the store's answer that the checkpoint has failed with this message. */
  predicate Halts(s: State, e: Event, m: string) {
    && e.Write? && e.writer < |s.writers| && s.writers[e.writer] == Checkpointing
    && e.answer == CheckpointError(m)
  }

  ghost function TimesHalted(env: Env, s: State, events: seq<Event>, m: string): nat
    requires IsRun(env, s, events)
    decreases |events|
  {
    if events == [] then 0
    else (if Halts(s, events[0], m) then 1 else 0) + TimesHalted(env, Apply(env, s, events[0]), events[1..], m)
  }

  /** Writers that have the answer and have not reported it yet. */
  function Unreported(s: State, m: string): nat { multiset(s.writers)[ReportingFailure(m)] }

  predicate OfCheckpoint(f: CopyFailure) {
    f.subject == DestinationStore && f.template.operation == CompactDestinationStore
  }

  /** A writer's step either brings such an answer, or turns it into store failures, or
      changes neither. */
  lemma WriterReports(env: Env, s: State, w: nat, answer: WriteAnswer, f: CopyFailure)
    requires EndCtl(s) && CanWrite(env, s, w, answer)
    ensures var s', m := WriteStep(env, s, w, answer), f.template.message;
      var reported := s.writers[w] == ReportingFailure(m);
      && Unreported(s', m) + (if reported then 1 else 0)
           == Unreported(s, m) + (if Halts(s, Write(w, answer), m) then 1 else 0)
      && s'.ledger.log.store[f]
           == s.ledger.log.store[f] + if reported && OfCheckpoint(f) then multiset(env.roots)[f.root] else 0
  {
    var s' := WriteStep(env, s, w, answer);
    WriteShiftsOne(env, s, w, answer);
    WriteTraces(env, s, w, answer);
    WriterMoves(env, s, w, answer, f.template.message);
    if s.writers[w].ReportingFailure? {
      FailureOfEachRoot(env.roots, Template(CompactDestinationStore, s.writers[w].message), f);
    }
    hide WriteStep, EndCtl, CanWrite, StoreFailures;
  }

  lemma WriterMoves(env: Env, s: State, w: nat, answer: WriteAnswer, m: string)
    requires CanWrite(env, s, w, answer) && w < |WriteStep(env, s, w, answer).writers|
    ensures WriteStep(env, s, w, answer).writers[w] == ReportingFailure(m) <==> Halts(s, Write(w, answer), m)
  {
  }

  /** The answers whose failures are still to be reported, times the failures each makes. */
  function Owed(answers: nat, failures: nat): nat { answers * failures }

  lemma OwedAdds(answers: nat, more: nat, failures: nat)
    ensures Owed(answers + more, failures) == Owed(answers, failures) + Owed(more, failures)
    ensures Owed(0, failures) == 0 && Owed(1, failures) == failures
  {
  }

  function Share(roots: seq<BlockId>, f: CopyFailure): nat {
    if OfCheckpoint(f) then multiset(roots)[f.root] else 0
  }

  lemma StepReports(env: Env, s: State, e: Event, f: CopyFailure)
    requires EndCtl(s) && Enabled(env, s, e)
    ensures var s', m := Apply(env, s, e), f.template.message;
      s'.ledger.log.store[f] + Owed(Unreported(s', m), Share(env.roots, f))
        == s.ledger.log.store[f] + Owed(Unreported(s, m) + if Halts(s, e, m) then 1 else 0, Share(env.roots, f))
  {
    hide TraverseStep, WriteStep, CanTraverse, CanWrite, EndCtl, Owed;
    match e
    case Traverse(i, sawStop, check) => TraverseTraces(env, s, i, sawStop, check);
    case Write(w, answer) =>
      WriterReports(env, s, w, answer, f);
      hide Unreported, Halts, OfCheckpoint;
      OwedAdds(Unreported(s, f.template.message), 1, Share(env.roots, f));
      OwedAdds(Unreported(Apply(env, s, e), f.template.message), 1, Share(env.roots, f));
    case _ => DiscardFrame(s.ledger, s.write.queue);
  }

  lemma {:induction false} RunReports(env: Env, s: State, events: seq<Event>, f: CopyFailure)
    requires Control(env, s) && IsRun(env, s, events)
    ensures var end, m := RunEnd(env, s, events), f.template.message;
      end.ledger.log.store[f] + Owed(Unreported(end, m), Share(env.roots, f))
        == s.ledger.log.store[f] + Owed(Unreported(s, m) + TimesHalted(env, s, events, m), Share(env.roots, f))
    decreases |events|
  {
    hide Halts, Unreported, Owed, Share, Enabled, Apply, WorkCtl, WriteCtl, Shapes, EndCtl;
    if events != [] {
      StepReports(env, s, events[0], f);
      StepKeepsControl(env, s, events[0]);
      RunReports(env, Apply(env, s, events[0]), events[1..], f);
      var m, k := f.template.message, Share(env.roots, f);
      var now, later := if Halts(s, events[0], m) then 1 else 0, Apply(env, s, events[0]);
      var rest := TimesHalted(env, later, events[1..], m);
      OwedAdds(Unreported(s, m), now, k);
      OwedAdds(Unreported(s, m) + now, rest, k);
      OwedAdds(Unreported(later, m), rest, k);
    }
  }

  lemma NothingUnreported(env: Env, workerCount: nat, end: State, m: string)
    requires Final(end)
    ensures Unreported(end, m) == 0
    ensures Unreported(Initial(env, workerCount), m) == 0
    ensures Initial(env, workerCount).ledger.log.store == multiset{}
  {
  }

  /** At the end of every run, stopped or not, the store as a whole is reported once for each
      requested root for each checkpoint that failed, with its message, and not otherwise. */
  lemma CheckpointFailuresAreReported(env: Env, workerCount: nat, events: seq<Event>,
                                      failures: multiset<CopyFailure>, f: CopyFailure)
    requires WellConfigured(env) && workerCount >= 1 && IsRun(env, Initial(env, workerCount), events)
    requires var end := RunEnd(env, Initial(env, workerCount), events);
      Final(end) && Explains(end.ledger.log, failures)
    requires f.subject == DestinationStore
    ensures failures[f] ==
      if f.template.operation == CompactDestinationStore
      then TimesHalted(env, Initial(env, workerCount), events, f.template.message) * multiset(env.roots)[f.root]
      else 0
  {
    hide Control, Initial, Final, RunEnd, IsRun, TimesHalted, Unreported;
    InitialControl(env, workerCount);
    RunReports(env, Initial(env, workerCount), events, f);
    var start, end := Initial(env, workerCount), RunEnd(env, Initial(env, workerCount), events);
    NothingUnreported(env, workerCount, end, f.template.message);
    assert failures[f] == ExpectedCount(end.ledger.log, f);
  }
}
