/** Conservation, order and termination of the telemetry recorder, over every interleaving of requests,
    worker and shutdown. */
module TelemetryTheorems {
  import opened Counting
  import opened Telemetry

  // ----- Conservation and order -----

  /** The job the worker holds, if any. */
  function InHand(w: Worker): (js: seq<Job>)
    ensures |js| <= 1
  {
    if w.Writing? || w.BackingOff? then [w.job] else []
  }

  function OfKind(k: Kind): Job -> bool
  {
    (j: Job) => j.kind == k
  }

  /** The finished jobs with a given fate that satisfy p. */
  function With(fate: Fate, p: Job -> bool): Done -> bool
  {
    (d: Done) => d.fate == fate && p(d.job)
  }

  predicate SaneDone(d: Done)
  {
    && 1 <= d.attempts <= MAX_ATTEMPTS
    && (d.fate.Dropped? ==> d.attempts == MAX_ATTEMPTS)
    && (d.fate.Abandoned? ==> d.attempts < MAX_ATTEMPTS)
  }

  predicate SaneWorker(s: State)
  {
    && (s.worker.Writing? ==> 1 <= s.worker.attempt <= MAX_ATTEMPTS)
    && (s.worker.BackingOff? ==> 1 <= s.worker.attempt < MAX_ATTEMPTS)
    && (s.worker.Draining? || s.worker.Rechecking? || s.worker.Exited? ==> s.cancelled)
    && ((s.worker.Writing? || s.worker.BackingOff?) && s.worker.draining ==> s.cancelled)
    && (s.worker.Absent? ==> s.senders == [] && s.accepted == [] && !s.cancelled)
  }

  /** Each drop counter is that kind's refusals plus its drops after retries. */
  predicate ExactDrops(s: State)
  {
    && s.drops.usage == Count(s.refused, OfKind(Usage)) + Count(s.done, With(Dropped, OfKind(Usage)))
    && s.drops.requestLog == Count(s.refused, OfKind(RequestLog)) + Count(s.done, With(Dropped, OfKind(RequestLog)))
  }

  /** The jobs that entered the queue are, in order, those finished, the one in hand and those waiting. */
  predicate Fifo(s: State)
  {
    s.accepted == Jobs(s.done) + InHand(s.worker) + s.queue
  }

  predicate SaneHistory(s: State)
  {
    && (forall i :: 0 <= i < |s.done| ==> SaneDone(s.done[i]))
    && (!s.cancelled ==> forall i :: 0 <= i < |s.done| ==> !s.done[i].fate.Abandoned?)
  }

  /** The invariant of every reachable state; p is any property of jobs, such as being of one kind. */
  ghost predicate Conserved(s: State, p: Job -> bool)
  {
    && Fifo(s)
    && |s.queue| <= s.capacity
    && Count(s.submitted, p) == Count(s.accepted, p) + Count(s.refused, p) + Count(s.senders, p)
    && ExactDrops(s)
    && SaneHistory(s)
    && SaneWorker(s)
  }

  lemma FinishKeepsDrops(s: State, fate: Fate)
    requires ExactDrops(s) && (s.worker.Writing? || s.worker.BackingOff?)
    ensures ExactDrops(Finish(s, fate))
  {
    var d := Done(s.worker.job, fate, s.worker.attempt);
    CountAppend(s.done, d, With(Dropped, OfKind(Usage)));
    CountAppend(s.done, d, With(Dropped, OfKind(RequestLog)));
  }

  lemma FinishKeepsFifo(s: State, fate: Fate)
    requires Fifo(s) && (s.worker.Writing? || s.worker.BackingOff?)
    ensures Fifo(Finish(s, fate))
  {
    var d := Done(s.worker.job, fate, s.worker.attempt);
    JobsAppend(s.done, d);
    Moved(Jobs(s.done), [d.job], s.queue);
  }

  lemma FinishKeepsHistory(s: State, fate: Fate)
    requires SaneHistory(s) && SaneWorker(s) && (s.worker.Writing? || s.worker.BackingOff?)
    requires fate.Dropped? ==> s.worker.attempt == MAX_ATTEMPTS
    requires fate.Abandoned? ==> s.cancelled && s.worker.BackingOff?
    ensures SaneHistory(Finish(s, fate))
  {
  }

  /** What was between two sequences now ends the first, or begins the second. */
  lemma Moved<T>(a: seq<T>, b: seq<T>, c: seq<T>)
    ensures a + b + c == (a + b) + [] + c == a + [] + (b + c)
  {
  }

  lemma RefusalKeepsDrops(s: State, t: State, j: Job)
    requires ExactDrops(s) && t.refused == s.refused + [j] && t.drops == s.drops.Bump(j.kind) && t.done == s.done
    ensures ExactDrops(t)
  {
    CountAppend(s.refused, j, OfKind(Usage));
    CountAppend(s.refused, j, OfKind(RequestLog));
  }

  lemma FinishKeepsConserved(s: State, fate: Fate, p: Job -> bool)
    requires Conserved(s, p) && (s.worker.Writing? || s.worker.BackingOff?)
    requires fate.Dropped? ==> s.worker.attempt == MAX_ATTEMPTS
    requires fate.Abandoned? ==> s.cancelled && s.worker.BackingOff?
    ensures Conserved(Finish(s, fate), p)
  {
    FinishKeepsFifo(s, fate);
    FinishKeepsDrops(s, fate);
    FinishKeepsHistory(s, fate);
  }

  lemma SubmitKeepsConserved(s: State, e: Event, p: Job -> bool)
    requires Conserved(s, p) && e.Submit?
    ensures Conserved(Step(s, e), p)
  {
    CountAppend(s.submitted, e.job, p);
    CountAppend(s.senders, e.job, p);
    if s.worker.Absent? || s.cancelled {
      CountAppend(s.refused, e.job, p);
      RefusalKeepsDrops(s, Step(s, e), e.job);
    }
  }

  lemma SendKeepsConserved(s: State, e: Event, p: Job -> bool)
    requires Conserved(s, p) && e.Send? && CanStep(s, e)
    ensures Conserved(Step(s, e), p)
  {
    var j := s.senders[e.i];
    CountRemove(s.senders, e.i, p);
    if |s.queue| < s.capacity {
      CountAppend(s.accepted, j, p);
      Associate(Jobs(s.done) + InHand(s.worker), s.queue, [j]);
    } else {
      CountAppend(s.refused, j, p);
      RefusalKeepsDrops(s, Step(s, e), j);
    }
  }

  lemma WriteKeepsConserved(s: State, e: Event, p: Job -> bool)
    requires Conserved(s, p) && e.Write? && CanStep(s, e)
    ensures Conserved(Step(s, e), p)
  {
    if e.ok {
      FinishKeepsConserved(s, Written, p);
    } else if s.worker.attempt == 3 {
      FinishKeepsConserved(s, Dropped, p);
    }
  }

  lemma TakeKeepsConserved(s: State, p: Job -> bool)
    requires Conserved(s, p) && CanStep(s, Take)
    ensures Conserved(Step(s, Take), p)
  {
    assert s.queue == [s.queue[0]] + s.queue[1..];
    Moved(Jobs(s.done), [s.queue[0]], s.queue[1..]);
  }

  /** The steps that move the worker without touching a job. */
  lemma MoveKeepsConserved(s: State, e: Event, p: Job -> bool)
    requires Conserved(s, p) && CanStep(s, e)
    requires !e.Submit? && !e.Send? && !e.Write? && !e.Abandon? && !e.Take?
    ensures Conserved(Step(s, e), p)
  {
  }

  lemma StepKeepsConserved(s: State, e: Event, p: Job -> bool)
    requires Conserved(s, p) && CanStep(s, e)
    ensures Conserved(Step(s, e), p)
  {
    if e.Submit? {
      SubmitKeepsConserved(s, e, p);
    } else if e.Send? {
      SendKeepsConserved(s, e, p);
    } else if e.Write? {
      WriteKeepsConserved(s, e, p);
    } else if e.Abandon? {
      FinishKeepsConserved(s, Abandoned, p);
    } else if e.Take? {
      TakeKeepsConserved(s, p);
    } else {
      MoveKeepsConserved(s, e, p);
    }
  }

  lemma {:induction false} RunKeepsConserved(s: State, es: seq<Event>, p: Job -> bool)
    requires Conserved(s, p) && Runs(s, es)
    ensures Conserved(Exec(s, es), p)
    decreases es
  {
    if es != [] {
      StepKeepsConserved(s, es[0], p);
      RunKeepsConserved(Step(s, es[0]), es[1..], p);
    }
  }

  lemma Reachable(bufferSize: int, es: seq<Event>, p: Job -> bool)
    requires Runs(Init(bufferSize), es)
    ensures Conserved(Exec(Init(bufferSize), es), p)
  {
    RunKeepsConserved(Init(bufferSize), es, p);
  }

  /** FIFO: in every reachable state the jobs that entered the queue are, in order, those finished, the one
      in the worker's hands, and those waiting; the queue never exceeds its capacity. */
  lemma AcceptedIsFifo(bufferSize: int, es: seq<Event>)
    requires Runs(Init(bufferSize), es)
    ensures var s := Exec(Init(bufferSize), es);
            && s.accepted == Jobs(s.done) + InHand(s.worker) + s.queue
            && |s.queue| <= s.capacity
            && forall i :: 0 <= i < |s.done| ==>
                 && 1 <= s.done[i].attempts <= 3
                 && (s.done[i].fate.Dropped? ==> s.done[i].attempts == 3)
                 && (s.done[i].fate.Abandoned? ==> s.done[i].attempts < 3)
  {
    Reachable(bufferSize, es, OfKind(Usage));
  }

  lemma {:induction false} CountJobs(ds: seq<Done>, p: Job -> bool)
    ensures Count(Jobs(ds), p) == Count(ds, With(Written, p)) + Count(ds, With(Dropped, p)) + Count(ds, With(Abandoned, p))
  {
    if ds != [] {
      var n := |ds| - 1;
      CountJobs(ds[..n], p);
      CountAppend(Jobs(ds[..n]), ds[n].job, p);
    }
  }

  /** Nothing is lost or counted twice: of any class of jobs, those submitted are exactly those written,
      dropped after three attempts, refused by enqueue, abandoned in a backoff, and still pending; and
      nothing is abandoned before the cancellation. */
  lemma JobsAreConserved(bufferSize: int, es: seq<Event>, p: Job -> bool)
    requires Runs(Init(bufferSize), es)
    ensures var s := Exec(Init(bufferSize), es);
            var pending := Count(s.senders, p) + Count(s.queue, p) + Count(InHand(s.worker), p);
            var dropped := Count(s.refused, p) + Count(s.done, With(Dropped, p));
            && Count(s.submitted, p) == Count(s.done, With(Written, p)) + dropped + Count(s.done, With(Abandoned, p)) + pending
            && (!s.cancelled ==> Count(s.done, With(Abandoned, p)) == 0)
  {
    Reachable(bufferSize, es, p);
    var s := Exec(Init(bufferSize), es);
    CountConcat(Jobs(s.done) + InHand(s.worker), s.queue, p);
    CountConcat(Jobs(s.done), InHand(s.worker), p);
    CountJobs(s.done, p);
    if !s.cancelled {
      CountNone(s.done, With(Abandoned, p));
    }
  }

  /** The dropped-writes counter of each kind is the number of that kind's jobs refused by enqueue plus
      the number given up after three attempts; abandoned jobs are in no counter. */
  lemma DropCountersAreExact(bufferSize: int, es: seq<Event>, k: Kind)
    requires Runs(Init(bufferSize), es)
    ensures var s := Exec(Init(bufferSize), es);
            s.drops.Of(k) == Count(s.refused, OfKind(k)) + Count(s.done, With(Dropped, OfKind(k)))
  {
    Reachable(bufferSize, es, OfKind(k));
  }

  // ----- Written jobs keep the order of acceptance -----

  /** The written jobs, in the order they were written. */
  function WrittenJobs(ds: seq<Done>): seq<Job>
  {
    if ds == [] then []
    else if ds[|ds| - 1].fate.Written? then WrittenJobs(ds[..|ds| - 1]) + [ds[|ds| - 1].job]
    else WrittenJobs(ds[..|ds| - 1])
  }

  /** at embeds xs into ys: strictly increasing positions that carry the same elements. */
  predicate Embeds(xs: seq<Job>, ys: seq<Job>, at: seq<nat>)
  {
    && |at| == |xs|
    && (forall i :: 0 <= i < |at| ==> at[i] < |ys| && ys[at[i]] == xs[i])
    && (forall i, j :: 0 <= i < j < |at| ==> at[i] < at[j])
  }

  lemma EmbedsMore(xs: seq<Job>, ys: seq<Job>, at: seq<nat>, y: Job)
    requires Embeds(xs, ys, at)
    ensures Embeds(xs, ys + [y], at)
    ensures Embeds(xs + [y], ys + [y], at + [|ys|])
  {
  }

  lemma {:induction false} WrittenEmbeds(ds: seq<Done>) returns (at: seq<nat>)
    ensures Embeds(WrittenJobs(ds), Jobs(ds), at)
  {
    if ds == [] {
      at := [];
    } else {
      var n := |ds| - 1;
      at := WrittenEmbeds(ds[..n]);
      EmbedsMore(WrittenJobs(ds[..n]), Jobs(ds[..n]), at, ds[n].job);
      if ds[n].fate.Written? {
        at := at + [n];
      }
    }
  }

  /** The written jobs are a subsequence of those the queue accepted. */
  lemma WrittenKeepsOrder(bufferSize: int, es: seq<Event>)
    requires Runs(Init(bufferSize), es)
    ensures var s := Exec(Init(bufferSize), es);
            exists at :: Embeds(WrittenJobs(s.done), s.accepted, at)
  {
    AcceptedIsFifo(bufferSize, es);
    var s := Exec(Init(bufferSize), es);
    var at := WrittenEmbeds(s.done);
    assert Embeds(WrittenJobs(s.done), s.accepted, at);
  }

  // ----- Shutdown -----

  function WorkerRank(w: Worker, queueEmpty: bool): nat
  {
    match w
    case Absent => 0
    case Waiting => 3
    case Draining => 2
    case Rechecking => if queueEmpty then 1 else 3
    case Writing(_, attempt, draining) => (if draining then 2 else 3) + (if attempt <= 3 then 2 * (3 - attempt) else 0) + 1
    case BackingOff(_, attempt, draining) => (if draining then 2 else 3) + (if attempt <= 3 then 2 * (3 - attempt) else 0)
    case Exited(_) => 0
  }

  /** What is left to do once cancelled: pending sends, waiting jobs, and the worker's own position. */
  function Remaining(s: State): nat
  {
    10 * |s.senders| + 7 * |s.queue| + WorkerRank(s.worker, s.queue == [])
  }

  /** After the cancellation every step but a refused submission makes progress. */
  lemma ShutdownStepDecreases(s: State, e: Event)
    requires SaneWorker(s) && s.cancelled && CanStep(s, e)
    ensures e.Submit? ==> Remaining(Step(s, e)) == Remaining(s)
    ensures !e.Submit? ==> Remaining(Step(s, e)) < Remaining(s)
  {
  }

  lemma StepKeepsSane(s: State, e: Event)
    requires SaneWorker(s) && CanStep(s, e)
    ensures SaneWorker(Step(s, e)) && (s.cancelled ==> Step(s, e).cancelled)
  {
  }

  function NotSubmission(): Event -> bool
  {
    (e: Event) => !e.Submit?
  }

  /** Shutdown is bounded: however requests and worker interleave after the cancellation, they take at most
      10 steps per pending send, 7 per waiting job and 8 for the worker, refused submissions apart. */
  lemma {:induction false} ShutdownIsBounded(s: State, es: seq<Event>)
    requires SaneWorker(s) && s.cancelled && Runs(s, es)
    ensures Count(es, NotSubmission()) + Remaining(Exec(s, es)) <= Remaining(s)
    ensures Remaining(s) <= 10 * |s.senders| + 7 * |s.queue| + 8
    decreases es
  {
    if es != [] {
      StepKeepsSane(s, es[0]);
      ShutdownStepDecreases(s, es[0]);
      ShutdownIsBounded(Step(s, es[0]), es[1..]);
      CountFirst(es, NotSubmission());
    }
  }

  lemma LateStepAcceptsSendersOnly(s: State, e: Event, p: Job -> bool)
    requires s.cancelled && CanStep(s, e)
    ensures Step(s, e).cancelled
    ensures Count(Step(s, e).accepted, p) + Count(Step(s, e).senders, p) <= Count(s.accepted, p) + Count(s.senders, p)
  {
    if e.Send? {
      CountRemove(s.senders, e.i, p);
      CountAppend(s.accepted, s.senders[e.i], p);
    }
  }

  /** After the cancellation the only jobs, of any class, that can still enter the queue are those whose
      context check preceded it. */
  lemma {:induction false} OnlyEarlierChecksEnter(s: State, es: seq<Event>, p: Job -> bool)
    requires s.cancelled && Runs(s, es)
    ensures Count(Exec(s, es).accepted, p) + Count(Exec(s, es).senders, p) <= Count(s.accepted, p) + Count(s.senders, p)
    decreases es
  {
    if es != [] {
      LateStepAcceptsSendersOnly(s, es[0], p);
      OnlyEarlierChecksEnter(Step(s, es[0]), es[1..], p);
    }
  }

  /** A step that ends the drain by its default branch leaves nothing behind: the queue is empty, and every
      job that ever entered it has been attempted at least once. */
  lemma CleanExitIsComplete(bufferSize: int, es: seq<Event>, e: Event)
    requires Runs(Init(bufferSize), es) && CanStep(Exec(Init(bufferSize), es), e)
    requires var s := Exec(Init(bufferSize), es); !s.worker.Exited? && Step(s, e).worker == Exited(true)
    ensures var s := Step(Exec(Init(bufferSize), es), e);
            && s.queue == [] && Jobs(s.done) == s.accepted
            && forall i :: 0 <= i < |s.done| ==> s.done[i].attempts >= 1
  {
    AcceptedIsFifo(bufferSize, es);
    var s := Exec(Init(bufferSize), es);
    assert e == Recheck;
    assert Jobs(s.done) + [] + [] == Jobs(s.done);
  }

  /** Once the worker has exited, nothing is finished any more and no job leaves the queue. */
  lemma {:induction false} ExitIsFinal(s: State, es: seq<Event>)
    requires s.worker.Exited? && Runs(s, es)
    ensures Exec(s, es).worker == s.worker && Exec(s, es).done == s.done && s.queue <= Exec(s, es).queue
    decreases es
  {
    if es != [] {
      var s' := Step(s, es[0]);
      assert s'.worker == s.worker && s'.done == s.done && s.queue <= s'.queue;
      ExitIsFinal(s', es[1..]);
    }
  }

  // ----- Stranded jobs -----

  /** In this continuation some job that entered the queue is left unprocessed for good. */
  predicate Strands(s: State, more: seq<Event>)
  {
    Runs(s, more) && Exec(s, more).worker.Exited? && Jobs(Exec(s, more).done) != Exec(s, more).accepted
  }

  lemma Prepend(s: State, e: Event, rest: seq<Event>) returns (es: seq<Event>)
    requires CanStep(s, e) && Runs(Step(s, e), rest)
    ensures Runs(s, es) && Exec(s, es) == Exec(Step(s, e), rest)
  {
    es := [e] + rest;
    assert es[1..] == rest;
  }

  lemma {:induction false} RunKeepsCapacity(s: State, es: seq<Event>)
    requires Runs(s, es)
    ensures Exec(s, es).capacity == s.capacity
    decreases es
  {
    if es != [] {
      RunKeepsCapacity(Step(s, es[0]), es[1..]);
    }
  }

  /** Without a sender past its context check, nothing can enter the queue after the cancellation, and a
      clean exit leaves nothing in it. */
  lemma {:induction false} NothingEntersLate(s: State, es: seq<Event>)
    requires Runs(s, es) && s.cancelled && s.senders == []
    requires s.worker == Exited(true) ==> s.queue == []
    ensures Exec(s, es).senders == [] && (Exec(s, es).worker == Exited(true) ==> Exec(s, es).queue == [])
    decreases es
  {
    if es != [] {
      NothingEntersLate(Step(s, es[0]), es[1..]);
    }
  }

  lemma ExitedLeavesQueue(s: State, p: Job -> bool)
    requires Conserved(s, p) && s.worker.Exited?
    ensures Jobs(s.done) == s.accepted <==> s.queue == []
  {
    assert Jobs(s.done) + [] + s.queue == Jobs(s.done) + s.queue;
    assert s.queue == [] ==> Jobs(s.done) + s.queue == Jobs(s.done);
    assert s.queue != [] ==> |s.accepted| > |Jobs(s.done)|;
  }

  lemma {:induction false} ExitedStaysEmpty(s: State, es: seq<Event>)
    requires Runs(s, es) && s.worker.Exited? && s.cancelled && s.senders == [] && s.queue == []
    ensures Exec(s, es).queue == []
    decreases es
  {
    if es != [] {
      ExitedStaysEmpty(Step(s, es[0]), es[1..]);
    }
  }

  /** Exactly when an exit strands a job: once the worker has exited, cleanly or by its deadline, the run can
      go on so that some job is never processed if and only if one is waiting, or a sender is still between
      its context check and its send. */
  lemma StrandedIff(bufferSize: int, es: seq<Event>)
    requires Runs(Init(bufferSize), es) && Exec(Init(bufferSize), es).worker.Exited?
    ensures var s := Exec(Init(bufferSize), es);
            (exists more :: Strands(s, more)) <==> s.queue != [] || s.senders != []
  {
    var s := Exec(Init(bufferSize), es);
    var p := OfKind(Usage);
    Reachable(bufferSize, es, p);
    RunKeepsCapacity(Init(bufferSize), es);
    ExitedLeavesQueue(s, p);
    if s.queue != [] {
      assert Strands(s, []);
    } else if s.senders != [] {
      RunSingle(s, Send(0));
      RunKeepsConserved(s, [Send(0)], p);
      ExitedLeavesQueue(Step(s, Send(0)), p);
      assert Strands(s, [Send(0)]);
    } else if more :| Strands(s, more) {
      ExitedStaysEmpty(s, more);
      RunKeepsConserved(s, more, p);
      ExitedLeavesQueue(Exec(s, more), p);
      assert false;
    }
  }

  /** At the moment of a clean exit, that is exactly when a sender is between its check and its send. */
  lemma CleanExitStrandsIff(bufferSize: int, es: seq<Event>, e: Event)
    requires Runs(Init(bufferSize), es) && CanStep(Exec(Init(bufferSize), es), e)
    requires var s := Exec(Init(bufferSize), es); !s.worker.Exited? && Step(s, e).worker == Exited(true)
    ensures var s := Step(Exec(Init(bufferSize), es), e);
            (exists more :: Strands(s, more)) <==> s.senders != []
  {
    CleanExitIsComplete(bufferSize, es, e);
    RunSingle(Exec(Init(bufferSize), es), e);
    JoinRuns(Init(bufferSize), es, [e]);
    StrandedIff(bufferSize, es + [e]);
  }

  /** From any state after the cancellation a clean exit can be reached without any sender moving. */
  lemma {:induction false} CanDrain(s: State) returns (es: seq<Event>)
    requires SaneWorker(s) && s.cancelled && !s.worker.Exited?
    ensures Runs(s, es)
    ensures var t := Exec(s, es);
            t.worker == Exited(true) && t.queue == [] && t.senders == s.senders && t.capacity == s.capacity
    decreases Remaining(s)
  {
    var e :=
      if s.worker.Waiting? then Notice
      else if s.worker.Draining? then (if s.queue == [] then Default else Take)
      else if s.worker.Rechecking? then Recheck
      else if s.worker.Writing? then Write(true)
      else Elapse;
    ShutdownStepDecreases(s, e);
    StepKeepsSane(s, e);
    var rest := [];
    if !Step(s, e).worker.Exited? {
      rest := CanDrain(Step(s, e));
    }
    es := Prepend(s, e, rest);
  }

  lemma SenderCanStrand(s: State, p: Job -> bool) returns (more: seq<Event>)
    requires Conserved(s, p) && s.cancelled && !s.worker.Exited? && s.senders != [] && s.capacity > 0
    ensures Strands(s, more) && Exec(s, more).worker == Exited(true)
  {
    more := CanDrain(s);
    var t := Exec(s, more);
    RunKeepsConserved(s, more, p);
    StepKeepsConserved(t, Send(0), p);
    ExitedLeavesQueue(Step(t, Send(0)), p);
    RunSingle(t, Send(0));
    JoinRuns(s, more, [Send(0)]);
    more := more + [Send(0)];
  }

  lemma NoSenderNoStrand(s: State, p: Job -> bool, more: seq<Event>)
    requires Conserved(s, p) && s.cancelled && !s.worker.Exited? && s.senders == []
    requires Runs(s, more) && Exec(s, more).worker == Exited(true)
    ensures !Strands(s, more)
  {
    NothingEntersLate(s, more);
    RunKeepsConserved(s, more, p);
    ExitedLeavesQueue(Exec(s, more), p);
  }

  /** The same condition at the cancellation: a shutdown can end with a clean drain and still strand a job if
      and only if a sender was between its context check and its send when the context was cancelled. */
  lemma CleanShutdownStrandsIff(bufferSize: int, es: seq<Event>)
    requires Runs(Init(bufferSize), es) && CanStep(Exec(Init(bufferSize), es), Cancel)
    ensures var s := Step(Exec(Init(bufferSize), es), Cancel);
            (exists more :: Strands(s, more) && Exec(s, more).worker == Exited(true)) <==> s.senders != []
  {
    var s := Step(Exec(Init(bufferSize), es), Cancel);
    var p := OfKind(Usage);
    Reachable(bufferSize, es, p);
    StepKeepsConserved(Exec(Init(bufferSize), es), Cancel, p);
    RunKeepsCapacity(Init(bufferSize), es);
    if s.senders != [] {
      var more := SenderCanStrand(s, p);
      assert Strands(s, more);
    } else if more :| Strands(s, more) && Exec(s, more).worker == Exited(true) {
      NoSenderNoStrand(s, p, more);
    }
  }

  // ----- Abandoned jobs -----

  predicate IsAbandoned(ds: seq<Done>, i: int)
  {
    0 <= i < |ds| && ds[i].fate.Abandoned?
  }

  predicate Abandons(s: State, more: seq<Event>, i: int)
  {
    Runs(s, more) && IsAbandoned(Exec(s, more).done, i)
  }

  /** There is a job whose three attempts are not yet all made or under way. */
  predicate HasBackoffAhead(s: State)
  {
    s.queue != [] || s.senders != [] || s.worker.BackingOff? || (s.worker.Writing? && s.worker.attempt < MAX_ATTEMPTS)
  }

  lemma {:induction false} NothingToAbandon(s: State, es: seq<Event>)
    requires Runs(s, es) && SaneWorker(s) && s.cancelled && !HasBackoffAhead(s)
    requires forall i :: !IsAbandoned(s.done, i)
    ensures forall i :: !IsAbandoned(Exec(s, es).done, i)
    decreases es
  {
    if es != [] {
      StepKeepsSane(s, es[0]);
      NothingToAbandonNext(s, es[0]);
      NothingToAbandon(Step(s, es[0]), es[1..]);
    }
  }

  lemma NothingToAbandonNext(s: State, e: Event)
    requires CanStep(s, e) && SaneWorker(s) && s.cancelled && !HasBackoffAhead(s)
    requires forall i :: !IsAbandoned(s.done, i)
    ensures !HasBackoffAhead(Step(s, e)) && forall i :: !IsAbandoned(Step(s, e).done, i)
  {
    forall i
      ensures !IsAbandoned(Step(s, e).done, i)
    {
      assert !IsAbandoned(s.done, i);
    }
  }

  /** From a job ahead of its last attempt to its abandonment: it gets its turn, its write fails, and the
      cancellation cuts its backoff short. */
  lemma {:induction false} CanAbandon(s: State) returns (more: seq<Event>)
    requires SaneWorker(s) && s.cancelled && s.capacity > 0 && HasBackoffAhead(s)
    requires !s.worker.Exited? && !s.worker.Rechecking?
    ensures Runs(s, more) && IsAbandoned(Exec(s, more).done, |Exec(s, more).done| - 1)
    decreases Remaining(s)
  {
    var e :=
      if s.worker.BackingOff? then Abandon
      else if s.worker.Writing? then Write(s.worker.attempt == MAX_ATTEMPTS)
      else if s.queue != [] then Take
      else Send(0);
    ShutdownStepDecreases(s, e);
    StepKeepsSane(s, e);
    var rest := [];
    if !s.worker.BackingOff? {
      rest := CanAbandon(Step(s, e));
    }
    more := Prepend(s, e, rest);
  }

  /** Exactly when a shutdown can abandon a job, which no drop counter counts: at every reachable cancellation,
      if and only if a job is waiting, backing off or in a write before its last attempt, or a sender is
      between its context check and its send. */
  lemma ShutdownAbandonsIff(bufferSize: int, es: seq<Event>)
    requires Runs(Init(bufferSize), es) && CanStep(Exec(Init(bufferSize), es), Cancel)
    ensures var s := Step(Exec(Init(bufferSize), es), Cancel);
            (exists more, i :: Abandons(s, more, i)) <==> HasBackoffAhead(s)
  {
    var before := Exec(Init(bufferSize), es);
    var s := Step(before, Cancel);
    Reachable(bufferSize, es, OfKind(Usage));
    StepKeepsSane(before, Cancel);
    RunKeepsCapacity(Init(bufferSize), es);
    if HasBackoffAhead(s) {
      var more := CanAbandon(s);
      assert Abandons(s, more, |Exec(s, more).done| - 1);
    } else if more, i :| Abandons(s, more, i) {
      NothingToAbandon(s, more);
      assert false;
    }
  }

  // ----- The processing loop is a run of the system -----

  lemma {:induction false} JoinRuns(s: State, es: seq<Event>, fs: seq<Event>)
    requires Runs(s, es) && Runs(Exec(s, es), fs)
    ensures Runs(s, es + fs) && Exec(s, es + fs) == Exec(Exec(s, es), fs)
    decreases es
  {
    if es == [] {
      assert es + fs == fs;
    } else {
      assert (es + fs)[1..] == es[1..] + fs;
      JoinRuns(Step(s, es[0]), es[1..], fs);
    }
  }

  lemma RunSingle(s: State, e: Event)
    requires CanStep(s, e)
    ensures Runs(s, [e]) && Exec(s, [e]) == Step(s, e)
  {
    var s' := Step(s, e);
    assert Runs(s', [e][1..]) && Exec(s', [e][1..]) == s';
  }

  /** The fate that the method proves for a job is the one the step system gives it, when the waits it cuts
      short are cut short by the cancellation. */
  lemma {:induction false} ProcessIsARun(s: State, ok: nat -> bool, abort: nat -> bool) returns (es: seq<Event>)
    requires s.worker.Writing? && 1 <= s.worker.attempt <= MAX_ATTEMPTS
    requires (exists k :: abort(k)) ==> s.cancelled
    ensures Runs(s, es)
    ensures var d := FateFrom(s.worker.job, s.worker.attempt, ok, abort);
            Exec(s, es) == s.(worker := Back(s.worker.draining), done := s.done + [d],
                              drops := if d.fate.Dropped? then s.drops.Bump(d.job.kind) else s.drops)
    decreases MAX_ATTEMPTS - s.worker.attempt
  {
    var a := s.worker.attempt;
    var first := Write(ok(a));
    RunSingle(s, first);
    if ok(a) || a == 3 {
      es := [first];
    } else {
      var waiting := Step(s, first);
      if abort(a) {
        RunSingle(waiting, Abandon);
        JoinRuns(s, [first], [Abandon]);
        es := [first] + [Abandon];
      } else {
        RunSingle(waiting, Elapse);
        JoinRuns(s, [first], [Elapse]);
        var rest := ProcessIsARun(Step(waiting, Elapse), ok, abort);
        JoinRuns(s, [first] + [Elapse], rest);
        es := [first] + [Elapse] + rest;
      }
    }
  }

  // ----- The drop counters over any part of a run -----

  /** t has counted as many more drops of the kind as it has more refusals and retry drops of it. */
  predicate DropsBalance(s: State, t: State, k: Kind)
  {
    t.drops.Of(k) + Count(s.refused, OfKind(k)) + Count(s.done, With(Dropped, OfKind(k))) ==
    s.drops.Of(k) + Count(t.refused, OfKind(k)) + Count(t.done, With(Dropped, OfKind(k)))
  }

  lemma RefusalBalances(s: State, t: State, j: Job, k: Kind)
    requires t.refused == s.refused + [j] && t.drops == s.drops.Bump(j.kind) && t.done == s.done
    ensures DropsBalance(s, t, k)
  {
    CountAppend(s.refused, j, OfKind(k));
  }

  lemma FinishBalances(s: State, fate: Fate, k: Kind)
    requires s.worker.Writing? || s.worker.BackingOff?
    ensures DropsBalance(s, Finish(s, fate), k)
  {
    CountAppend(s.done, Done(s.worker.job, fate, s.worker.attempt), With(Dropped, OfKind(k)));
  }

  lemma StepKeepsDropBalance(s: State, e: Event, k: Kind)
    requires CanStep(s, e)
    ensures DropsBalance(s, Step(s, e), k)
  {
    var t := Step(s, e);
    if e.Submit? && t.refused != s.refused {
      RefusalBalances(s, t, e.job, k);
    } else if e.Send? && |s.queue| >= s.capacity {
      RefusalBalances(s, t, s.senders[e.i], k);
    } else if e.Write? && (e.ok || s.worker.attempt == 3) {
      FinishBalances(s, if e.ok then Written else Dropped, k);
    } else if e.Abandon? {
      FinishBalances(s, Abandoned, k);
    }
  }

  /** Over any part of any run a kind's drop counter grows by its jobs refused and its jobs dropped. */
  lemma {:induction false} RunKeepsDropBalance(s: State, es: seq<Event>, k: Kind)
    requires Runs(s, es)
    ensures DropsBalance(s, Exec(s, es), k)
    decreases es
  {
    if es != [] {
      StepKeepsDropBalance(s, es[0], k);
      RunKeepsDropBalance(Step(s, es[0]), es[1..], k);
    }
  }

  // ----- Order over any part of a run -----

  /** The jobs finished, in hand and waiting, in that order. */
  function Line(s: State): seq<Job>
  {
    Jobs(s.done) + InHand(s.worker) + s.queue
  }

  /** From s to t the line has only grown, at its end, by the jobs newly accepted. */
  predicate Grows(s: State, t: State)
  {
    s.accepted <= t.accepted && Line(t) == Line(s) + t.accepted[|s.accepted|..]
  }

  lemma SameLine(s: State, t: State)
    requires Line(t) == Line(s) && t.accepted == s.accepted
    ensures Grows(s, t)
  {
    assert t.accepted[|s.accepted|..] == [];
  }

  lemma FinishGrows(s: State, fate: Fate)
    requires s.worker.Writing? || s.worker.BackingOff?
    ensures Grows(s, Finish(s, fate))
  {
    JobsAppend(s.done, Done(s.worker.job, fate, s.worker.attempt));
    Moved(Jobs(s.done), [s.worker.job], s.queue);
    SameLine(s, Finish(s, fate));
  }

  lemma TakeGrows(s: State)
    requires CanStep(s, Take)
    ensures Grows(s, Step(s, Take))
  {
    assert s.queue == [s.queue[0]] + s.queue[1..];
    Moved(Jobs(s.done), [s.queue[0]], s.queue[1..]);
    SameLine(s, Step(s, Take));
  }

  lemma SendGrows(s: State, i: nat)
    requires i < |s.senders|
    ensures Grows(s, Step(s, Send(i)))
  {
    var t, j := Step(s, Send(i)), s.senders[i];
    if |s.queue| < s.capacity {
      Associate(Jobs(s.done) + InHand(s.worker), s.queue, [j]);
      assert t.accepted[|s.accepted|..] == [j];
    } else {
      SameLine(s, t);
    }
  }

  lemma StepGrows(s: State, e: Event)
    requires CanStep(s, e)
    ensures Grows(s, Step(s, e))
  {
    if e.Send? {
      SendGrows(s, e.i);
    } else if e.Take? {
      TakeGrows(s);
    } else if e.Abandon? || (e.Write? && (e.ok || s.worker.attempt == 3)) {
      FinishGrows(s, if e.Abandon? then Abandoned else if e.ok then Written else Dropped);
    } else {
      SameLine(s, Step(s, e));
    }
  }

  lemma GrowsOn(s: State, t: State, u: State)
    requires Grows(s, t) && Grows(t, u)
    ensures Grows(s, u)
  {
    var a, b := t.accepted[|s.accepted|..], u.accepted[|t.accepted|..];
    assert u.accepted == s.accepted + a + b;
    assert u.accepted[|s.accepted|..] == a + b;
    Associate(Line(s), a, b);
  }

  /** Over any part of any run no job is lost and none overtakes another. */
  lemma {:induction false} RunGrows(s: State, es: seq<Event>)
    requires Runs(s, es)
    ensures Grows(s, Exec(s, es))
    decreases es
  {
    if es == [] {
      SameLine(s, s);
    } else {
      StepGrows(s, es[0]);
      RunGrows(Step(s, es[0]), es[1..]);
      GrowsOn(s, Step(s, es[0]), Exec(s, es));
    }
  }
}
