/** The methods of backend/shared/telemetry/recorder.go, each proved to be a run of the step system. */
module TelemetryRecorder {
  import opened Counting
  import opened Telemetry
  import opened TelemetryTheorems

  /** What surrounds the n-th round of drain's loop: how many pending sends land before its select and in
      its default branch, whether its deadline has fired, and how the writes of the job it takes go. */
  datatype Round = Round(before: nat, between: nat, deadline: bool, ok: nat -> bool, abort: nat -> bool)

  datatype RoundOutcome = Again | TimedOut | Empty

  /** Where a round leaves the worker. */
  function AfterRound(outcome: RoundOutcome): Worker
  {
    match outcome
    case Again => Draining
    case TimedOut => Exited(false)
    case Empty => Exited(true)
  }

  /** The jobs finished since there were n were taken in the rounds listed in turns, one a round, in order, and
      each has the fate that its own round's writes gave it. */
  predicate FinishedIn(done: seq<Done>, n: nat, turns: seq<nat>, rounds: nat -> Round)
  {
    && |done| == n + |turns|
    && (forall i, j :: 0 <= i < j < |turns| ==> turns[i] < turns[j])
    && (forall i :: 0 <= i < |turns| ==> var r := rounds(turns[i]); done[n + i] == FateFrom(done[n + i].job, 1, r.ok, r.abort))
  }

  lemma FinishedOneMore(done: seq<Done>, n: nat, turns: seq<nat>, rounds: nat -> Round, r: nat, j: Job)
    requires FinishedIn(done, n, turns, rounds) && forall i :: 0 <= i < |turns| ==> turns[i] < r
    ensures FinishedIn(done + [FateFrom(j, 1, rounds(r).ok, rounds(r).abort)], n, turns + [r], rounds)
  {
  }

  /** s, es, t: a run of the step system. */
  predicate Leads(s: State, es: seq<Event>, t: State)
  {
    Runs(s, es) && Exec(s, es) == t
  }

  lemma LeadsOn(s: State, es: seq<Event>, t: State, fs: seq<Event>, u: State)
    requires Leads(s, es, t) && Leads(t, fs, u)
    ensures Leads(s, es + fs, u)
  {
    JoinRuns(s, es, fs);
  }

  lemma LeadsOne(s: State, e: Event)
    requires CanStep(s, e)
    ensures Leads(s, [e], Step(s, e))
  {
    RunSingle(s, e);
  }

  /** What a run of the drain does to the counters and to the order of the jobs. */
  lemma DrainAccounts(s: State, es: seq<Event>, t: State)
    requires Leads(s, es, t) && s.worker.Draining? && t.worker.Exited?
    ensures forall k :: t.drops.Of(k) - s.drops.Of(k) ==
              Count(t.refused, OfKind(k)) - Count(s.refused, OfKind(k))
              + Count(t.done, With(Dropped, OfKind(k))) - Count(s.done, With(Dropped, OfKind(k)))
    ensures s.accepted <= t.accepted && Jobs(t.done) + t.queue == Jobs(s.done) + s.queue + t.accepted[|s.accepted|..]
  {
    forall k: Kind
      ensures t.drops.Of(k) - s.drops.Of(k) ==
                Count(t.refused, OfKind(k)) - Count(s.refused, OfKind(k))
                + Count(t.done, With(Dropped, OfKind(k))) - Count(s.done, With(Dropped, OfKind(k)))
    {
      RunKeepsDropBalance(s, es, k);
      assert DropsBalance(s, t, k);
    }
    RunGrows(s, es);
    assert Jobs(s.done) + [] == Jobs(s.done) && Jobs(t.done) + [] == Jobs(t.done);
  }

  class Recorder {
    const capacity: nat
    var started: bool
    var cancelled: bool
    var queue: seq<Job>
    var senders: seq<Job>
    var drops: Counters
    ghost var submitted: seq<Job>
    ghost var accepted: seq<Job>
    ghost var refused: seq<Job>
    var done: seq<Done>

    /** The recorder's state while its worker stands at w. */
    ghost function View(w: Worker): State
      reads this
    {
      State(capacity, cancelled, senders, queue, w, drops, submitted, accepted, done, refused)
    }

    constructor (bufferSize: int)
      ensures View(Absent) == Init(bufferSize) && !started
      ensures capacity == if bufferSize <= 0 then 4096 else bufferSize
    {
      capacity := if bufferSize <= 0 then 4096 else bufferSize;
      started, cancelled, queue, senders, drops, done := false, false, [], [], Counters(0, 0), [];
      submitted, accepted, refused := [], [], [];
    }

    method Start()
      modifies this
      ensures started && !cancelled
      ensures !old(cancelled) ==> View(Waiting) == Step(old(View(Absent)), Event.Start)
    {
      started, cancelled := true, false;
    }

    /** Stop's cancellation; without a Start it does nothing. */
    method CancelContext(ghost w: Worker)
      requires w.Absent? <==> !started
      modifies this
      ensures View(w) == if old(started) && !old(cancelled) then Step(old(View(w)), Cancel) else old(View(w))
      ensures cancelled == (old(cancelled) || started) && started == old(started)
    {
      if !started {
        return;
      }
      cancelled := true;
    }

    /** enqueue's select: the job enters the queue at its end, or is counted as dropped. */
    method Offer(j: Job)
      modifies this
      ensures if old(|queue|) < capacity then
                queue == old(queue) + [j] && drops == old(drops) && accepted == old(accepted) + [j] && refused == old(refused)
              else
                queue == old(queue) && drops == old(drops).Bump(j.kind) && accepted == old(accepted) && refused == old(refused) + [j]
      ensures unchanged(`senders) && unchanged(`done) && unchanged(`started) && unchanged(`cancelled) && unchanged(`submitted)
    {
      if |queue| < capacity {
        queue, accepted := queue + [j], accepted + [j];
      } else {
        drops, refused := drops.Bump(j.kind), refused + [j];
      }
    }

    /** enqueue with nothing between its check and its select. */
    method Enqueue(j: Job, ghost w: Worker) returns (ghost es: seq<Event>)
      requires w.Absent? <==> !started
      modifies this
      ensures Leads(old(View(w)), es, View(w))
      ensures if started && !old(cancelled) && old(|queue|) < capacity then queue == old(queue) + [j] && drops == old(drops)
              else queue == old(queue) && drops == old(drops).Bump(j.kind)
      ensures unchanged(`senders) && unchanged(`done) && unchanged(`started) && unchanged(`cancelled)
    {
      ghost var start := View(w);
      LeadsOne(start, Submit(j));
      es := [Submit(j)];
      submitted := submitted + [j];
      if !started || cancelled {
        drops, refused := drops.Bump(j.kind), refused + [j];
        return;
      }
      ghost var checked := Step(start, Submit(j));
      assert Remove(checked.senders, |senders|) == senders;
      Offer(j);
      LeadsOne(checked, Send(|senders|));
      LeadsOn(start, es, checked, [Send(|senders|)], View(w));
      es := es + [Send(|senders|)];
    }

    /** process: up to three attempts, with a backoff that the cancellation cuts short. */
    method Process(j: Job, ok: nat -> bool, abort: nat -> bool, ghost draining: bool) returns (ghost es: seq<Event>)
      modifies this
      ensures cancelled || !(exists k :: abort(k)) ==>
                Leads(old(View(Writing(j, 1, draining))), es, View(Back(draining)))
      ensures done == old(done) + [FateFrom(j, 1, ok, abort)]
      ensures drops == if FateFrom(j, 1, ok, abort).fate.Dropped? then old(drops).Bump(j.kind) else old(drops)
      ensures unchanged(`queue) && unchanged(`senders) && unchanged(`started) && unchanged(`cancelled)
      ensures unchanged(`submitted) && unchanged(`accepted) && unchanged(`refused)
    {
      es := [];
      if cancelled || !exists k :: abort(k) {
        es := ProcessIsARun(View(Writing(j, 1, draining)), ok, abort);
      }
      var attempt := 1;
      while attempt <= MAX_ATTEMPTS
        invariant 1 <= attempt <= MAX_ATTEMPTS
        invariant FateFrom(j, attempt, ok, abort) == FateFrom(j, 1, ok, abort)
        invariant unchanged(this)
        decreases MAX_ATTEMPTS - attempt
      {
        if ok(attempt) {
          done := done + [Done(j, Written, attempt)];
          return;
        }
        if attempt == MAX_ATTEMPTS {
          break;
        }
        if abort(attempt) {
          done := done + [Done(j, Abandoned, attempt)];
          return;
        }
        attempt := attempt + 1;
      }
      drops := drops.Bump(j.kind);
      done := done + [Done(j, Dropped, attempt)];
    }

    /** One receive from the queue, processed to its end. */
    method TakeAndProcess(ok: nat -> bool, abort: nat -> bool) returns (ghost es: seq<Event>)
      requires queue != [] && cancelled
      modifies this
      ensures Leads(old(View(Draining)), es, View(Draining))
      ensures done == old(done) + [FateFrom(old(queue)[0], 1, ok, abort)] && queue == old(queue)[1..]
      ensures unchanged(`senders) && unchanged(`accepted) && unchanged(`started) && unchanged(`cancelled)
    {
      ghost var start := View(Draining);
      var j := queue[0];
      LeadsOne(start, Take);
      queue := queue[1..];
      assert View(Writing(j, 1, true)) == Step(start, Take);
      ghost var more := Process(j, ok, abort, true);
      LeadsOn(start, [Take], Step(start, Take), more, View(Draining));
      es := [Take] + more;
    }

    /** The first pending send completes. */
    method LandOne(ghost w: Worker) returns (ghost es: seq<Event>)
      requires senders != []
      modifies this
      ensures Leads(old(View(w)), es, View(w))
      ensures senders == old(senders)[1..]
      ensures if old(|queue|) < capacity then queue == old(queue) + [old(senders)[0]] else queue == old(queue)
      ensures |accepted| <= old(|accepted|) + 1
      ensures unchanged(`done) && unchanged(`started) && unchanged(`cancelled)
    {
      ghost var start := View(w);
      var j := senders[0];
      assert Remove(senders, 0) == senders[1..];
      LeadsOne(start, Send(0));
      es := [Send(0)];
      senders := senders[1..];
      Offer(j);
    }

    /** The first n pending sends complete, in order. */
    method Land(n: nat, ghost w: Worker) returns (ghost es: seq<Event>)
      modifies this
      ensures Leads(old(View(w)), es, View(w))
      ensures senders == old(senders)[if n < old(|senders|) then n else old(|senders|)..]
      ensures |queue| + |senders| <= old(|queue|) + old(|senders|) && |accepted| + |senders| <= old(|accepted|) + old(|senders|)
      ensures old(|queue|) <= |queue| && (old(|queue|) < capacity && n > 0 && old(senders) != [] ==> queue != [])
      ensures unchanged(`done) && unchanged(`started) && unchanged(`cancelled)
    {
      ghost var start := View(w);
      es := [];
      var i := 0;
      while i < n && senders != []
        invariant 0 <= i <= n && i <= old(|senders|) && senders == old(senders)[i..]
        invariant Leads(start, es, View(w))
        invariant |queue| + |senders| <= old(|queue|) + old(|senders|) && |accepted| + |senders| <= old(|accepted|) + old(|senders|)
        invariant old(|queue|) <= |queue| && (old(|queue|) < capacity && i > 0 ==> queue != [])
        invariant unchanged(`done) && unchanged(`started) && unchanged(`cancelled)
        decreases n - i
      {
        ghost var before := View(w);
        ghost var more := LandOne(w);
        LeadsOn(start, es, before, more, View(w));
        es := es + more;
        i := i + 1;
      }
    }

    /** One round of drain's loop: its select, and in the default branch the second look at the queue. A round
        that receives a job finishes it with the fate of this round's writes. */
    method DrainRound(round: Round) returns (outcome: RoundOutcome, ghost took: seq<Job>, ghost es: seq<Event>)
      requires cancelled
      modifies this
      ensures Leads(old(View(Draining)), es, View(AfterRound(outcome)))
      ensures |took| <= 1 && (!outcome.Again? ==> took == [])
      ensures done == old(done) + if took == [] then [] else [FateFrom(took[0], 1, round.ok, round.abort)]
      ensures outcome.TimedOut? <==> round.deadline
      ensures outcome.Empty? ==> queue == []
      ensures |queue| + 2 * |senders| <= old(|queue|) + 2 * old(|senders|) && |accepted| + |senders| <= old(|accepted|) + old(|senders|)
      ensures outcome.Again? ==> |queue| + 2 * |senders| < old(|queue|) + 2 * old(|senders|)
      ensures started == old(started) && cancelled
    {
      ghost var start := View(Draining);
      es := Land(round.before, Draining);
      ghost var landed := View(Draining);
      took := [];
      if round.deadline {
        LeadsOne(landed, Deadline);
        LeadsOn(start, es, landed, [Deadline], View(Exited(false)));
        return TimedOut, took, es + [Deadline];
      }
      if queue != [] {
        took := [queue[0]];
        ghost var more := TakeAndProcess(round.ok, round.abort);
        LeadsOn(start, es, landed, more, View(Draining));
        return Again, took, es + more;
      }
      LeadsOne(landed, Default);
      LeadsOn(start, es, landed, [Default], View(Rechecking));
      es := es + [Default];
      ghost var rechecking := View(Rechecking);
      ghost var more := Land(round.between, Rechecking);
      LeadsOn(start, es, rechecking, more, View(Rechecking));
      es := es + more;
      ghost var again := View(Rechecking);
      outcome := if queue == [] then Empty else Again;
      LeadsOne(again, Recheck);
      LeadsOn(start, es, again, [Recheck], View(AfterRound(outcome)));
      es := es + [Recheck];
    }

    /** drain's loop: a run of the step system from the worker's place at its select to its exit, after last
        rounds that made progress and one that did not. */
    method DrainLoop(rounds: nat -> Round) returns (clean: bool, last: nat, ghost turns: seq<nat>, ghost es: seq<Event>)
      requires cancelled
      modifies this
      ensures Leads(old(View(Draining)), es, View(Exited(clean)))
      ensures old(done) <= done && FinishedIn(done, |old(done)|, turns, rounds) && forall i :: 0 <= i < |turns| ==> turns[i] < last
      ensures |accepted| + |senders| <= old(|accepted|) + old(|senders|)
      ensures clean ==> queue == []
      ensures last + |queue| + 2 * |senders| <= old(|queue|) + 2 * old(|senders|)
      ensures !clean <==> rounds(last).deadline
      ensures forall n :: 0 <= n < last ==> !rounds(n).deadline
      ensures started == old(started) && cancelled
    {
      ghost var start := View(Draining);
      es, turns, last := [], [], 0;
      while true
        invariant Leads(start, es, View(Draining))
        invariant old(done) <= done && FinishedIn(done, |old(done)|, turns, rounds)
        invariant forall i :: 0 <= i < |turns| ==> turns[i] < last
        invariant last + |queue| + 2 * |senders| <= old(|queue|) + 2 * old(|senders|)
        invariant |accepted| + |senders| <= old(|accepted|) + old(|senders|)
        invariant forall n :: 0 <= n < last ==> !rounds(n).deadline
        invariant started == old(started) && cancelled
        decreases |queue| + 2 * |senders|
      {
        ghost var before := View(Draining);
        var outcome, took, more := DrainRound(rounds(last));
        LeadsOn(start, es, before, more, View(AfterRound(outcome)));
        es := es + more;
        if !outcome.Again? {
          return outcome.Empty?, last, turns, es;
        }
        if took != [] {
          FinishedOneMore(before.done, |old(done)|, turns, rounds, last, took[0]);
          turns := turns + [last];
        }
        last := last + 1;
      }
    }

    /** drain, called once the context is cancelled. It always returns, its rounds bounded, together with what
        it leaves, by the queue plus twice the pending sends. Each job it finishes was taken in one of those
        rounds and has the fate of that round's writes; jobs are finished in queue order, those that landed
        meanwhile behind the others; each drop counter grows by the jobs of its kind so dropped and the pending
        sends refused; and unless its deadline cut it short, in its last round, it leaves the queue empty. */
    method Drain(rounds: nat -> Round) returns (clean: bool, last: nat, ghost turns: seq<nat>, ghost es: seq<Event>)
      requires cancelled
      modifies this
      ensures Leads(old(View(Draining)), es, View(Exited(clean)))
      ensures old(done) <= done && FinishedIn(done, |old(done)|, turns, rounds) && forall i :: 0 <= i < |turns| ==> turns[i] < last
      ensures forall k :: drops.Of(k) - old(drops).Of(k) ==
                Count(refused, OfKind(k)) - Count(old(refused), OfKind(k))
                + Count(done, With(Dropped, OfKind(k))) - Count(old(done), With(Dropped, OfKind(k)))
      ensures old(accepted) <= accepted && |accepted| + |senders| <= old(|accepted|) + old(|senders|)
      ensures Jobs(done) + queue == old(Jobs(done) + queue) + accepted[old(|accepted|)..]
      ensures clean ==> queue == []
      ensures last + |queue| + 2 * |senders| <= old(|queue|) + 2 * old(|senders|)
      ensures !clean <==> rounds(last).deadline
      ensures forall n :: 0 <= n < last ==> !rounds(n).deadline
      ensures started == old(started) && cancelled
    {
      ghost var start := View(Draining);
      clean, last, turns, es := DrainLoop(rounds);
      DrainAccounts(start, es, View(Exited(clean)));
    }
  }
}
