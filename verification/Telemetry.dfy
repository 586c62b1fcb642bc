/** The telemetry recorder of backend/shared/telemetry/recorder.go: a bounded queue filled by gateway
    requests, one worker that writes jobs with up to three attempts, and a cancel-and-drain shutdown. */
module Telemetry {
  import opened Counting

  datatype Kind = Usage | RequestLog

  datatype Job = Job(kind: Kind, payload: int)

  /** How the worker finished with a job, and after how many write attempts. */
  datatype Fate = Written | Dropped | Abandoned

  datatype Done = Done(job: Job, fate: Fate, attempts: nat)

  const MAX_ATTEMPTS: nat := 3

  /** New's default for a buffer size that is not positive. */
  function Capacity(bufferSize: int): (n: nat)
    ensures n > 0 && (n == bufferSize || n == 4096)
    ensures n == bufferSize <==> bufferSize > 0
  {
    if bufferSize <= 0 then 4096 else bufferSize
  }

  /** The dropped-writes counter, one value per job kind. */
  datatype Counters = Counters(usage: nat, requestLog: nat) {
    function Of(k: Kind): nat
    {
      if k.Usage? then usage else requestLog
    }

    function Bump(k: Kind): Counters
    {
      if k.Usage? then this.(usage := usage + 1) else this.(requestLog := requestLog + 1)
    }
  }

  // ----- The recorder as a step system -----

  /** Where the worker goroutine stands. */
  datatype Worker =
    | Absent                                              // Start has not been called
    | Waiting                                             // at worker's select
    | Draining                                            // at drain's select
    | Rechecking                                          // in drain's default branch
    | Writing(job: Job, attempt: nat, draining: bool)     // a database write in flight
    | BackingOff(job: Job, attempt: nat, draining: bool)  // between two attempts
    | Exited(clean: bool)

  /** senders are enqueue calls between their context check and their channel send. The last four fields
      are history: what was submitted, accepted by the queue, finished, and refused by enqueue. */
  datatype State = State(
    capacity: nat, cancelled: bool, senders: seq<Job>, queue: seq<Job>, worker: Worker, drops: Counters,
    submitted: seq<Job>, accepted: seq<Job>, done: seq<Done>, refused: seq<Job>)

  datatype Event =
    | Start
    | Submit(job: Job)     // enqueue's context check
    | Send(i: nat)         // enqueue's select
    | Cancel
    | Take                 // receive from the queue
    | Notice               // worker's select sees the cancellation
    | Write(ok: bool)      // the write in flight returns
    | Elapse               // the backoff timer fires
    | Abandon              // the backoff select sees the cancellation
    | Default              // drain's select finds nothing ready
    | Recheck              // drain's default branch looks at the length again
    | Deadline             // drain's timeout fires

  function Init(bufferSize: int): State
  {
    State(Capacity(bufferSize), false, [], [], Absent, Counters(0, 0), [], [], [], [])
  }

  predicate CanStep(s: State, e: Event)
  {
    match e
    case Start => s.worker.Absent?
    case Submit(_) => true
    case Send(i) => i < |s.senders|
    case Cancel => !s.worker.Absent? && !s.cancelled
    case Take => (s.worker.Waiting? || s.worker.Draining?) && s.queue != []
    case Notice => s.worker.Waiting? && s.cancelled
    case Write(_) => s.worker.Writing?
    case Elapse => s.worker.BackingOff?
    case Abandon => s.worker.BackingOff? && s.cancelled
    case Default => s.worker.Draining? && s.queue == []
    case Recheck => s.worker.Rechecking?
    case Deadline => s.worker.Draining?
  }

  function Back(draining: bool): Worker
  {
    if draining then Draining else Waiting
  }

  function Finish(s: State, fate: Fate): State
    requires s.worker.Writing? || s.worker.BackingOff?
  {
    s.(worker := Back(s.worker.draining),
       done := s.done + [Done(s.worker.job, fate, s.worker.attempt)],
       drops := if fate.Dropped? then s.drops.Bump(s.worker.job.kind) else s.drops)
  }

  function Step(s: State, e: Event): State
    requires CanStep(s, e)
  {
    match e
    case Start => s.(worker := Waiting)
    case Submit(j) =>
      var t := s.(submitted := s.submitted + [j]);
      if s.worker.Absent? || s.cancelled then t.(refused := s.refused + [j], drops := s.drops.Bump(j.kind))
      else t.(senders := s.senders + [j])
    case Send(i) =>
      var j := s.senders[i];
      var t := s.(senders := Remove(s.senders, i));
      if |s.queue| < s.capacity then t.(queue := s.queue + [j], accepted := s.accepted + [j])
      else t.(refused := s.refused + [j], drops := s.drops.Bump(j.kind))
    case Cancel => s.(cancelled := true)
    case Take => s.(queue := s.queue[1..], worker := Writing(s.queue[0], 1, s.worker.Draining?))
    case Notice => s.(worker := Draining)
    case Write(ok) =>
      if ok then Finish(s, Written)
      else if s.worker.attempt == 3 then Finish(s, Dropped)
      else s.(worker := BackingOff(s.worker.job, s.worker.attempt, s.worker.draining))
    case Elapse => s.(worker := Writing(s.worker.job, s.worker.attempt + 1, s.worker.draining))
    case Abandon => Finish(s, Abandoned)
    case Default => s.(worker := Rechecking)
    case Recheck => s.(worker := if s.queue == [] then Exited(true) else Draining)
    case Deadline => s.(worker := Exited(false))
  }

  predicate Runs(s: State, es: seq<Event>)
    decreases es
  {
    es == [] || (CanStep(s, es[0]) && Runs(Step(s, es[0]), es[1..]))
  }

  function Exec(s: State, es: seq<Event>): State
    requires Runs(s, es)
    decreases es
  {
    if es == [] then s else Exec(Step(s, es[0]), es[1..])
  }

  // ----- The fate of one job -----

  /** The fate of a job whose attempt number a is about to be made, when attempt k succeeds iff ok(k) and
      the wait after it is cut short iff abort(k). */
  function FateFrom(j: Job, a: nat, ok: nat -> bool, abort: nat -> bool): (d: Done)
    requires 1 <= a <= MAX_ATTEMPTS
    ensures d.job == j && a <= d.attempts <= 3
    ensures d.fate.Written? <==> ok(d.attempts)
    ensures d.fate.Dropped? ==> d.attempts == 3
    ensures d.fate.Abandoned? ==> d.attempts < 3 && abort(d.attempts)
    ensures forall k :: a <= k < d.attempts ==> !ok(k) && !abort(k)
    decreases MAX_ATTEMPTS - a
  {
    if ok(a) then Done(j, Written, a)
    else if a == 3 then Done(j, Dropped, a)
    else if abort(a) then Done(j, Abandoned, a)
    else FateFrom(j, a + 1, ok, abort)
  }

  function Jobs(ds: seq<Done>): (js: seq<Job>)
    ensures |js| == |ds|
  {
    if ds == [] then [] else Jobs(ds[..|ds| - 1]) + [ds[|ds| - 1].job]
  }

  lemma JobsAppend(ds: seq<Done>, d: Done)
    ensures Jobs(ds + [d]) == Jobs(ds) + [d.job]
  {
    assert (ds + [d])[..|ds|] == ds;
  }

  lemma Associate<T>(a: seq<T>, b: seq<T>, c: seq<T>)
    ensures (a + b) + c == a + (b + c)
  {
  }
}
