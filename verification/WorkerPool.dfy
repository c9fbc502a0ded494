/**
 The TCP backend up to cancellation: one handler per connection, a bounded job
 queue, N workers and a one-slot reply channel per job, as a transition system.
 A job is named by its connection and the index of its request on it, which
 also names its reply channel. Clients may pipeline requests.
 */
module WorkerPool {
  datatype Frame = Malformed | Request(id: string, op: string)

  datatype Job = Job(conn: nat, index: nat)

  /** What goes back over the wire; only the request id ties it to a request. */
  datatype Response = BadRequest | Busy(requestId: string) | Answer(requestId: string, outcome: string)

  datatype Handler = Reading | Waiting | Replying(resp: Response) | Closed

  datatype Reply = Reply(index: nat, resp: Response)

  /** `posted`: frames the client sent; the handler has read the first `read` of them. */
  datatype Conn = Conn(posted: seq<Frame>, read: nat, handler: Handler, sent: seq<Reply>)

  datatype Worker = Idle | Serving(job: Job) | Sending(job: Job, resp: Response)

  datatype Execution = Execution(job: Job, outcome: string)

  datatype State = State(capacity: nat, conns: map<nat, Conn>, queue: seq<Job>, workers: seq<Worker>,
                         slots: map<Job, Response>, log: seq<Execution>)

  datatype Step =
    | Connect(conn: nat)
    | Post(conn: nat, frame: Frame)
    | Refuse(conn: nat)               // not JSON
    | Enqueue(conn: nat)              // jobs <- job, into the buffer
    | HandOff(conn: nat, worker: nat) // jobs <- job, to a receiver that waits
    | TurnAway(conn: nat)             // queue full
    | Take(worker: nat)
    | Execute(worker: nat, outcome: string)
    | Send(worker: nat)
    | Receive(conn: nat)
    | Write(conn: nat, delivered: bool)
    | Hangup(conn: nat)

  function Init(configuredWorkers: int, capacity: nat): State {
    State(capacity, map[], [], seq(if configuredWorkers <= 0 then 1 else configuredWorkers, _ => Idle), map[], [])
  }

  // ---------- steps ----------

  predicate CanRead(s: State, c: nat) {
    c in s.conns && s.conns[c].handler == Reading && s.conns[c].read < |s.conns[c].posted|
  }

  predicate CanSubmit(s: State, c: nat) {
    CanRead(s, c) && s.conns[c].posted[s.conns[c].read].Request?
  }

  predicate Enabled(s: State, step: Step) {
    match step
    case Connect(c) => c !in s.conns
    case Post(c, _) => c in s.conns
    case Refuse(c) => CanRead(s, c) && s.conns[c].posted[s.conns[c].read].Malformed?
    case Enqueue(c) => CanSubmit(s, c) && |s.queue| < s.capacity
    case HandOff(c, w) => CanSubmit(s, c) && s.queue == [] && w < |s.workers| && s.workers[w] == Idle
    case TurnAway(c) => CanSubmit(s, c) && |s.queue| >= s.capacity
    case Take(w) => w < |s.workers| && s.workers[w] == Idle && s.queue != []
    case Execute(w, _) => w < |s.workers| && s.workers[w].Serving? && Known(s, s.workers[w].job)
    case Send(w) => w < |s.workers| && s.workers[w].Sending? && s.workers[w].job !in s.slots
    case Receive(c) =>
      && c in s.conns && s.conns[c].handler == Waiting && s.conns[c].read > 0
      && Job(c, s.conns[c].read - 1) in s.slots
    case Write(c, _) => c in s.conns && s.conns[c].handler.Replying? && s.conns[c].read > 0
    case Hangup(c) => c in s.conns && s.conns[c].handler == Reading
  }

  /** The job stands for a well-formed request that was read. */
  predicate Known(s: State, job: Job) {
    job.conn in s.conns && job.index < s.conns[job.conn].read <= |s.conns[job.conn].posted| &&
    s.conns[job.conn].posted[job.index].Request?
  }

  function RequestOf(s: State, job: Job): Frame
    requires Known(s, job)
  {
    s.conns[job.conn].posted[job.index]
  }

  function Do(s: State, step: Step): State
    requires Enabled(s, step)
  {
    match step
    case Connect(c) => s.(conns := s.conns[c := Conn([], 0, Reading, [])])
    case Post(c, f) => s.(conns := s.conns[c := s.conns[c].(posted := s.conns[c].posted + [f])])
    case Refuse(c) => ReadOne(s, c, Replying(BadRequest))
    case Enqueue(c) => ReadOne(s, c, Waiting).(queue := s.queue + [Job(c, s.conns[c].read)])
    case HandOff(c, w) => ReadOne(s, c, Waiting).(workers := s.workers[w := Serving(Job(c, s.conns[c].read))])
    case TurnAway(c) => ReadOne(s, c, Replying(Busy(s.conns[c].posted[s.conns[c].read].id)))
    case Take(w) => s.(queue := s.queue[1..], workers := s.workers[w := Serving(s.queue[0])])
    case Execute(w, outcome) =>
      var job := s.workers[w].job;
      s.(workers := s.workers[w := Sending(job, Answer(RequestOf(s, job).id, outcome))],
         log := s.log + [Execution(job, outcome)])
    case Send(w) => s.(workers := s.workers[w := Idle], slots := s.slots[s.workers[w].job := s.workers[w].resp])
    case Receive(c) =>
      var job := Job(c, s.conns[c].read - 1);
      s.(conns := s.conns[c := s.conns[c].(handler := Replying(s.slots[job]))], slots := s.slots - {job})
    case Write(c, delivered) =>
      var k := s.conns[c];
      var sent := if delivered then k.sent + [Reply(k.read - 1, k.handler.resp)] else k.sent;
      s.(conns := s.conns[c := k.(handler := Reading, sent := sent)])
    case Hangup(c) => s.(conns := s.conns[c := s.conns[c].(handler := Closed)])
  }

  function ReadOne(s: State, c: nat, next: Handler): State
    requires CanRead(s, c)
  {
    s.(conns := s.conns[c := s.conns[c].(read := s.conns[c].read + 1, handler := next)])
  }

  // ---------- where a job is ----------

  function JobOf(w: Worker): multiset<Job> {
    if w == Idle then multiset{} else multiset{w.job}
  }

  function JobsIn(workers: seq<Worker>): multiset<Job> {
    if workers == [] then multiset{} else JobsIn(workers[..|workers| - 1]) + JobOf(workers[|workers| - 1])
  }

  lemma {:induction false} JobsInUpdate(workers: seq<Worker>, w: nat, x: Worker, job: Job)
    requires w < |workers|
    ensures JobsIn(workers[w := x])[job] + JobOf(workers[w])[job] == JobsIn(workers)[job] + JobOf(x)[job]
  {
    var front, after := workers[..|workers| - 1], workers[w := x];
    if w == |workers| - 1 {
      assert after[..w] == front;
    } else {
      JobsInUpdate(front, w, x, job);
      assert after[..|workers| - 1] == front[w := x];
    }
  }

  lemma {:induction false} JobsInHas(workers: seq<Worker>, w: nat)
    requires w < |workers|
    ensures JobOf(workers[w]) <= JobsIn(workers)
  {
    if w < |workers| - 1 {
      JobsInHas(workers[..|workers| - 1], w);
    }
  }

  predicate Awaited(s: State, job: Job) {
    job.conn in s.conns && s.conns[job.conn].handler == Waiting && s.conns[job.conn].read == job.index + 1
  }

  function WaitingJobs(s: State): (jobs: set<Job>)
    ensures forall job :: job in jobs <==> Awaited(s, job)
  {
    set c | c in s.conns && s.conns[c].handler == Waiting && s.conns[c].read > 0 :: Job(c, s.conns[c].read - 1)
  }

  /** In how many places a job is. */
  function Places(s: State, job: Job): nat {
    multiset(s.queue)[job] + JobsIn(s.workers)[job] + if job in s.slots then 1 else 0
  }

  ghost predicate Token(s: State, job: Job) {
    Places(s, job) == if Awaited(s, job) then 1 else 0
  }

  /** Queue, workers and reply slots together hold exactly the jobs waited for, each once. */
  ghost predicate Tokens(s: State) {
    forall job :: Token(s, job)
  }

  // ---------- answers ----------

  predicate Ran(s: State, job: Job) {
    exists i :: 0 <= i < |s.log| && s.log[i].job == job
  }

  /** The response answers this very request: refused because malformed, turned
      away and never executed, or the outcome of its own execution. */
  ghost predicate Answers(s: State, job: Job, resp: Response) {
    && job.conn in s.conns && job.index < s.conns[job.conn].read <= |s.conns[job.conn].posted|
    && var frame := s.conns[job.conn].posted[job.index];
       match resp
       case BadRequest => frame.Malformed? && !Ran(s, job)
       case Busy(id) => frame.Request? && id == frame.id && !Ran(s, job)
       case Answer(id, outcome) => frame.Request? && id == frame.id && Execution(job, outcome) in s.log
  }

  /** Requests with a smaller index are over and done with. */
  function Settled(k: Conn): nat {
    if (k.handler == Waiting || k.handler.Replying?) && k.read > 0 then k.read - 1 else k.read
  }

  ghost predicate ConnOk(s: State, c: nat)
    requires c in s.conns
  {
    var k := s.conns[c];
    && k.read <= |k.posted|
    && (k.handler == Waiting ==> k.read > 0 && k.posted[k.read - 1].Request?)
    && (k.handler.Replying? ==> k.read > 0 && Answers(s, Job(c, k.read - 1), k.handler.resp))
    && (forall i :: 0 <= i < |k.sent| ==>
          k.sent[i].index < Settled(k) && Answers(s, Job(c, k.sent[i].index), k.sent[i].resp))
    && (forall i, j :: 0 <= i < j < |k.sent| ==> k.sent[i].index < k.sent[j].index)
  }

  ghost predicate LogOk(s: State) {
    && (forall i :: 0 <= i < |s.log| ==> Known(s, s.log[i].job))
    && (forall i, j :: 0 <= i < j < |s.log| ==> s.log[i].job != s.log[j].job)
  }

  ghost predicate PoolOk(s: State) {
    && (forall i :: 0 <= i < |s.queue| ==> !Ran(s, s.queue[i]))
    && (forall w :: 0 <= w < |s.workers| && s.workers[w].Serving? ==> !Ran(s, s.workers[w].job))
    && (forall w :: 0 <= w < |s.workers| && s.workers[w].Sending? ==>
          s.workers[w].resp.Answer? && Answers(s, s.workers[w].job, s.workers[w].resp))
    && (forall job :: job in s.slots ==> s.slots[job].Answer? && Answers(s, job, s.slots[job]))
  }

  ghost predicate Inv(s: State) {
    && |s.workers| > 0 && |s.queue| <= s.capacity
    && Tokens(s) && LogOk(s) && PoolOk(s)
    && (forall c :: c in s.conns ==> ConnOk(s, c))
  }

  lemma InitInv(configuredWorkers: int, capacity: nat)
    ensures Inv(Init(configuredWorkers, capacity))
  {
    NoJobs(Init(configuredWorkers, capacity).workers);
  }

  lemma {:induction false} NoJobs(workers: seq<Worker>)
    requires forall w :: 0 <= w < |workers| ==> workers[w] == Idle
    ensures JobsIn(workers) == multiset{}
  {
    if workers == [] {
    } else {
      NoJobs(workers[..|workers| - 1]);
    }
  }

  // ---------- every step keeps the invariant ----------

  lemma TokenEnqueue(s: State, c: nat, job: Job)
    requires Token(s, job) && Enabled(s, Enqueue(c))
    ensures Token(Do(s, Enqueue(c)), job)
  {
  }

  lemma HireOne(workers: seq<Worker>, w: nat, hired: Job, job: Job)
    requires w < |workers| && workers[w] == Idle
    ensures JobsIn(workers[w := Serving(hired)])[job] == JobsIn(workers)[job] + if job == hired then 1 else 0
  {
    JobsInUpdate(workers, w, Serving(hired), job);
  }

  lemma HeadOut(queue: seq<Job>, job: Job)
    requires queue != []
    ensures multiset(queue)[job] == multiset(queue[1..])[job] + if job == queue[0] then 1 else 0
  {
    assert queue == [queue[0]] + queue[1..];
  }

  lemma TokenHandOff(s: State, c: nat, w: nat, job: Job)
    requires Token(s, job) && Enabled(s, HandOff(c, w))
    ensures Token(Do(s, HandOff(c, w)), job)
  {
    HireOne(s.workers, w, Job(c, s.conns[c].read), job);
  }

  lemma TokenTake(s: State, w: nat, job: Job)
    requires Token(s, job) && Enabled(s, Take(w))
    ensures Token(Do(s, Take(w)), job)
  {
    HireOne(s.workers, w, s.queue[0], job);
    HeadOut(s.queue, job);
  }

  lemma TokenExecute(s: State, w: nat, outcome: string, job: Job)
    requires Token(s, job) && Enabled(s, Execute(w, outcome))
    ensures Token(Do(s, Execute(w, outcome)), job)
  {
    KeepOne(s.workers, w, Do(s, Execute(w, outcome)).workers[w], job);
  }

  lemma KeepOne(workers: seq<Worker>, w: nat, x: Worker, job: Job)
    requires w < |workers| && workers[w] != Idle && x != Idle && x.job == workers[w].job
    ensures JobsIn(workers[w := x])[job] == JobsIn(workers)[job]
  {
    JobsInUpdate(workers, w, x, job);
  }

  lemma TokenSend(s: State, w: nat, job: Job)
    requires Token(s, job) && Enabled(s, Send(w))
    ensures Token(Do(s, Send(w)), job)
  {
    FreeOne(s.workers, w, job);
  }

  lemma FreeOne(workers: seq<Worker>, w: nat, job: Job)
    requires w < |workers| && workers[w] != Idle
    ensures JobsIn(workers[w := Idle])[job] + (if job == workers[w].job then 1 else 0) == JobsIn(workers)[job]
  {
    JobsInUpdate(workers, w, Idle, job);
  }

  lemma TokenReceive(s: State, c: nat, job: Job)
    requires Token(s, job) && Enabled(s, Receive(c))
    ensures Token(Do(s, Receive(c)), job)
  {
  }

  lemma TokenElse(s: State, step: Step, job: Job)
    requires Token(s, job) && Enabled(s, step)
    requires step.Connect? || step.Post? || step.Refuse? || step.TurnAway? || step.Write? || step.Hangup?
    ensures Token(Do(s, step), job)
  {
    var t := Do(s, step);
    assert t.queue == s.queue && t.workers == s.workers && t.slots == s.slots;
    assert Awaited(t, job) == Awaited(s, job);
  }

  lemma TokensStep(s: State, step: Step)
    requires Tokens(s) && Enabled(s, step)
    ensures Tokens(Do(s, step))
  {
    forall job ensures Token(Do(s, step), job) {
      match step {
        case Enqueue(c) => TokenEnqueue(s, c, job);
        case HandOff(c, w) => TokenHandOff(s, c, w, job);
        case Take(w) => TokenTake(s, w, job);
        case Execute(w, outcome) => TokenExecute(s, w, outcome, job);
        case Send(w) => TokenSend(s, w, job);
        case Receive(c) => TokenReceive(s, c, job);
        case _ => TokenElse(s, step, job);
      }
    }
  }

  /** Connections only grow, the log only grows, and only jobs waited for are executed. */
  ghost predicate Extends(s: State, t: State) {
    && (forall c :: c in s.conns ==>
          && c in t.conns && s.conns[c].posted <= t.conns[c].posted
          && s.conns[c].read <= t.conns[c].read <= |t.conns[c].posted|)
    && s.log <= t.log
    && (forall job :: Ran(t, job) && !Ran(s, job) ==> job in WaitingJobs(s))
  }

  lemma AnswersKept(s: State, t: State, job: Job, resp: Response)
    requires Extends(s, t) && Answers(s, job, resp)
    requires resp.Answer? || job !in WaitingJobs(s)
    ensures Answers(t, job, resp)
  {
  }

  lemma HeldJobs(s: State, job: Job)
    requires Inv(s)
    requires job in s.queue || job in JobsIn(s.workers) || job in s.slots
    ensures job in WaitingJobs(s) && Known(s, job)
    ensures Places(s, job) == 1
  {
    assert Token(s, job);
    assert Places(s, job) > 0;
  }

  lemma ExecuteExtends(s: State, w: nat, outcome: string)
    requires Inv(s) && Enabled(s, Execute(w, outcome))
    ensures Extends(s, Do(s, Execute(w, outcome)))
  {
    var t := Do(s, Execute(w, outcome));
    JobsInHas(s.workers, w);
    HeldJobs(s, s.workers[w].job);
    forall job | Ran(t, job) && !Ran(s, job) ensures job in WaitingJobs(s) {
      var i :| 0 <= i < |t.log| && t.log[i].job == job;
      assert t.log == s.log + [Execution(s.workers[w].job, outcome)];
    }
  }

  ghost predicate Bounded(s: State) {
    forall c :: c in s.conns ==> s.conns[c].read <= |s.conns[c].posted|
  }

  lemma StepExtends(s: State, step: Step)
    requires Bounded(s) && Enabled(s, step) && !step.Execute?
    ensures Extends(s, Do(s, step)) && Do(s, step).log == s.log
  {
    var t := Do(s, step);
    assert t.log == s.log;
    assert forall job :: Ran(t, job) ==> Ran(s, job);
  }

  /** Connections that did not move are still in order. */
  lemma ConnKept(s: State, t: State, c: nat)
    requires Extends(s, t) && c in s.conns && ConnOk(s, c) && t.conns[c] == s.conns[c]
    ensures ConnOk(t, c)
  {
    var k := s.conns[c];
    if k.handler.Replying? {
      AnswersKept(s, t, Job(c, k.read - 1), k.handler.resp);
    }
    forall i | 0 <= i < |k.sent| ensures Answers(t, Job(c, k.sent[i].index), k.sent[i].resp) {
      AnswersKept(s, t, Job(c, k.sent[i].index), k.sent[i].resp);
    }
  }

  /** What was sent on a connection stays in order when its handler moves on. */
  lemma SentKept(s: State, t: State, c: nat)
    requires Extends(s, t) && c in s.conns && ConnOk(s, c) && t.conns[c].sent == s.conns[c].sent
    requires Settled(s.conns[c]) <= Settled(t.conns[c])
    ensures var k := t.conns[c];
      && (forall i :: 0 <= i < |k.sent| ==>
            k.sent[i].index < Settled(k) && Answers(t, Job(c, k.sent[i].index), k.sent[i].resp))
      && (forall i, j :: 0 <= i < j < |k.sent| ==> k.sent[i].index < k.sent[j].index)
  {
    var k := s.conns[c];
    forall i | 0 <= i < |k.sent| ensures Answers(t, Job(c, k.sent[i].index), k.sent[i].resp) {
      AnswersKept(s, t, Job(c, k.sent[i].index), k.sent[i].resp);
    }
  }

  lemma LogKept(s: State, t: State)
    requires Extends(s, t) && LogOk(s) && t.log == s.log
    ensures LogOk(t)
  {
  }

  lemma PoolKept(s: State, t: State)
    requires Extends(s, t) && PoolOk(s) && t.log == s.log
    requires forall i :: 0 <= i < |t.queue| ==> t.queue[i] in s.queue || !Ran(s, t.queue[i])
    requires forall w :: 0 <= w < |t.workers| ==>
      t.workers[w] in s.workers || t.workers[w] == Idle || (t.workers[w].Serving? && !Ran(s, t.workers[w].job))
    requires forall job :: job in t.slots ==>
      (job in s.slots && t.slots[job] == s.slots[job]) || Sending(job, t.slots[job]) in s.workers
    ensures PoolOk(t)
  {
    forall w | 0 <= w < |t.workers| && t.workers[w].Sending?
      ensures t.workers[w].resp.Answer? && Answers(t, t.workers[w].job, t.workers[w].resp)
    {
      var v :| 0 <= v < |s.workers| && s.workers[v] == t.workers[w];
      AnswersKept(s, t, t.workers[w].job, t.workers[w].resp);
    }
    forall job | job in t.slots ensures t.slots[job].Answer? && Answers(t, job, t.slots[job]) {
      if job in s.slots && t.slots[job] == s.slots[job] {
        AnswersKept(s, t, job, t.slots[job]);
      } else {
        var v :| 0 <= v < |s.workers| && s.workers[v] == Sending(job, t.slots[job]);
        AnswersKept(s, t, job, t.slots[job]);
      }
    }
    forall w | 0 <= w < |t.workers| && t.workers[w].Serving? ensures !Ran(t, t.workers[w].job) {
      if t.workers[w] in s.workers {
        var v :| 0 <= v < |s.workers| && s.workers[v] == t.workers[w];
      }
    }
  }

  /** A frame that has just been read has not been executed. */
  lemma Unread(s: State, t: State, c: nat)
    requires LogOk(s) && t.log == s.log && c in s.conns
    ensures !Ran(t, Job(c, s.conns[c].read))
  {
  }

  lemma ReadConn(s: State, step: Step)
    requires Enabled(s, step) && (step.Refuse? || step.Enqueue? || step.HandOff? || step.TurnAway?)
    requires LogOk(s) && ConnOk(s, step.conn)
    requires Extends(s, Do(s, step)) && Do(s, step).log == s.log
    ensures ConnOk(Do(s, step), step.conn)
  {
    var t := Do(s, step);
    Unread(s, t, step.conn);
    SentKept(s, t, step.conn);
  }

  lemma PostConn(s: State, c: nat, f: Frame)
    requires Enabled(s, Post(c, f)) && ConnOk(s, c) && Extends(s, Do(s, Post(c, f)))
    ensures ConnOk(Do(s, Post(c, f)), c)
  {
    var t, k := Do(s, Post(c, f)), s.conns[c];
    assert ConnOk(s, c);
    SentKept(s, t, c);
    if k.handler.Replying? {
      AnswersKept(s, t, Job(c, k.read - 1), k.handler.resp);
    }
  }

  lemma ReceiveConn(s: State, c: nat)
    requires Enabled(s, Receive(c)) && ConnOk(s, c) && PoolOk(s) && Extends(s, Do(s, Receive(c)))
    ensures ConnOk(Do(s, Receive(c)), c)
  {
    var t, job := Do(s, Receive(c)), Job(c, s.conns[c].read - 1);
    assert ConnOk(s, c);
    SentKept(s, t, c);
    AnswersKept(s, t, job, s.slots[job]);
  }

  lemma WriteConn(s: State, c: nat, delivered: bool)
    requires Enabled(s, Write(c, delivered)) && ConnOk(s, c) && Extends(s, Do(s, Write(c, delivered)))
    ensures ConnOk(Do(s, Write(c, delivered)), c)
  {
    var t, k, k' := Do(s, Write(c, delivered)), s.conns[c], Do(s, Write(c, delivered)).conns[c];
    assert ConnOk(s, c);
    AnswersKept(s, t, Job(c, k.read - 1), k.handler.resp);
    forall i | 0 <= i < |k'.sent|
      ensures k'.sent[i].index < k'.read && Answers(t, Job(c, k'.sent[i].index), k'.sent[i].resp)
    {
      if i < |k.sent| {
        AnswersKept(s, t, Job(c, k.sent[i].index), k.sent[i].resp);
      }
    }
  }

  lemma HangupConn(s: State, c: nat)
    requires Enabled(s, Hangup(c)) && ConnOk(s, c) && Extends(s, Do(s, Hangup(c)))
    ensures ConnOk(Do(s, Hangup(c)), c)
  {
    assert ConnOk(s, c);
    SentKept(s, Do(s, Hangup(c)), c);
  }

  /** The connection that moved is the one the step names. */
  lemma ConnFrame(s: State, step: Step, c: nat)
    requires Enabled(s, step) && c in Do(s, step).conns && !(c in s.conns && Do(s, step).conns[c] == s.conns[c])
    ensures !step.Take? && !step.Execute? && !step.Send? && c == step.conn
  {
  }

  lemma ConnMoved(s: State, step: Step, c: nat)
    requires Enabled(s, step) && Extends(s, Do(s, step)) && (step.Execute? || Do(s, step).log == s.log)
    requires LogOk(s) && PoolOk(s) && c in Do(s, step).conns && (c in s.conns ==> ConnOk(s, c))
    requires !step.Take? && !step.Execute? && !step.Send? && c == step.conn
    ensures ConnOk(Do(s, step), c)
  {
    match step
    case Connect(_) =>
    case Post(_, f) => PostConn(s, c, f);
    case Receive(_) => ReceiveConn(s, c);
    case Write(_, delivered) => WriteConn(s, c, delivered);
    case Hangup(_) => HangupConn(s, c);
    case _ => ReadConn(s, step);
  }

  lemma ConnsStep(s: State, step: Step)
    requires Enabled(s, step) && Extends(s, Do(s, step)) && (step.Execute? || Do(s, step).log == s.log)
    requires LogOk(s) && PoolOk(s) && forall c :: c in s.conns ==> ConnOk(s, c)
    ensures forall c :: c in Do(s, step).conns ==> ConnOk(Do(s, step), c)
  {
    var t := Do(s, step);
    forall c | c in t.conns ensures ConnOk(t, c) {
      if c in s.conns && t.conns[c] == s.conns[c] {
        ConnKept(s, t, c);
      } else {
        ConnFrame(s, step, c);
        ConnMoved(s, step, c);
      }
    }
  }

  lemma PoolStep(s: State, step: Step)
    requires LogOk(s) && PoolOk(s) && Enabled(s, step) && !step.Execute? && Extends(s, Do(s, step))
    requires Do(s, step).log == s.log
    ensures LogOk(Do(s, step)) && PoolOk(Do(s, step))
  {
    var t := Do(s, step);
    LogKept(s, t);
    match step {
      case Enqueue(c) => Unread(s, s, c);
      case HandOff(c, _) => Unread(s, s, c);
      case Take(w) => assert !Ran(s, s.queue[0]);
      case Send(w) => assert s.workers[w] in s.workers;
      case _ =>
    }
    PoolKept(s, t);
  }

  /** A served job is in no other place. */
  ghost predicate Sole(s: State, w: nat)
    requires w < |s.workers| && s.workers[w].Serving?
  {
    && (forall i :: 0 <= i < |s.queue| ==> s.queue[i] != s.workers[w].job)
    && (forall v :: 0 <= v < |s.workers| && v != w && s.workers[v] != Idle ==> s.workers[v].job != s.workers[w].job)
  }

  lemma ServedIsSole(s: State, w: nat)
    requires Inv(s) && w < |s.workers| && s.workers[w].Serving?
    ensures Sole(s, w)
  {
    var job := s.workers[w].job;
    JobsInHas(s.workers, w);
    HeldJobs(s, job);
    forall i | 0 <= i < |s.queue| ensures s.queue[i] != job {
      assert s.queue[i] in multiset(s.queue);
    }
    forall v | 0 <= v < |s.workers| && v != w && s.workers[v] != Idle ensures s.workers[v].job != job {
      if s.workers[v].job == job {
        HeldTwice(s.workers, if v < w then v else w, if v < w then w else v, job);
      }
    }
  }

  lemma ExecuteStep(s: State, w: nat, outcome: string)
    requires Enabled(s, Execute(w, outcome)) && Extends(s, Do(s, Execute(w, outcome)))
    requires LogOk(s) && PoolOk(s) && Sole(s, w)
    ensures LogOk(Do(s, Execute(w, outcome))) && PoolOk(Do(s, Execute(w, outcome)))
  {
    var t, job := Do(s, Execute(w, outcome)), s.workers[w].job;
    assert t.log == s.log + [Execution(job, outcome)];
    assert !Ran(s, job);
    forall v | 0 <= v < |t.workers| && t.workers[v].Sending?
      ensures t.workers[v].resp.Answer? && Answers(t, t.workers[v].job, t.workers[v].resp)
    {
      if v != w {
        AnswersKept(s, t, t.workers[v].job, t.workers[v].resp);
      }
    }
    forall j | j in t.slots ensures t.slots[j].Answer? && Answers(t, j, t.slots[j]) {
      AnswersKept(s, t, j, t.slots[j]);
    }
  }

  lemma HeldOnce(workers: seq<Worker>, w: nat, job: Job)
    requires w < |workers| && workers[w] != Idle && workers[w].job == job
    ensures JobsIn(workers)[job] >= 1
  {
    JobsInHas(workers, w);
    assert JobOf(workers[w])[job] == 1;
  }

  lemma JobsInLast(workers: seq<Worker>, job: Job)
    requires workers != []
    ensures var front, last := workers[..|workers| - 1], workers[|workers| - 1];
      JobsIn(workers)[job] == JobsIn(front)[job] + if last != Idle && last.job == job then 1 else 0
  {
  }

  /** Two workers that hold the same job count it twice. */
  lemma {:induction false} HeldTwice(workers: seq<Worker>, v: nat, w: nat, job: Job)
    requires v < w < |workers| && workers[v] != Idle && workers[w] != Idle
    requires workers[v].job == job && workers[w].job == job
    ensures JobsIn(workers)[job] >= 2
  {
    var front := workers[..|workers| - 1];
    JobsInLast(workers, job);
    if w == |workers| - 1 {
      HeldOnce(front, v, job);
    } else {
      HeldTwice(front, v, w, job);
    }
  }

  lemma StepKeepsInv(s: State, step: Step)
    requires Inv(s) && Enabled(s, step)
    ensures Inv(Do(s, step))
  {
    TokensStep(s, step);
    if step.Execute? {
      ExecuteExtends(s, step.worker, step.outcome);
      ServedIsSole(s, step.worker);
      ExecuteStep(s, step.worker, step.outcome);
    } else {
      assert forall c :: c in s.conns ==> ConnOk(s, c);
      StepExtends(s, step);
      PoolStep(s, step);
    }
    ConnsStep(s, step);
  }

  // ---------- runs ----------

  ghost predicate ValidRun(s: State, steps: seq<Step>)
    decreases |steps|
  {
    steps == [] || (Enabled(s, steps[0]) && ValidRun(Do(s, steps[0]), steps[1..]))
  }

  ghost function After(s: State, steps: seq<Step>): State
    requires ValidRun(s, steps)
    decreases |steps|
  {
    if steps == [] then s else After(Do(s, steps[0]), steps[1..])
  }

  /** Every state of every run satisfies the invariant. */
  lemma {:induction false} RunKeepsInv(s: State, steps: seq<Step>)
    requires Inv(s) && ValidRun(s, steps)
    ensures Inv(After(s, steps))
    decreases |steps|
  {
    if steps == [] {
    } else {
      StepKeepsInv(s, steps[0]);
      RunKeepsInv(Do(s, steps[0]), steps[1..]);
    }
  }

  /** Replies are only ever appended. */
  lemma {:induction false} RunKeepsSent(s: State, steps: seq<Step>, c: nat)
    requires ValidRun(s, steps) && c in s.conns
    ensures c in After(s, steps).conns && s.conns[c].sent <= After(s, steps).conns[c].sent
    decreases |steps|
  {
    if steps == [] {
    } else {
      RunKeepsSent(Do(s, steps[0]), steps[1..], c);
    }
  }

  /** Own answer, in request order, at most once: in every reachable state, what
      was sent on a connection answers its requests one by one, and no request
      is executed twice. */
  lemma OwnAnswers(workers: int, capacity: nat, steps: seq<Step>, c: nat)
    requires ValidRun(Init(workers, capacity), steps)
    requires c in After(Init(workers, capacity), steps).conns
    ensures
      var t := After(Init(workers, capacity), steps);
      var sent := t.conns[c].sent;
      && (forall i :: 0 <= i < |sent| ==> Answers(t, Job(c, sent[i].index), sent[i].resp))
      && (forall i, j :: 0 <= i < j < |sent| ==> sent[i].index < sent[j].index)
      && (forall i, j :: 0 <= i < j < |t.log| ==> t.log[i].job != t.log[j].job)
  {
    InitInv(workers, capacity);
    RunKeepsInv(Init(workers, capacity), steps);
    assert ConnOk(After(Init(workers, capacity), steps), c);
  }

  /** The request was read and is not, or no longer, waited for. */
  predicate Over(s: State, job: Job) {
    job.conn in s.conns && job.index < s.conns[job.conn].read && !Awaited(s, job)
  }

  lemma StepKeepsOver(s: State, step: Step, job: Job)
    requires Enabled(s, step) && Over(s, job)
    ensures Over(Do(s, step), job)
  {
  }

  /** What is over and was not executed never will be. */
  lemma {:induction false} NeverRuns(s: State, steps: seq<Step>, job: Job)
    requires Inv(s) && ValidRun(s, steps) && Over(s, job) && !Ran(s, job)
    ensures !Ran(After(s, steps), job)
    decreases |steps|
  {
    if steps == [] {
    } else {
      var t := Do(s, steps[0]);
      StepKeepsInv(s, steps[0]);
      StepKeepsOver(s, steps[0], job);
      if steps[0].Execute? {
        ExecuteExtends(s, steps[0].worker, steps[0].outcome);
      } else {
        assert forall c :: c in s.conns ==> ConnOk(s, c);
        StepExtends(s, steps[0]);
      }
      NeverRuns(t, steps[1..], job);
    }
  }

  /** A request turned away as server_busy is never executed, however the run goes on and
      whether or not the reply can be delivered. */
  lemma BusyIsFinal(s: State, c: nat, steps: seq<Step>)
    requires Inv(s) && Enabled(s, TurnAway(c)) && ValidRun(Do(s, TurnAway(c)), steps)
    ensures !Ran(After(Do(s, TurnAway(c)), steps), Job(c, s.conns[c].read))
  {
    var t, job := Do(s, TurnAway(c)), Job(c, s.conns[c].read);
    StepKeepsInv(s, TurnAway(c));
    Unread(s, t, c);
    NeverRuns(t, steps, job);
  }

  /** So a client that is told server_busy can rely on it. */
  lemma BusyReplyIsFinal(s: State, steps: seq<Step>, c: nat, i: nat)
    requires Inv(s) && ValidRun(s, steps) && c in s.conns && i < |s.conns[c].sent| && s.conns[c].sent[i].resp.Busy?
    ensures !Ran(After(s, steps), Job(c, s.conns[c].sent[i].index))
  {
    var t := After(s, steps);
    RunKeepsInv(s, steps);
    RunKeepsSent(s, steps, c);
    assert t.conns[c].sent[i] == s.conns[c].sent[i];
    assert ConnOk(t, c);
  }

  /** A client that sends one request on its own connection and reads one response
      reads the response to that request, without looking at its request id. */
  lemma OneShotCall(s: State, c: nat)
    requires Inv(s) && c in s.conns && |s.conns[c].posted| == 1 && s.conns[c].sent != []
    ensures |s.conns[c].sent| == 1 && s.conns[c].sent[0].index == 0
    ensures Answers(s, Job(c, 0), s.conns[c].sent[0].resp)
    ensures s.conns[c].posted[0].Request? ==> s.conns[c].sent[0].resp.requestId == s.conns[c].posted[0].id
  {
    var k := s.conns[c];
    assert ConnOk(s, c);
    assert |k.sent| > 1 ==> k.sent[0].index < k.sent[1].index;
  }

  // ---------- everybody is answered ----------

  /** Replies on a connection that could not be delivered. */
  function Lost(steps: seq<Step>, c: nat): nat {
    if steps == [] then 0 else LostBy(steps[0], c) + Lost(steps[1..], c)
  }

  function LostBy(step: Step, c: nat): nat {
    if step == Write(c, false) then 1 else 0
  }

  /** Replies delivered and replies lost are all the requests that are over. */
  predicate Replied(s: State, c: nat, lost: nat) {
    if c in s.conns then |s.conns[c].sent| + lost == Settled(s.conns[c]) else lost == 0
  }

  lemma StepReplies(s: State, step: Step, c: nat, lost: nat)
    requires Enabled(s, step) && Replied(s, c, lost)
    ensures Replied(Do(s, step), c, lost + LostBy(step, c))
  {
  }

  lemma {:induction false} RunReplies(s: State, steps: seq<Step>, c: nat, lost: nat)
    requires ValidRun(s, steps) && Replied(s, c, lost)
    ensures Replied(After(s, steps), c, lost + Lost(steps, c))
    decreases |steps|
  {
    if steps == [] {
    } else {
      StepReplies(s, steps[0], c, lost);
      RunReplies(Do(s, steps[0]), steps[1..], c, lost + LostBy(steps[0], c));
    }
  }

  lemma {:induction false} AtLeast(sent: seq<Reply>, i: nat)
    requires i < |sent| && forall a, b :: 0 <= a < b < |sent| ==> sent[a].index < sent[b].index
    ensures sent[i].index >= i
  {
    if i == 0 {
    } else {
      AtLeast(sent, i - 1);
    }
  }

  lemma {:induction false} AtMost(sent: seq<Reply>, i: nat)
    requires i < |sent| && forall a, b :: 0 <= a < b < |sent| ==> sent[a].index < sent[b].index
    requires forall a :: 0 <= a < |sent| ==> sent[a].index < |sent|
    ensures sent[i].index <= i
    decreases |sent| - i
  {
    if i == |sent| - 1 {
    } else {
      AtMost(sent, i + 1);
    }
  }

  /** No request is left unanswered: in every reachable state the replies sent on a connection and those that could
      not be delivered are as many as the requests that are over, and if none was lost the `i`-th
      reply answers the `i`-th request. */
  lemma AllAnswered(workers: int, capacity: nat, steps: seq<Step>, c: nat)
    requires ValidRun(Init(workers, capacity), steps)
    requires c in After(Init(workers, capacity), steps).conns
    ensures var k := After(Init(workers, capacity), steps).conns[c];
      && |k.sent| + Lost(steps, c) == Settled(k)
      && (k.handler == Reading || k.handler == Closed ==> |k.sent| + Lost(steps, c) == k.read)
      && (Lost(steps, c) == 0 ==> forall i :: 0 <= i < |k.sent| ==> k.sent[i].index == i)
  {
    var s := Init(workers, capacity);
    RunReplies(s, steps, c, 0);
    InitInv(workers, capacity);
    RunKeepsInv(s, steps);
    var k := After(s, steps).conns[c];
    assert ConnOk(After(s, steps), c);
    if Lost(steps, c) == 0 {
      forall i | 0 <= i < |k.sent| ensures k.sent[i].index == i {
        AtLeast(k.sent, i);
        AtMost(k.sent, i);
      }
    }
  }

  /** A handler that has a frame to read can always go on: refuse it, enqueue it if there
      is room, or else turn it away. */
  lemma HandlerNeverBlocks(s: State, c: nat)
    requires CanRead(s, c)
    ensures var frame := s.conns[c].posted[s.conns[c].read];
      && (Enabled(s, Refuse(c)) <==> frame == Malformed)
      && (Enabled(s, Enqueue(c)) <==> frame != Malformed && |s.queue| < s.capacity)
      && (Enabled(s, TurnAway(c)) <==> frame != Malformed && |s.queue| >= s.capacity)
      && (forall w :: 0 <= w < |s.workers| ==>
            (Enabled(s, HandOff(c, w)) <==> frame != Malformed && s.queue == [] && s.workers[w] == Idle))
  {
  }

  /** Clients may send at any time, and a reply may be delivered or lost whenever there is one. */
  lemma ClientsAreFree(s: State, c: nat, f: Frame, delivered: bool)
    requires Inv(s) && c in s.conns
    ensures Enabled(s, Post(c, f))
    ensures Enabled(s, Write(c, delivered)) <==> s.conns[c].handler.Replying?
  {
    assert ConnOk(s, c);
  }

  /** As many workers as configured, but at least one, all idle at the start. */
  lemma PoolSize(configured: int, capacity: nat)
    ensures var s := Init(configured, capacity);
      && |s.workers| >= 1 && (configured >= 1 ==> |s.workers| == configured) && (configured < 1 ==> |s.workers| == 1)
      && s.capacity == capacity && forall w :: 0 <= w < |s.workers| ==> s.workers[w] == Idle
  {
  }

  /** Nothing is read or sent any more. */
  lemma {:induction false} HangupIsFinal(s: State, c: nat, steps: seq<Step>)
    requires c in s.conns && s.conns[c].handler == Closed && ValidRun(s, steps)
    ensures c in After(s, steps).conns
    ensures After(s, steps).conns[c] == s.conns[c].(posted := After(s, steps).conns[c].posted)
    decreases |steps|
  {
    if steps == [] {
    } else {
      ClosedStep(s, steps[0], c);
      HangupIsFinal(Do(s, steps[0]), c, steps[1..]);
    }
  }

  lemma ClosedStep(s: State, step: Step, c: nat)
    requires c in s.conns && s.conns[c].handler == Closed && Enabled(s, step)
    ensures c in Do(s, step).conns && Do(s, step).conns[c] == s.conns[c].(posted := Do(s, step).conns[c].posted)
  {
  }

  /** A connection the handler gives up stays as it is for the rest of the run. */
  lemma AfterHangup(s: State, c: nat, steps: seq<Step>)
    requires Enabled(s, Hangup(c)) && ValidRun(Do(s, Hangup(c)), steps)
    ensures var k := After(Do(s, Hangup(c)), steps).conns;
      c in k && k[c].handler == Closed && k[c].read == s.conns[c].read && k[c].sent == s.conns[c].sent
  {
    HangupIsFinal(Do(s, Hangup(c)), c, steps);
  }

  /** A request from start to end, on its own connection while a worker is idle: it is executed once and
      its sender gets the outcome under its own request id; nothing else changes. */
  lemma ServedAlone(s: State, c: nat, id: string, op: string, w: nat, outcome: string)
    requires c !in s.conns && s.queue == [] && s.capacity > 0 && w < |s.workers| && s.workers[w] == Idle
    requires Job(c, 0) !in s.slots
    ensures var steps := Exchange(c, id, op, w, outcome);
      && ValidRun(s, steps)
      && After(s, steps) == s.(
           conns := s.conns[c := Conn([Request(id, op)], 1, Reading, [Reply(0, Answer(id, outcome))])],
           log := s.log + [Execution(Job(c, 0), outcome)])
  {
    var first := [Connect(c), Post(c, Request(id, op)), Enqueue(c), Take(w)];
    var t := Submitted(s, c, id, op, w);
    Answered(s, t, c, id, op, w, outcome);
    assert Exchange(c, id, op, w, outcome) == first + [Execute(w, outcome), Send(w), Receive(c), Write(c, true)];
    RunAppends(s, first, [Execute(w, outcome), Send(w), Receive(c), Write(c, true)]);
  }

  function Exchange(c: nat, id: string, op: string, w: nat, outcome: string): seq<Step> {
    [Connect(c), Post(c, Request(id, op)), Enqueue(c), Take(w)]
    + [Execute(w, outcome), Send(w), Receive(c), Write(c, true)]
  }

  lemma Submitted(s: State, c: nat, id: string, op: string, w: nat) returns (t: State)
    requires c !in s.conns && s.queue == [] && s.capacity > 0 && w < |s.workers| && s.workers[w] == Idle
    ensures var steps := [Connect(c), Post(c, Request(id, op)), Enqueue(c), Take(w)];
      ValidRun(s, steps) && After(s, steps) == t
    ensures t == s.(conns := s.conns[c := Conn([Request(id, op)], 1, Waiting, [])],
                    workers := s.workers[w := Serving(Job(c, 0))])
  {
    var s1 := Do(s, Connect(c));
    var s2 := Do(s1, Post(c, Request(id, op)));
    assert s2.conns[c].posted == [Request(id, op)];
    var s3 := Do(s2, Enqueue(c));
    t := Do(s3, Take(w));
    assert t.queue == [];
    RunOf4(s, Connect(c), Post(c, Request(id, op)), Enqueue(c), Take(w));
  }

  lemma Answered(s: State, t: State, c: nat, id: string, op: string, w: nat, outcome: string)
    requires c !in s.conns && w < |s.workers| && s.workers[w] == Idle && Job(c, 0) !in s.slots
    requires t == s.(conns := s.conns[c := Conn([Request(id, op)], 1, Waiting, [])],
                     workers := s.workers[w := Serving(Job(c, 0))])
    ensures var steps := [Execute(w, outcome), Send(w), Receive(c), Write(c, true)];
      && ValidRun(t, steps)
      && After(t, steps) == s.(
           conns := s.conns[c := Conn([Request(id, op)], 1, Reading, [Reply(0, Answer(id, outcome))])],
           log := s.log + [Execution(Job(c, 0), outcome)])
  {
    var t1 := Do(t, Execute(w, outcome));
    var t2 := Do(t1, Send(w));
    assert t2.workers == s.workers;
    var t3 := Do(t2, Receive(c));
    assert t3.slots == s.slots;
    var t4 := Do(t3, Write(c, true));
    var done := Conn([Request(id, op)], 1, Reading, [Reply(0, Answer(id, outcome))]);
    assert t4.conns[c].sent == [Reply(0, Answer(id, outcome))] && t4.conns[c] == done;
    assert t4.conns == s.conns[c := done];
    RunOf4(t, Execute(w, outcome), Send(w), Receive(c), Write(c, true));
  }

  lemma RunCons(s: State, a: Step, rest: seq<Step>)
    requires Enabled(s, a) && ValidRun(Do(s, a), rest)
    ensures ValidRun(s, [a] + rest) && After(s, [a] + rest) == After(Do(s, a), rest)
  {
    assert ([a] + rest)[1..] == rest;
  }

  lemma RunOf4(s: State, a: Step, b: Step, c: Step, d: Step)
    requires Enabled(s, a) && Enabled(Do(s, a), b) && Enabled(Do(Do(s, a), b), c)
    requires Enabled(Do(Do(Do(s, a), b), c), d)
    ensures ValidRun(s, [a, b, c, d]) && After(s, [a, b, c, d]) == Do(Do(Do(Do(s, a), b), c), d)
  {
    var s1 := Do(s, a);
    var s2 := Do(s1, b);
    var s3 := Do(s2, c);
    RunCons(s3, d, []);
    RunCons(s2, c, [d] + []);
    RunCons(s1, b, [c] + ([d] + []));
    RunCons(s, a, [b] + ([c] + ([d] + [])));
    assert [a, b, c, d] == [a] + ([b] + ([c] + ([d] + [])));
  }

  lemma {:induction false} RunAppends(s: State, steps: seq<Step>, more: seq<Step>)
    requires ValidRun(s, steps) && ValidRun(After(s, steps), more)
    ensures ValidRun(s, steps + more) && After(s, steps + more) == After(After(s, steps), more)
    decreases |steps|
  {
    if steps == [] {
      assert steps + more == more;
    } else {
      RunAppends(Do(s, steps[0]), steps[1..], more);
      assert (steps + more)[1..] == steps[1..] + more;
    }
  }

  /** The jobs a run puts into the queue, in order. */
  ghost function Queued(s: State, steps: seq<Step>): seq<Job>
    requires ValidRun(s, steps)
    decreases |steps|
  {
    if steps == [] then []
    else
      var put := if steps[0].Enqueue? then [Job(steps[0].conn, s.conns[steps[0].conn].read)] else [];
      put + Queued(Do(s, steps[0]), steps[1..])
  }

  function Taken(steps: seq<Step>): nat {
    if steps == [] then 0 else (if steps[0].Take? then 1 else 0) + Taken(steps[1..])
  }

  /** First in, first out: over any run the queue is what was put in, less what was taken, from the front. */
  lemma {:induction false} QueueInOrder(s: State, steps: seq<Step>)
    requires ValidRun(s, steps)
    ensures Taken(steps) <= |s.queue + Queued(s, steps)|
    ensures After(s, steps).queue == (s.queue + Queued(s, steps))[Taken(steps)..]
    decreases |steps|
  {
    if steps == [] {
    } else {
      var t, step := Do(s, steps[0]), steps[0];
      QueueInOrder(t, steps[1..]);
      QueueStep(s, step);
      var later := Queued(t, steps[1..]);
      if step.Take? {
        TakenFirst(s.queue, later, Taken(steps[1..]));
      } else if step.Enqueue? {
        PutLast(s.queue, Job(step.conn, s.conns[step.conn].read), later);
      }
    }
  }

  lemma TakenFirst(queue: seq<Job>, later: seq<Job>, k: nat)
    requires queue != [] && k <= |queue[1..] + later|
    ensures k + 1 <= |queue + later| && (queue + later)[k + 1..] == (queue[1..] + later)[k..]
  {
    assert queue + later == [queue[0]] + (queue[1..] + later);
  }

  lemma PutLast(queue: seq<Job>, job: Job, later: seq<Job>)
    ensures queue + ([job] + later) == (queue + [job]) + later
  {
  }

  lemma QueueStep(s: State, step: Step)
    requires Enabled(s, step)
    ensures var q := Do(s, step).queue;
      if step.Enqueue? then q == s.queue + [Job(step.conn, s.conns[step.conn].read)]
      else if step.Take? then q == s.queue[1..]
      else q == s.queue
  {
  }

  // ---------- conservation and progress ----------

  function Load(w: Worker): nat {
    match w
    case Idle => 0
    case Serving(_) => 3
    case Sending(_, _) => 2
  }

  function Loads(workers: seq<Worker>): nat {
    if workers == [] then 0 else Loads(workers[..|workers| - 1]) + Load(workers[|workers| - 1])
  }

  lemma {:induction false} LoadsUpdate(workers: seq<Worker>, w: nat, x: Worker)
    requires w < |workers|
    ensures Loads(workers[w := x]) + Load(workers[w]) == Loads(workers) + Load(x)
  {
    var last := |workers| - 1;
    if w == last {
      assert workers[w := x][..last] == workers[..last];
    } else {
      LoadsUpdate(workers[..last], w, x);
      assert workers[w := x][..last] == workers[..last][w := x];
    }
  }

  /** Pool steps left until every waiting handler has its reply. */
  function Work(s: State): nat {
    4 * |s.queue| + Loads(s.workers) + |s.slots|
  }

  predicate Internal(step: Step) {
    step.Take? || step.Execute? || step.Send? || step.Receive?
  }

  /** Each internal step does exactly one unit of the work. */
  lemma InternalStepWorks(s: State, step: Step)
    requires Enabled(s, step) && Internal(step)
    ensures Work(Do(s, step)) == Work(s) - 1
  {
    var t := Do(s, step);
    match step {
      case Take(w) => LoadsUpdate(s.workers, w, Serving(s.queue[0]));
      case Execute(w, _) => LoadsUpdate(s.workers, w, t.workers[w]);
      case Send(w) => LoadsUpdate(s.workers, w, Idle);
      case Receive(c) => assert |s.slots| == |t.slots| + 1 by {
        var job := Job(c, s.conns[c].read - 1);
        assert s.slots.Keys == t.slots.Keys + {job};
      }
    }
  }

  function Occupied(workers: seq<Worker>): nat {
    if workers == [] then 0 else Occupied(workers[..|workers| - 1]) + if workers[|workers| - 1] == Idle then 0 else 1
  }

  lemma {:induction false} OccupiedIsJobs(workers: seq<Worker>)
    ensures |JobsIn(workers)| == Occupied(workers)
  {
    if workers == [] {
    } else {
      OccupiedIsJobs(workers[..|workers| - 1]);
    }
  }

  /** Waiting handlers = queued jobs + occupied workers + buffered replies. */
  lemma Conservation(s: State)
    requires Inv(s)
    ensures |WaitingJobs(s)| == |s.queue| + Occupied(s.workers) + |s.slots|
  {
    var places := multiset(s.queue) + JobsIn(s.workers) + multiset(s.slots.Keys);
    forall job ensures places[job] == multiset(WaitingJobs(s))[job] {
      assert Token(s, job);
    }
    assert places == multiset(WaitingJobs(s));
    OccupiedIsJobs(s.workers);
    assert |places| == |s.queue| + Occupied(s.workers) + |s.slots|;
  }

  /** The one-slot channel of a job is empty when its worker sends. */
  lemma SendNeverBlocks(s: State, w: nat)
    requires Inv(s) && w < |s.workers| && s.workers[w].Sending?
    ensures Enabled(s, Send(w))
  {
    JobsInHas(s.workers, w);
    HeldJobs(s, s.workers[w].job);
  }

  lemma {:induction false} SomeWorker(workers: seq<Worker>, job: Job) returns (w: nat)
    requires job in JobsIn(workers)
    ensures w < |workers| && workers[w] != Idle && workers[w].job == job
  {
    w := |workers| - 1;
    if job !in JobOf(workers[w]) {
      w := SomeWorker(workers[..w], job);
    }
  }

  lemma BusyWorkerCanStep(s: State, w: nat) returns (step: Step)
    requires Inv(s) && w < |s.workers| && s.workers[w] != Idle
    ensures Internal(step) && Enabled(s, step)
  {
    if s.workers[w].Sending? {
      SendNeverBlocks(s, w);
      step := Send(w);
    } else {
      JobsInHas(s.workers, w);
      HeldJobs(s, s.workers[w].job);
      step := Execute(w, "");
    }
  }

  /** No deadlock: while a handler waits, some internal step can be taken. */
  lemma Progress(s: State, job: Job) returns (step: Step)
    requires Inv(s) && job in WaitingJobs(s)
    ensures Internal(step) && Enabled(s, step)
  {
    assert Token(s, job);
    if job in s.slots {
      step := Receive(job.conn);
    } else if job in JobsIn(s.workers) {
      var w := SomeWorker(s.workers, job);
      step := BusyWorkerCanStep(s, w);
    } else if s.workers[0] == Idle {
      assert job in s.queue;
      step := Take(0);
    } else {
      step := BusyWorkerCanStep(s, 0);
    }
  }

  /** Without new arrivals, the internal steps come to an end after at most `Work`
      steps, and when they do nobody waits any more. */
  lemma {:induction false} Drains(s: State, steps: seq<Step>)
    requires Inv(s) && ValidRun(s, steps) && forall i :: 0 <= i < |steps| ==> Internal(steps[i])
    ensures |steps| <= Work(s)
    ensures (forall step :: Internal(step) ==> !Enabled(After(s, steps), step)) ==> WaitingJobs(After(s, steps)) == {}
    decreases |steps|
  {
    if steps == [] {
      if job :| job in WaitingJobs(s) {
        var step := Progress(s, job);
      }
    } else {
      InternalStepWorks(s, steps[0]);
      StepKeepsInv(s, steps[0]);
      Drains(Do(s, steps[0]), steps[1..]);
    }
  }
}
