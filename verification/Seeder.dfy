/**
 Seeding users: a producer hands out batch starts over a bounded channel, workers
 insert the batches and count what they inserted. Any schedule, any failures.
 */
module Seeder {
  import opened Decimal

  datatype Row = Row(nickname: string, secret: string)
  datatype SeedUser = SeedUser(username: string, row: Row)

  /** `produced`, `succeeded` and `failed` are history. */
  datatype State = State(count: int, batch: nat, channel: nat, next: nat, queue: seq<nat>, workers: seq<nat>,
                         done: nat, rows: map<string, Row>, produced: seq<nat>, succeeded: seq<nat>, failed: seq<nat>)

  /** A worker is idle (0) or holds the start of its batch, which is positive. */
  const IDLE := 0

  datatype Step =
    | Produce
    | Take(worker: nat)
    | Succeed(worker: nat, secrets: seq<string>)
    | Fail(worker: nat, effect: bool, secrets: seq<string>)

  function Init(count: int, batchSize: int, concurrency: int, rows: map<string, Row>): State {
    var workers := if concurrency <= 0 then 1 else concurrency;
    var batch := if batchSize <= 0 then 1000 else batchSize;
    State(count, batch, workers * 2, 1, [], seq(workers, _ => IDLE), 0, rows, [], [], [])
  }

  /** The defaults for what is not configured, and room for two batches per worker. */
  lemma SetUp(count: int, batchSize: int, concurrency: int, rows: map<string, Row>)
    ensures var s := Init(count, batchSize, concurrency, rows);
      && (concurrency >= 1 ==> |s.workers| == concurrency) && (concurrency < 1 ==> |s.workers| == 1)
      && (batchSize >= 1 ==> s.batch == batchSize) && (batchSize < 1 ==> s.batch == 1000)
      && s.channel == 2 * |s.workers| && s.rows == rows
  {
  }

  function Username(id: nat): string {
    "user" + Padded(id, 8)
  }

  function Nickname(id: nat): string {
    "User " + Padded(id, 8)
  }

  /** How many users the batch at `start` holds. */
  function Size(count: int, batch: nat, start: nat): nat {
    if count - start + 1 <= 0 then 0 else if batch < count - start + 1 then batch else count - start + 1
  }

  function UsersOf(start: nat, secrets: seq<string>): seq<SeedUser> {
    if secrets == [] then []
    else
      var i := |secrets| - 1;
      UsersOf(start, secrets[..i]) + [SeedUser(Username(start + i), Row(Nickname(start + i), secrets[i]))]
  }

  /** makeUsers; the salted hashes are the inputs. */
  method MakeUsers(start: nat, secrets: seq<string>) returns (users: seq<SeedUser>)
    ensures users == UsersOf(start, secrets)
    ensures |users| == |secrets| && forall i :: 0 <= i < |users| ==>
      users[i] == SeedUser(Username(start + i), Row(Nickname(start + i), secrets[i]))
  {
    users := [];
    for i := 0 to |secrets|
      invariant users == UsersOf(start, secrets[..i])
      invariant |users| == i
      invariant forall j :: 0 <= j < i ==>
        users[j] == SeedUser(Username(start + j), Row(Nickname(start + j), secrets[j]))
    {
      assert secrets[..i + 1][..i] == secrets[..i];
      users := users + [SeedUser(Username(start + i), Row(Nickname(start + i), secrets[i]))];
    }
    assert secrets[..|secrets|] == secrets;
  }

  /** INSERT ... ON DUPLICATE KEY UPDATE username = username: present rows stay as they are. */
  function Insert(rows: map<string, Row>, users: seq<SeedUser>): map<string, Row> {
    if users == [] then rows
    else
      var before, u := Insert(rows, users[..|users| - 1]), users[|users| - 1];
      if u.username in before then before else before[u.username := u.row]
  }

  lemma {:induction false} InsertKeeps(rows: map<string, Row>, users: seq<SeedUser>)
    ensures var after := Insert(rows, users);
      && (forall name :: name in rows ==> name in after && after[name] == rows[name])
      && (forall i :: 0 <= i < |users| ==> users[i].username in after)
      && (forall name :: name in after ==> name in rows || exists i :: 0 <= i < |users| && users[i].username == name)
      && ((forall i :: 0 <= i < |users| ==> users[i].username in rows) ==> after == rows)
  {
    if users == [] {
    } else {
      InsertKeeps(rows, users[..|users| - 1]);
    }
  }

  /** Each new user is stored with their own nickname and secret. */
  lemma {:induction false} InsertStores(rows: map<string, Row>, users: seq<SeedUser>)
    requires forall i, j :: 0 <= i < j < |users| ==> users[i].username != users[j].username
    ensures forall i :: 0 <= i < |users| && users[i].username !in rows ==>
      users[i].username in Insert(rows, users) && Insert(rows, users)[users[i].username] == users[i].row
  {
    if users == [] {
    } else {
      var n := |users| - 1;
      var front := users[..n];
      InsertStores(rows, front);
      InsertKeeps(rows, front);
      assert forall i :: 0 <= i < n ==> front[i] == users[i];
      assert users[n].username in Insert(rows, front) ==> users[n].username in rows;
    }
  }

  lemma {:induction false} UsersAt(start: nat, secrets: seq<string>)
    ensures var users := UsersOf(start, secrets);
      |users| == |secrets| && forall i :: 0 <= i < |users| ==>
        users[i].username == Username(start + i) && users[i].row == Row(Nickname(start + i), secrets[i])
  {
    if secrets == [] {
    } else {
      UsersAt(start, secrets[..|secrets| - 1]);
    }
  }

  /** A batch adds its own usernames and no others, and alters no row that was there. */
  lemma InsertAdds(rows: map<string, Row>, start: nat, secrets: seq<string>)
    ensures var after := Insert(rows, UsersOf(start, secrets));
      && (forall name :: name in rows ==> name in after && after[name] == rows[name])
      && (forall id :: start <= id < start + |secrets| ==> Username(id) in after)
      && (forall name :: name in after ==>
            name in rows || exists id :: start <= id < start + |secrets| && name == Username(id))
  {
    var users := UsersOf(start, secrets);
    InsertKeeps(rows, users);
    UsersAt(start, secrets);
    forall id | start <= id < start + |secrets| ensures Username(id) in Insert(rows, users) {
      assert users[id - start].username == Username(id);
    }
    forall name | name in Insert(rows, users) && name !in rows
      ensures exists id :: start <= id < start + |secrets| && name == Username(id)
    {
      var i :| 0 <= i < |users| && users[i].username == name;
      assert name == Username(start + i);
    }
  }

  /** What a batch stores for an id whose username is new. */
  lemma InsertedRow(rows: map<string, Row>, start: nat, secrets: seq<string>, id: nat)
    requires start <= id < start + |secrets| && Username(id) !in rows
    ensures var after := Insert(rows, UsersOf(start, secrets));
      Username(id) in after && after[Username(id)] == Row(Nickname(id), secrets[id - start])
  {
    var users := UsersOf(start, secrets);
    UsersAt(start, secrets);
    forall i, j | 0 <= i < j < |users| ensures users[i].username != users[j].username {
      if Username(start + i) == Username(start + j) {
        UsernameInjective(start + i, start + j);
      }
    }
    InsertStores(rows, users);
    assert users[id - start].username == Username(id);
  }

  lemma InsertPresent(rows: map<string, Row>, start: nat, secrets: seq<string>)
    requires forall id :: start <= id < start + |secrets| ==> Username(id) in rows
    ensures Insert(rows, UsersOf(start, secrets)) == rows
  {
    InsertKeeps(rows, UsersOf(start, secrets));
    UsersAt(start, secrets);
  }

  /** Different ids get different usernames, also beyond eight digits. */
  lemma UsernameInjective(a: nat, b: nat)
    requires Username(a) == Username(b)
    ensures a == b
  {
    assert Username(a)[4..] == Padded(a, 8) && Username(b)[4..] == Padded(b, 8);
    PaddedInjective(a, b, 8);
  }

  /** Eight digits at least, more only where the id has more, after the fixed word. */
  lemma NamesMeans(id: nat)
    ensures Username(id)[..4] == "user" && Nickname(id)[..5] == "User " && Username(id)[4..] == Nickname(id)[5..]
    ensures |Username(id)| >= 12 && AllDigits(Username(id)[4..]) && Value(Username(id)[4..]) == id
    ensures |Username(id)| > 12 ==> Username(id)[4] != '0'
  {
    PaddedParses(id, 8 - |Print(id)|);
    PaddedWidth(id, 8);
    assert Username(id)[4..] == Padded(id, 8) && Nickname(id)[5..] == Padded(id, 8);
  }

  // ---------- steps ----------

  predicate Busy(s: State, w: nat) {
    w < |s.workers| && s.workers[w] != IDLE
  }

  predicate Enabled(s: State, step: Step) {
    match step
    case Produce => s.next <= s.count && |s.queue| < s.channel
    case Take(w) => w < |s.workers| && s.workers[w] == IDLE && s.queue != []
    case Succeed(w, secrets) => Busy(s, w) && |secrets| == Size(s.count, s.batch, s.workers[w])
    case Fail(w, _, secrets) => Busy(s, w) && |secrets| == Size(s.count, s.batch, s.workers[w])
  }

  function Do(s: State, step: Step): State
    requires Enabled(s, step)
  {
    match step
    case Produce => s.(queue := s.queue + [s.next], produced := s.produced + [s.next], next := s.next + s.batch)
    case Take(w) => s.(workers := s.workers[w := s.queue[0]], queue := s.queue[1..])
    case Succeed(w, secrets) =>
      var start := s.workers[w];
      s.(workers := s.workers[w := IDLE], rows := Insert(s.rows, UsersOf(start, secrets)),
         done := s.done + Size(s.count, s.batch, start), succeeded := s.succeeded + [start])
    case Fail(w, effect, secrets) =>
      var start := s.workers[w];
      s.(workers := s.workers[w := IDLE], failed := s.failed + [start],
         rows := if effect then Insert(s.rows, UsersOf(start, secrets)) else s.rows)
  }

  /** Everything handed out and nobody at work: wg.Wait returns. */
  predicate Finished(s: State) {
    s.next > s.count && s.queue == [] && forall w :: 0 <= w < |s.workers| ==> s.workers[w] == IDLE
  }

  /** seed returns an error. */
  predicate Reported(s: State) {
    s.count > 0 && s.done < s.count
  }

  // ---------- sums ----------

  function Total(count: int, batch: nat, starts: seq<nat>): nat {
    if starts == [] then 0 else Total(count, batch, starts[..|starts| - 1]) + Weight(count, batch, starts[|starts| - 1])
  }

  function Weight(count: int, batch: nat, start: nat): nat {
    if start == IDLE then 0 else Size(count, batch, start)
  }

  lemma {:induction false} TotalUpdate(count: int, batch: nat, starts: seq<nat>, w: nat, x: nat)
    requires w < |starts|
    ensures Total(count, batch, starts[w := x]) + Weight(count, batch, starts[w]) ==
            Total(count, batch, starts) + Weight(count, batch, x)
  {
    var last := |starts| - 1;
    if w == last {
      assert starts[w := x][..last] == starts[..last];
    } else {
      TotalUpdate(count, batch, starts[..last], w, x);
      assert starts[w := x][..last] == starts[..last][w := x];
    }
  }

  lemma {:induction false} TotalHead(count: int, batch: nat, starts: seq<nat>)
    requires starts != []
    ensures Total(count, batch, starts) == Weight(count, batch, starts[0]) + Total(count, batch, starts[1..])
  {
    var last := |starts| - 1;
    if last == 0 {
      assert starts[..0] == [] && starts[1..] == [];
    } else {
      TotalHead(count, batch, starts[..last]);
      assert starts[..last][1..] == starts[1..][..last - 1];
    }
  }

  lemma TotalSnoc(count: int, batch: nat, starts: seq<nat>, x: nat)
    ensures Total(count, batch, starts + [x]) == Total(count, batch, starts) + Weight(count, batch, x)
  {
    assert (starts + [x])[..|starts|] == starts;
  }

  // ---------- exact cover ----------

  function Range(from: nat, n: nat): seq<nat> {
    seq(n, i requires 0 <= i < n => from + i)
  }

  /** The ids of the batches, one batch after the other. */
  function Ids(count: int, batch: nat, starts: seq<nat>): seq<nat> {
    if starts == [] then [] else
      Ids(count, batch, starts[..|starts| - 1]) + Range(starts[|starts| - 1], Size(count, batch, starts[|starts| - 1]))
  }

  function Covered(s: State): nat
    requires s.next >= 1
  {
    if s.count <= 0 then 0 else if s.next - 1 < s.count then s.next - 1 else s.count
  }

  ghost predicate Partition(s: State) {
    && s.next >= 1 && s.batch > 0
    && Ids(s.count, s.batch, s.produced) == Range(1, Covered(s))
    && Total(s.count, s.batch, s.produced) == Covered(s)
    && (forall i :: 0 <= i < |s.produced| ==> 0 < s.produced[i] <= s.count)
  }

  lemma RangeJoin(from: nat, n: nat, m: nat)
    ensures Range(from, n) + Range(from + n, m) == Range(from, n + m)
  {
  }

  lemma IdsSnoc(count: int, batch: nat, starts: seq<nat>, x: nat)
    ensures Ids(count, batch, starts + [x]) == Ids(count, batch, starts) + Range(x, Size(count, batch, x))
  {
    assert (starts + [x])[..|starts|] == starts;
  }

  lemma ProducePartition(s: State)
    requires Partition(s) && Enabled(s, Produce)
    ensures Partition(Do(s, Produce))
  {
    var size := Size(s.count, s.batch, s.next);
    IdsSnoc(s.count, s.batch, s.produced, s.next);
    TotalSnoc(s.count, s.batch, s.produced, s.next);
    RangeJoin(1, s.next - 1, size);
    assert Covered(Do(s, Produce)) == s.next - 1 + size;
  }

  /** The batches start at 1 and follow each other at the batch size. */
  ghost predicate Stepped(s: State) {
    s.next == Start(s.batch, |s.produced|) && forall i :: 0 <= i < |s.produced| ==> s.produced[i] == Start(s.batch, i)
  }

  function Start(batch: nat, i: nat): nat {
    if i == 0 then 1 else Start(batch, i - 1) + batch
  }

  lemma {:induction false} StartMeans(batch: nat, i: nat)
    ensures Start(batch, i) == 1 + i * batch
  {
    if i == 0 {
    } else {
      StartMeans(batch, i - 1);
      assert i * batch == (i - 1) * batch + batch;
    }
  }

  lemma StepStepped(s: State, step: Step)
    requires Stepped(s) && Enabled(s, step)
    ensures Stepped(Do(s, step))
  {
  }

  /** An id below the covered bound lies in some batch that was handed out. */
  lemma {:induction false} InSomeBatch(count: int, batch: nat, starts: seq<nat>, id: nat) returns (i: nat)
    requires id in Ids(count, batch, starts)
    ensures i < |starts| && starts[i] <= id < starts[i] + Size(count, batch, starts[i])
  {
    i := |starts| - 1;
    if id in Ids(count, batch, starts[..i]) {
      i := InSomeBatch(count, batch, starts[..i], id);
    }
  }

  // ---------- where each batch is ----------

  /** How often the batch at `x` is queued, at work or decided. */
  function Held(s: State, x: nat): nat {
    multiset(s.queue)[x] + multiset(s.workers)[x] + multiset(s.succeeded)[x] + multiset(s.failed)[x]
  }

  ghost predicate Placed(s: State) {
    && (forall x: nat :: x != IDLE ==> Held(s, x) == multiset(s.produced)[x])
    && IDLE !in s.queue && IDLE !in s.succeeded && IDLE !in s.failed
  }

  /** Ids handed out are waiting, at work, counted by `done`, or lost to a failure. */
  predicate Conserved(s: State) {
    && s.done == Total(s.count, s.batch, s.succeeded)
    && Total(s.count, s.batch, s.queue) + Total(s.count, s.batch, s.workers)
       + s.done + Total(s.count, s.batch, s.failed)
       == Total(s.count, s.batch, s.produced)
  }

  /** Rows of before are untouched, rows of counted batches are there, and no other name came in. */
  ghost predicate RowsOk(before: map<string, Row>, s: State) {
    && (forall name :: name in before ==> name in s.rows && s.rows[name] == before[name])
    && (forall i, id :: 0 <= i < |s.succeeded| &&
                        s.succeeded[i] <= id < s.succeeded[i] + Size(s.count, s.batch, s.succeeded[i]) ==>
         Username(id) in s.rows)
    && (forall name :: name in s.rows ==> name in before || Seeds(s.count, name))
  }

  ghost predicate Seeds(count: int, name: string) {
    exists id :: 1 <= id <= count && name == Username(id)
  }

  ghost predicate Inv(before: map<string, Row>, s: State) {
    Partition(s) && Stepped(s) && Placed(s) && Conserved(s) && RowsOk(before, s) && s.channel > 0 && s.workers != []
  }

  lemma InitInv(count: int, batchSize: int, concurrency: int, rows: map<string, Row>)
    ensures Inv(rows, Init(count, batchSize, concurrency, rows))
  {
    var s := Init(count, batchSize, concurrency, rows);
    IdleTotal(count, s.batch, s.workers);
    forall x: nat | x != IDLE ensures multiset(s.workers)[x] == 0 {
      assert x !in s.workers;
    }
  }

  lemma {:induction false} IdleTotal(count: int, batch: nat, starts: seq<nat>)
    requires forall w :: 0 <= w < |starts| ==> starts[w] == IDLE
    ensures Total(count, batch, starts) == 0
  {
    if starts == [] {
    } else {
      IdleTotal(count, batch, starts[..|starts| - 1]);
    }
  }

  lemma MultisetUpdate(starts: seq<nat>, w: nat, x: nat)
    requires w < |starts|
    ensures multiset(starts[w := x]) + multiset{starts[w]} == multiset(starts) + multiset{x}
  {
    assert starts == starts[..w] + [starts[w]] + starts[w + 1..];
    assert starts[w := x] == starts[..w] + [x] + starts[w + 1..];
  }

  lemma ProducePlaced(s: State)
    requires Placed(s) && s.next >= 1 && Enabled(s, Produce)
    ensures Placed(Do(s, Produce))
  {
    forall x: nat | x != IDLE ensures Held(Do(s, Produce), x) == multiset(Do(s, Produce).produced)[x] {
      assert Held(s, x) == multiset(s.produced)[x];
    }
  }

  lemma TakePlaced(s: State, w: nat)
    requires Placed(s) && Enabled(s, Take(w))
    ensures Placed(Do(s, Take(w)))
  {
    var t := Do(s, Take(w));
    MultisetUpdate(s.workers, w, s.queue[0]);
    assert s.queue == [s.queue[0]] + s.queue[1..];
    forall x: nat | x != IDLE ensures Held(t, x) == multiset(t.produced)[x] {
      assert Held(s, x) == multiset(s.produced)[x];
    }
  }

  /** A worker lets go of its batch; `ok` says on which list it ends. */
  lemma FinishPlaced(s: State, w: nat, t: State, ok: bool)
    requires Placed(s) && Busy(s, w) && t.workers == s.workers[w := IDLE] && t.queue == s.queue
    requires t.produced == s.produced
    requires t.succeeded == if ok then s.succeeded + [s.workers[w]] else s.succeeded
    requires t.failed == if ok then s.failed else s.failed + [s.workers[w]]
    ensures Placed(t)
  {
    MultisetUpdate(s.workers, w, IDLE);
    forall x: nat | x != IDLE ensures Held(t, x) == multiset(t.produced)[x] {
      assert Held(s, x) == multiset(s.produced)[x];
    }
  }

  lemma StepPlaced(s: State, step: Step)
    requires Placed(s) && s.next >= 1 && Enabled(s, step)
    ensures Placed(Do(s, step))
  {
    match step
    case Produce => ProducePlaced(s);
    case Take(w) => TakePlaced(s, w);
    case Succeed(w, _) => FinishPlaced(s, w, Do(s, step), true);
    case Fail(w, _, _) => FinishPlaced(s, w, Do(s, step), false);
  }

  lemma StepConserved(s: State, step: Step)
    requires Conserved(s) && Enabled(s, step)
    ensures Conserved(Do(s, step))
  {
    match step
    case Produce =>
      TotalSnoc(s.count, s.batch, s.queue, s.next);
      TotalSnoc(s.count, s.batch, s.produced, s.next);
    case Take(w) =>
      TotalHead(s.count, s.batch, s.queue);
      TotalUpdate(s.count, s.batch, s.workers, w, s.queue[0]);
    case Succeed(w, _) =>
      TotalUpdate(s.count, s.batch, s.workers, w, IDLE);
      TotalSnoc(s.count, s.batch, s.succeeded, s.workers[w]);
    case Fail(w, _, _) =>
      TotalUpdate(s.count, s.batch, s.workers, w, IDLE);
      TotalSnoc(s.count, s.batch, s.failed, s.workers[w]);
  }

  /** A worker's batch was handed out, so it lies within 1..count. */
  lemma HeldInRange(s: State, w: nat)
    requires Partition(s) && Placed(s) && Busy(s, w)
    ensures 0 < s.workers[w] <= s.count
  {
    var x := s.workers[w];
    assert x in multiset(s.workers) && Held(s, x) == multiset(s.produced)[x];
    assert x in multiset(s.produced);
  }

  lemma InsertRows(before: map<string, Row>, s: State, w: nat, secrets: seq<string>, t: State)
    requires RowsOk(before, s) && Busy(s, w) && 0 < s.workers[w] <= s.count && s.batch > 0
    requires |secrets| == Size(s.count, s.batch, s.workers[w])
    requires t.rows == Insert(s.rows, UsersOf(s.workers[w], secrets)) && t.count == s.count && t.batch == s.batch
    requires t.succeeded == s.succeeded || t.succeeded == s.succeeded + [s.workers[w]]
    ensures RowsOk(before, t)
  {
    var start := s.workers[w];
    InsertAdds(s.rows, start, secrets);
    forall name | name in t.rows && name !in before ensures Seeds(t.count, name) {
      if name in s.rows {
        assert Seeds(s.count, name);
      } else {
        var id :| start <= id < start + |secrets| && name == Username(id);
        assert 1 <= id <= t.count;
      }
    }
  }

  lemma StepRows(before: map<string, Row>, s: State, step: Step)
    requires RowsOk(before, s) && Partition(s) && Placed(s) && Enabled(s, step)
    ensures RowsOk(before, Do(s, step))
  {
    if step.Succeed? || (step.Fail? && step.effect) {
      HeldInRange(s, step.worker);
      InsertRows(before, s, step.worker, step.secrets, Do(s, step));
    }
  }

  lemma StepKeepsInv(before: map<string, Row>, s: State, step: Step)
    requires Inv(before, s) && Enabled(s, step)
    ensures Inv(before, Do(s, step))
  {
    StepPlaced(s, step);
    StepConserved(s, step);
    StepStepped(s, step);
    StepRows(before, s, step);
    StepPartition(s, step);
    StepFrame(s, step);
  }

  lemma StepPartition(s: State, step: Step)
    requires Partition(s) && Enabled(s, step)
    ensures Partition(Do(s, step))
  {
    if step == Produce {
      ProducePartition(s);
    }
  }

  lemma StepFrame(s: State, step: Step)
    requires Enabled(s, step)
    ensures Do(s, step).channel == s.channel && |Do(s, step).workers| == |s.workers|
  {
  }

  // ---------- runs ----------

  ghost predicate ValidRun(s: State, steps: seq<Step>)
    decreases |steps|
  {
    steps == [] || (Enabled(s, steps[0]) && ValidRun(Do(s, steps[0]), steps[1..]))
  }

  ghost function After(s: State, steps: seq<Step>): State
    requires ValidRun(s, steps)
    decreases |steps|
  {
    if steps == [] then s else After(Do(s, steps[0]), steps[1..])
  }

  lemma {:induction false} RunKeepsInv(before: map<string, Row>, s: State, steps: seq<Step>)
    requires Inv(before, s) && ValidRun(s, steps)
    ensures Inv(before, After(s, steps)) && After(s, steps).count == s.count && After(s, steps).batch == s.batch
    decreases |steps|
  {
    if steps == [] {
    } else {
      StepKeepsInv(before, s, steps[0]);
      RunKeepsInv(before, Do(s, steps[0]), steps[1..]);
    }
  }

  lemma {:induction false} LostWeight(count: int, batch: nat, starts: seq<nat>)
    requires batch > 0 && forall i :: 0 <= i < |starts| ==> 0 < starts[i] <= count
    ensures Total(count, batch, starts) > 0 <==> starts != []
  {
    if starts == [] {
    } else {
      LostWeight(count, batch, starts[..|starts| - 1]);
    }
  }

  /** At the end every batch was decided exactly once. */
  lemma Decided(before: map<string, Row>, s: State)
    requires Inv(before, s) && Finished(s)
    ensures multiset(s.succeeded) + multiset(s.failed) == multiset(s.produced)
    ensures forall i :: 0 <= i < |s.failed| ==> 0 < s.failed[i] <= s.count
  {
    assert IDLE !in s.produced;
    forall i | 0 <= i < |s.failed| ensures 0 < s.failed[i] <= s.count {
      assert s.failed[i] in multiset(s.failed) && Held(s, s.failed[i]) == multiset(s.produced)[s.failed[i]];
      assert s.failed[i] in multiset(s.produced);
    }
    forall x: nat ensures multiset(s.succeeded)[x] + multiset(s.failed)[x] == multiset(s.produced)[x] {
      if x != IDLE {
        assert x !in s.workers && Held(s, x) == multiset(s.produced)[x];
      }
    }
  }

  /** A worker inserted this secret for this id at some step of the run. */
  ghost predicate Offered(s: State, steps: seq<Step>, id: nat, secret: string)
    requires ValidRun(s, steps)
    decreases |steps|
  {
    steps != [] && (Offers(s, steps[0], id, secret) || Offered(Do(s, steps[0]), steps[1..], id, secret))
  }

  predicate Offers(s: State, step: Step, id: nat, secret: string)
    requires Enabled(s, step)
  {
    && (step.Succeed? || (step.Fail? && step.effect))
    && s.workers[step.worker] <= id < s.workers[step.worker] + |step.secrets|
    && step.secrets[id - s.workers[step.worker]] == secret
  }

  /** The row of a new user: the nickname of the id and a secret that was offered for it. */
  ghost predicate NewRow(s: State, steps: seq<Step>, name: string, row: Row)
    requires ValidRun(s, steps)
  {
    exists id :: name == Username(id) && row.nickname == Nickname(id) && Offered(s, steps, id, row.secret)
  }

  lemma StepStores(s: State, step: Step, name: string)
    requires Enabled(s, step) && name in Do(s, step).rows && name !in s.rows
    ensures exists id ::
      && name == Username(id) && Do(s, step).rows[name].nickname == Nickname(id)
      && Offers(s, step, id, Do(s, step).rows[name].secret)
  {
    var id := BatchStores(s.rows, s.workers[step.worker], step.secrets, name);
    assert Offers(s, step, id, Do(s, step).rows[name].secret);
  }

  lemma BatchStores(rows: map<string, Row>, start: nat, secrets: seq<string>, name: string) returns (id: nat)
    requires name in Insert(rows, UsersOf(start, secrets)) && name !in rows
    ensures start <= id < start + |secrets| && name == Username(id)
    ensures Insert(rows, UsersOf(start, secrets))[name] == Row(Nickname(id), secrets[id - start])
  {
    InsertAdds(rows, start, secrets);
    id :| start <= id < start + |secrets| && name == Username(id);
    InsertedRow(rows, start, secrets, id);
  }

  lemma StepKeepsOld(s: State, step: Step, name: string)
    requires Enabled(s, step) && name in s.rows
    ensures name in Do(s, step).rows && Do(s, step).rows[name] == s.rows[name]
  {
    if step.Succeed? || step.Fail? {
      InsertAdds(s.rows, s.workers[step.worker], step.secrets);
    }
  }

  /** Rows are never altered, and each new one is a new user's own. */
  lemma {:induction false} RunStores(s: State, steps: seq<Step>, name: string)
    requires ValidRun(s, steps)
    ensures name in s.rows ==> name in After(s, steps).rows && After(s, steps).rows[name] == s.rows[name]
    ensures name in After(s, steps).rows && name !in s.rows ==> NewRow(s, steps, name, After(s, steps).rows[name])
    decreases |steps|
  {
    if steps == [] {
    } else {
      var t, rest := Do(s, steps[0]), steps[1..];
      RunStores(t, rest, name);
      if name in s.rows {
        StepKeepsOld(s, steps[0], name);
      } else if name in t.rows {
        StepStores(s, steps[0], name);
        var row := t.rows[name];
        var id :| name == Username(id) && row.nickname == Nickname(id) && Offers(s, steps[0], id, row.secret);
        assert Offered(s, steps, id, row.secret);
      } else if name in After(s, steps).rows {
        var row := After(t, rest).rows[name];
        var id :| name == Username(id) && row.nickname == Nickname(id) && Offered(t, rest, id, row.secret);
        assert Offered(s, steps, id, row.secret);
      }
    }
  }

  /** What a finished schedule leaves behind, for every count, batch size, concurrency, schedule and failures. */
  lemma SeedResult(count: int, batchSize: int, concurrency: int, rows: map<string, Row>, steps: seq<Step>)
    requires ValidRun(Init(count, batchSize, concurrency, rows), steps)
    requires Finished(After(Init(count, batchSize, concurrency, rows), steps))
    ensures var t := After(Init(count, batchSize, concurrency, rows), steps);
      && Ids(t.count, t.batch, t.produced) == Range(1, if count < 0 then 0 else count)
      && multiset(t.succeeded) + multiset(t.failed) == multiset(t.produced)
      && (Reported(t) <==> t.failed != [])
      && (!Reported(t) ==> forall id :: 1 <= id <= count ==> Username(id) in t.rows)
      && (forall name :: name in rows ==> name in t.rows && t.rows[name] == rows[name])
      && (forall name :: name in t.rows ==> name in rows || Seeds(count, name))
      && (forall name :: name in t.rows && name !in rows ==>
            NewRow(Init(count, batchSize, concurrency, rows), steps, name, t.rows[name]))
      && (forall i :: 0 <= i < |t.produced| ==> t.produced[i] == 1 + i * if batchSize <= 0 then 1000 else batchSize)
  {
    var s := Init(count, batchSize, concurrency, rows);
    forall name | name in After(s, steps).rows && name !in rows
      ensures NewRow(s, steps, name, After(s, steps).rows[name])
    {
      RunStores(s, steps, name);
    }
    InitInv(count, batchSize, concurrency, rows);
    RunKeepsInv(rows, s, steps);
    var t := After(s, steps);
    Decided(rows, t);
    forall i | 0 <= i < |t.produced| ensures t.produced[i] == 1 + i * if batchSize <= 0 then 1000 else batchSize {
      StartMeans(t.batch, i);
    }
    IdleTotal(t.count, t.batch, t.workers);
    LostWeight(t.count, t.batch, t.failed);
    if !Reported(t) {
      forall id | 1 <= id <= count ensures Username(id) in t.rows {
        AllPresent(rows, t, id);
      }
    }
  }

  lemma AllPresent(before: map<string, Row>, t: State, id: nat)
    requires Inv(before, t) && Finished(t) && t.failed == [] && 1 <= id <= t.count
    ensures Username(id) in t.rows
  {
    Decided(before, t);
    assert Range(1, t.count)[id - 1] == id;
    var i := InSomeBatch(t.count, t.batch, t.produced, id);
    assert t.produced[i] in multiset(t.produced);
    assert t.produced[i] in multiset(t.succeeded);
    var j :| 0 <= j < |t.succeeded| && t.succeeded[j] == t.produced[i];
  }

  /** With every username there already, no run changes a row, finished or not. */
  lemma {:induction false} SeedAgain(before: map<string, Row>, s: State, steps: seq<Step>)
    requires Inv(before, s) && ValidRun(s, steps)
    requires forall id :: 1 <= id <= s.count ==> Username(id) in s.rows
    ensures After(s, steps).rows == s.rows
    decreases |steps|
  {
    if steps == [] {
    } else {
      StepKeepsInv(before, s, steps[0]);
      StepKeepsRows(s, steps[0]);
      SeedAgain(before, Do(s, steps[0]), steps[1..]);
    }
  }

  lemma StepKeepsRows(s: State, step: Step)
    requires Partition(s) && Placed(s) && Enabled(s, step)
    requires forall id :: 1 <= id <= s.count ==> Username(id) in s.rows
    ensures Do(s, step).rows == s.rows
  {
    if step.Succeed? || step.Fail? {
      HeldInRange(s, step.worker);
      InsertPresent(s.rows, s.workers[step.worker], step.secrets);
    }
  }

  /** A second seeding after a successful one leaves the rows as they are. */
  lemma SecondRunIsIdle(count: int, batchSize: int, concurrency: int, rows: map<string, Row>, first: seq<Step>,
                        batchSize': int, concurrency': int, second: seq<Step>)
    requires ValidRun(Init(count, batchSize, concurrency, rows), first)
    requires var t := After(Init(count, batchSize, concurrency, rows), first);
      Finished(t) && !Reported(t) && ValidRun(Init(count, batchSize', concurrency', t.rows), second)
    ensures var t := After(Init(count, batchSize, concurrency, rows), first);
      After(Init(count, batchSize', concurrency', t.rows), second).rows == t.rows
  {
    SeedResult(count, batchSize, concurrency, rows, first);
    var t := After(Init(count, batchSize, concurrency, rows), first);
    InitInv(count, batchSize', concurrency', t.rows);
    SeedAgain(t.rows, Init(count, batchSize', concurrency', t.rows), second);
  }

  // ---------- every schedule ends ----------

  function Left(count: int, batch: nat, next: nat): nat
    requires batch > 0
    decreases count - next + 1
  {
    if next > count then 0 else 1 + Left(count, batch, next + batch)
  }

  function AtWork(workers: seq<nat>): nat {
    if workers == [] then 0
    else AtWork(workers[..|workers| - 1]) + if workers[|workers| - 1] == IDLE then 0 else 1
  }

  lemma {:induction false} AtWorkUpdate(workers: seq<nat>, w: nat, x: nat)
    requires w < |workers|
    ensures AtWork(workers[w := x]) ==
            AtWork(workers) + (if x == IDLE then 0 else 1) - (if workers[w] == IDLE then 0 else 1)
  {
    var last := |workers| - 1;
    if w == last {
      assert workers[w := x][..last] == workers[..last];
    } else {
      AtWorkUpdate(workers[..last], w, x);
      assert workers[w := x][..last] == workers[..last][w := x];
    }
  }

  lemma {:induction false} NobodyAtWork(workers: seq<nat>)
    ensures AtWork(workers) == 0 <==> forall w :: 0 <= w < |workers| ==> workers[w] == IDLE
  {
    if workers == [] {
    } else {
      NobodyAtWork(workers[..|workers| - 1]);
      assert forall w :: 0 <= w < |workers| - 1 ==> workers[w] == workers[..|workers| - 1][w];
    }
  }

  /** Moves still to come: three for a batch not handed out, two for a queued one, one for one at work. */
  function Moves(s: State): nat
    requires s.batch > 0
  {
    3 * Left(s.count, s.batch, s.next) + 2 * |s.queue| + AtWork(s.workers)
  }

  lemma StepMoves(before: map<string, Row>, s: State, step: Step)
    requires Inv(before, s) && Enabled(s, step)
    ensures Moves(Do(s, step)) == Moves(s) - 1
  {
    match step
    case Produce =>
    case Take(w) =>
      var x := s.queue[0];
      assert x in s.queue;
      AtWorkUpdate(s.workers, w, x);
    case Succeed(w, _) => AtWorkUpdate(s.workers, w, IDLE);
    case Fail(w, _, _) => AtWorkUpdate(s.workers, w, IDLE);
  }

  /** Exactly three moves per batch finish the job, and short of that some move is possible. */
  lemma {:induction false} SeedEnds(before: map<string, Row>, s: State, steps: seq<Step>)
    requires Inv(before, s) && ValidRun(s, steps)
    ensures var t := After(s, steps);
      && t.batch == s.batch
      && |steps| + Moves(t) == Moves(s)
      && (Finished(t) <==> |steps| == Moves(s))
      && (Finished(t) || exists step :: Enabled(t, step))
    decreases |steps|
  {
    if steps == [] {
      NobodyAtWork(s.workers);
      NotStuck(s);
    } else {
      StepKeepsInv(before, s, steps[0]);
      StepMoves(before, s, steps[0]);
      SeedEnds(before, Do(s, steps[0]), steps[1..]);
    }
  }

  /** Any idle worker may take the next batch, and whoever holds one can finish it. */
  lemma WorkersShare(s: State, w: nat)
    requires w < |s.workers|
    ensures Enabled(s, Take(w)) <==> s.workers[w] == IDLE && s.queue != []
    ensures forall secrets :: |secrets| == Size(s.count, s.batch, s.workers[w]) ==>
      (Enabled(s, Succeed(w, secrets)) <==> s.workers[w] != IDLE)
  {
  }

  lemma NotStuck(s: State)
    requires s.channel > 0 && s.workers != []
    ensures Finished(s) || exists step :: Enabled(s, step)
  {
    if w :| 0 <= w < |s.workers| && s.workers[w] != IDLE {
      var secrets := seq(Size(s.count, s.batch, s.workers[w]), _ => "");
      assert Enabled(s, Succeed(w, secrets));
    } else if s.queue != [] {
      assert Enabled(s, Take(0));
    } else if s.next <= s.count {
      assert Enabled(s, Produce);
    }
  }
}
