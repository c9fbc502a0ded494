/**
 Profile pictures: the database row, the picture file and the version-keyed
 Redis entry, under any interleaving of readers and uploaders at the level of
 single statements. `installed` records which picture the UPDATE that made a
 version installed; it is history and no step reads it.
 */
module PictureCache {
  import opened Wrappers

  datatype Picture = Picture(mime: string, data: string)

  /** The picture columns of a user row; version 0 means no picture yet. */
  datatype Row = Row(path: Option<string>, mime: Option<string>, version: nat)

  datatype Version = Version(user: nat, number: nat)

  /** Where a request is. A reader carries the row it read, an uploader the path of its file.
      Shown and Uploaded are answers, Ended is an error or not-found. */
  datatype Process =
    | Looking(user: nat)
    | AskingCache(user: nat, row: Row)
    | ReadingFile(user: nat, row: Row)
    | Filling(user: nat, row: Row, picture: Picture)
    | Shown(user: nat, row: Row, picture: Picture)
    | Starting(user: nat, picture: Picture)
    | Storing(user: nat, picture: Picture, oldVersion: nat)
    | Updating(user: nat, picture: Picture, oldVersion: nat, path: string)
    | ReadingBack(user: nat, picture: Picture, oldVersion: nat, path: string, made: nat)
    | Evicting(user: nat, picture: Picture, oldVersion: nat, version: nat, made: nat)
    | Caching(user: nat, picture: Picture, version: nat, made: nat)
    | Uploaded(user: nat, picture: Picture, version: nat, made: nat)
    | Undoing(path: string)
    | Ended

  datatype State = State(rows: map<nat, Row>, files: map<string, string>, cache: map<Version, Picture>,
                         processes: map<nat, Process>, written: map<string, string>, installed: map<Version, Picture>)

  datatype Step =
    | StartGet(p: nat, user: nat)
    | StartUpload(p: nat, user: nat, picture: Picture)
    | SelectProfile(p: nat, ok: bool)
    | CacheGet(p: nat, ok: bool)
    | ReadFile(p: nat, ok: bool)
    | CacheFill(p: nat, ok: bool)
    | SelectOld(p: nat, ok: bool)
    | WriteFile(p: nat, path: string, ok: bool)
    | Update(p: nat, effect: bool, ok: bool)
    | SelectBack(p: nat, ok: bool)
    | CacheDelete(p: nat, ok: bool)
    | CacheSave(p: nat, ok: bool)
    | Remove(p: nat, ok: bool)
    | Expire(key: Version)

  predicate At(s: State, p: nat) {
    p in s.processes
  }

  predicate Enabled(s: State, step: Step) {
    match step
    case StartGet(p, _) => p !in s.processes
    case StartUpload(p, _, picture) => p !in s.processes && picture.mime != ""
    case SelectProfile(p, _) => At(s, p) && s.processes[p].Looking?
    case CacheGet(p, _) => At(s, p) && s.processes[p].AskingCache?
    case ReadFile(p, _) => At(s, p) && s.processes[p].ReadingFile?
    case CacheFill(p, _) => At(s, p) && s.processes[p].Filling?
    case SelectOld(p, _) => At(s, p) && s.processes[p].Starting?
    case WriteFile(p, path, _) => At(s, p) && s.processes[p].Storing? && path !in s.written && path != ""
    case Update(p, _, _) => At(s, p) && s.processes[p].Updating?
    case SelectBack(p, _) => At(s, p) && s.processes[p].ReadingBack?
    case CacheDelete(p, _) => At(s, p) && s.processes[p].Evicting?
    case CacheSave(p, _) => At(s, p) && s.processes[p].Caching?
    case Remove(p, _) => At(s, p) && s.processes[p].Undoing?
    case Expire(_) => true
  }

  /** The row's picture as the file path of GetProfilePicture reports it. */
  function FilePicture(row: Row, data: string): Picture {
    Picture(if row.mime.Some? && row.mime.value != "" then row.mime.value else "application/octet-stream", data)
  }

  /** Where the request goes from here. */
  function Next(s: State, step: Step): Process
    requires Enabled(s, step) && !step.Expire?
  {
    match step
    case StartGet(p, user) => Looking(user)
    case StartUpload(p, user, picture) => Starting(user, picture)
    case SelectProfile(p, ok) =>
      var user := s.processes[p].user;
      if !ok || user !in s.rows then Ended
      else
        var row := s.rows[user];
        if row.path == None || row.path == Some("") || row.version == 0 then Ended else AskingCache(user, row)
    case CacheGet(p, ok) =>
      var q := s.processes[p];
      var key := Version(q.user, q.row.version);
      if !ok then Ended else if key in s.cache then Shown(q.user, q.row, s.cache[key]) else ReadingFile(q.user, q.row)
    case ReadFile(p, ok) =>
      var q := s.processes[p];
      if !ok || q.row.path.None? || q.row.path.value !in s.files then Ended
      else Filling(q.user, q.row, FilePicture(q.row, s.files[q.row.path.value]))
    case CacheFill(p, ok) => Shown(s.processes[p].user, s.processes[p].row, s.processes[p].picture)
    case SelectOld(p, ok) =>
      var q := s.processes[p];
      Storing(q.user, q.picture, if ok && q.user in s.rows then s.rows[q.user].version else 0)
    case WriteFile(p, path, ok) =>
      var q := s.processes[p];
      if ok then Updating(q.user, q.picture, q.oldVersion, path) else Ended
    case Update(p, effect, ok) =>
      var q := s.processes[p];
      if q.user in s.rows && effect && ok then
        ReadingBack(q.user, q.picture, q.oldVersion, q.path, s.rows[q.user].version + 1)
      else Undoing(q.path)
    case SelectBack(p, ok) =>
      var q := s.processes[p];
      if ok && q.user in s.rows then Evicting(q.user, q.picture, q.oldVersion, s.rows[q.user].version, q.made)
      else Undoing(q.path)
    case CacheDelete(p, ok) =>
      var q := s.processes[p];
      Caching(q.user, q.picture, q.version, q.made)
    case CacheSave(p, ok) =>
      var q := s.processes[p];
      Uploaded(q.user, q.picture, q.version, q.made)
    case Remove(p, ok) => Ended
  }

  /** What the statement does to row, file and cache; `ok` is false for a cache
      write that did not get through. */
  function Effect(s: State, step: Step): State
    requires Enabled(s, step)
  {
    match step
    case CacheFill(p, ok) =>
      var q := s.processes[p];
      if ok then s.(cache := s.cache[Version(q.user, q.row.version) := q.picture]) else s
    case WriteFile(p, path, ok) =>
      var data := s.processes[p].picture.data;
      s.(written := s.written[path := data], files := if ok then s.files[path := data] else s.files)
    case Update(p, effect, ok) =>
      var q := s.processes[p];
      if q.user in s.rows && effect then
        var made := s.rows[q.user].version + 1;
        s.(rows := s.rows[q.user := Row(Some(q.path), Some(q.picture.mime), made)],
           installed := s.installed[Version(q.user, made) := q.picture])
      else s
    case CacheDelete(p, ok) =>
      var q := s.processes[p];
      if ok && q.oldVersion > 0 then s.(cache := s.cache - {Version(q.user, q.oldVersion)}) else s
    case CacheSave(p, ok) =>
      var q := s.processes[p];
      if ok then s.(cache := s.cache[Version(q.user, q.version) := q.picture]) else s
    case Remove(p, ok) => if ok then s.(files := s.files - {s.processes[p].path}) else s
    case Expire(key) => s.(cache := s.cache - {key})
    case _ => s
  }

  function Do(s: State, step: Step): State
    requires Enabled(s, step)
  {
    if step.Expire? then Effect(s, step)
    else Effect(s, step).(processes := s.processes[step.p := Next(s, step)])
  }

  // ---------- invariant ----------

  /** A row as it is or was: its version's picture is the recorded one, and the
      file it names, whether or not still there, was written with that data. */
  ghost predicate RowOk(s: State, user: nat, row: Row) {
    row.version > 0 ==>
      && Version(user, row.version) in s.installed
      && row.path.Some? && row.path.value in s.written
      && row.mime == Some(s.installed[Version(user, row.version)].mime)
      && row.mime.value != ""
      && s.written[row.path.value] == s.installed[Version(user, row.version)].data
  }

  /** No UPDATE takes effect between another upload's UPDATE for the same user and its read-back. */
  ghost predicate Clear(s: State, step: Step)
    requires Enabled(s, step)
  {
    step.Update? && step.effect ==>
      forall r :: r in s.processes && r != step.p && s.processes[r].ReadingBack? ==>
        s.processes[r].user != s.processes[step.p].user
  }

  predicate Uploading(q: Process) {
    q.Starting? || q.Storing? || q.Updating? || q.ReadingBack? || q.Evicting? || q.Caching?
  }

  /** At most one upload is under way for a user. */
  ghost predicate Exclusive(s: State) {
    forall p, q :: p in s.processes && q in s.processes && p != q &&
                   Uploading(s.processes[p]) && Uploading(s.processes[q]) ==>
      s.processes[p].user != s.processes[q].user
  }

  /** One upload per user at a time is enough. */
  lemma ExclusiveIsClear(s: State, step: Step)
    requires Exclusive(s) && Enabled(s, step)
    ensures Clear(s, step)
  {
  }

  ghost predicate Holds(s: State, user: nat, number: nat, picture: Picture) {
    Version(user, number) in s.installed && s.installed[Version(user, number)] == picture
  }

  /** What a request carries is right; `exact` if no uploads overlapped so far. */
  ghost predicate ProcessOk(s: State, q: Process, exact: bool) {
    match q
    case AskingCache(user, row) => row.version > 0 && RowOk(s, user, row)
    case ReadingFile(user, row) => row.version > 0 && RowOk(s, user, row)
    case Filling(user, row, picture) => row.version > 0 && RowOk(s, user, row) && Holds(s, user, row.version, picture)
    case Shown(user, row, picture) => exact ==> Holds(s, user, row.version, picture)
    case Starting(_, picture) => picture.mime != ""
    case Storing(_, picture, _) => picture.mime != ""
    case Updating(_, picture, _, path) => picture.mime != "" && path in s.written && s.written[path] == picture.data
    case ReadingBack(user, picture, _, _, made) =>
      && user in s.rows && 0 < made <= s.rows[user].version && Holds(s, user, made, picture)
      && (exact ==> s.rows[user].version == made)
    case Evicting(user, picture, _, version, made) => UploadOk(s, user, picture, version, made, exact)
    case Caching(user, picture, version, made) => UploadOk(s, user, picture, version, made, exact)
    case Uploaded(user, picture, version, made) => UploadOk(s, user, picture, version, made, exact)
    case _ => true
  }

  /** An upload past its read-back: `made` is its own version, `version` the one it read. */
  ghost predicate UploadOk(s: State, user: nat, picture: Picture, version: nat, made: nat, exact: bool) {
    && Version(user, version) in s.installed && Holds(s, user, made, picture)
    && made <= version && (exact ==> version == made)
  }

  ghost predicate Coherent(s: State) {
    forall key :: key in s.cache ==> key in s.installed && s.cache[key] == s.installed[key]
  }

  /** Rows, files, history and requests agree on every run; so does the cache if no uploads overlap. */
  ghost predicate Inv(s: State, exact: bool) {
    && (exact ==> Coherent(s))
    && (forall user :: user in s.rows ==> RowOk(s, user, s.rows[user]))
    && (forall path :: path in s.files ==> path in s.written && s.written[path] == s.files[path])
    && (forall key :: key in s.installed ==> key.user in s.rows && key.number <= s.rows[key.user].version)
    && (forall p :: p in s.processes ==> ProcessOk(s, s.processes[p], exact))
  }

  // ---------- every step keeps the invariant ----------

  /** History is only added to. */
  ghost predicate Grows(s: State, t: State) {
    && (forall key :: key in s.installed ==> key in t.installed && t.installed[key] == s.installed[key])
    && (forall path :: path in s.written ==> path in t.written && t.written[path] == s.written[path])
  }

  lemma ProcessKept(s: State, t: State, q: Process, exact: bool)
    requires Grows(s, t) && ProcessOk(s, q, exact)
    requires q.ReadingBack? ==> q.user in t.rows && s.rows[q.user].version <= t.rows[q.user].version
    requires q.ReadingBack? && exact ==> t.rows[q.user] == s.rows[q.user]
    ensures ProcessOk(t, q, exact)
  {
  }

  /** A step that touches no row moves one process and maybe a file or a cache entry. */
  lemma LocalStep(s: State, t: State, p: nat, exact: bool)
    requires Inv(s, exact) && Grows(s, t) && t.rows == s.rows && t.installed == s.installed
    requires forall q :: q in t.processes && q != p ==> q in s.processes && t.processes[q] == s.processes[q]
    requires p in t.processes ==> ProcessOk(t, t.processes[p], exact)
    requires exact ==> Coherent(t)
    requires forall path :: path in t.files ==> path in t.written && t.written[path] == t.files[path]
    ensures Inv(t, exact)
  {
    forall q | q in t.processes ensures ProcessOk(t, t.processes[q], exact) {
      if q != p {
        ProcessKept(s, t, s.processes[q], exact);
      }
    }
  }

  /** The UPDATE makes a version that was never installed before. */
  lemma InstalledFresh(s: State, p: nat, ok: bool, exact: bool)
    requires Inv(s, exact) && Enabled(s, Update(p, true, ok)) && s.processes[p].user in s.rows
    ensures var t := Do(s, Update(p, true, ok));
      && Grows(s, t) && (exact ==> Coherent(t))
      && (forall user :: user in t.rows ==> RowOk(t, user, t.rows[user]))
  {
    var t, q := Do(s, Update(p, true, ok)), s.processes[p];
    var key := Version(q.user, s.rows[q.user].version + 1);
    assert ProcessOk(s, q, exact);
    assert key !in s.installed;
    assert Grows(s, t);
    forall user | user in t.rows ensures RowOk(t, user, t.rows[user]) {
      assert user != q.user ==> RowOk(s, user, s.rows[user]);
    }
  }

  /** The UPDATE, for a user with no other upload between its UPDATE and its read-back. */
  lemma InstallStep(s: State, p: nat, ok: bool, exact: bool)
    requires Inv(s, exact) && Enabled(s, Update(p, true, ok)) && (exact ==> Clear(s, Update(p, true, ok)))
    requires s.processes[p].user in s.rows
    ensures Inv(Do(s, Update(p, true, ok)), exact)
  {
    var t := Do(s, Update(p, true, ok));
    InstalledFresh(s, p, ok, exact);
    assert ProcessOk(s, s.processes[p], exact);
    forall r | r in t.processes ensures ProcessOk(t, t.processes[r], exact) {
      if r != p {
        ProcessKept(s, t, s.processes[r], exact);
      }
    }
  }

  lemma GetStarts(s: State, p: nat, user: nat, exact: bool)
    requires Inv(s, exact) && Enabled(s, StartGet(p, user))
    ensures Inv(Do(s, StartGet(p, user)), exact)
  {
    LocalStep(s, Do(s, StartGet(p, user)), p, exact);
  }

  lemma UploadStarts(s: State, p: nat, user: nat, picture: Picture, exact: bool)
    requires Inv(s, exact) && Enabled(s, StartUpload(p, user, picture))
    ensures Inv(Do(s, StartUpload(p, user, picture)), exact)
  {
    LocalStep(s, Do(s, StartUpload(p, user, picture)), p, exact);
  }

  lemma ProfileSelected(s: State, p: nat, ok: bool, exact: bool)
    requires Inv(s, exact) && Enabled(s, SelectProfile(p, ok))
    ensures Inv(Do(s, SelectProfile(p, ok)), exact)
  {
    assert ProcessOk(s, s.processes[p], exact);
    LocalStep(s, Do(s, SelectProfile(p, ok)), p, exact);
  }

  lemma CacheAsked(s: State, p: nat, ok: bool, exact: bool)
    requires Inv(s, exact) && Enabled(s, CacheGet(p, ok))
    ensures Inv(Do(s, CacheGet(p, ok)), exact)
  {
    assert ProcessOk(s, s.processes[p], exact);
    LocalStep(s, Do(s, CacheGet(p, ok)), p, exact);
  }

  lemma FileRead(s: State, p: nat, ok: bool, exact: bool)
    requires Inv(s, exact) && Enabled(s, ReadFile(p, ok))
    ensures Inv(Do(s, ReadFile(p, ok)), exact)
  {
    assert ProcessOk(s, s.processes[p], exact);
    LocalStep(s, Do(s, ReadFile(p, ok)), p, exact);
  }

  lemma CacheFilled(s: State, p: nat, ok: bool, exact: bool)
    requires Inv(s, exact) && Enabled(s, CacheFill(p, ok))
    ensures Inv(Do(s, CacheFill(p, ok)), exact)
  {
    assert ProcessOk(s, s.processes[p], exact);
    LocalStep(s, Do(s, CacheFill(p, ok)), p, exact);
  }

  lemma OldSelected(s: State, p: nat, ok: bool, exact: bool)
    requires Inv(s, exact) && Enabled(s, SelectOld(p, ok))
    ensures Inv(Do(s, SelectOld(p, ok)), exact)
  {
    assert ProcessOk(s, s.processes[p], exact);
    LocalStep(s, Do(s, SelectOld(p, ok)), p, exact);
  }

  lemma FileWritten(s: State, p: nat, path: string, ok: bool, exact: bool)
    requires Inv(s, exact) && Enabled(s, WriteFile(p, path, ok))
    ensures Inv(Do(s, WriteFile(p, path, ok)), exact)
  {
    assert ProcessOk(s, s.processes[p], exact);
    LocalStep(s, Do(s, WriteFile(p, path, ok)), p, exact);
  }

  lemma BackSelected(s: State, p: nat, ok: bool, exact: bool)
    requires Inv(s, exact) && Enabled(s, SelectBack(p, ok))
    ensures Inv(Do(s, SelectBack(p, ok)), exact)
  {
    assert ProcessOk(s, s.processes[p], exact);
    LocalStep(s, Do(s, SelectBack(p, ok)), p, exact);
  }

  lemma OldEvicted(s: State, p: nat, ok: bool, exact: bool)
    requires Inv(s, exact) && Enabled(s, CacheDelete(p, ok))
    ensures Inv(Do(s, CacheDelete(p, ok)), exact)
  {
    assert ProcessOk(s, s.processes[p], exact);
    LocalStep(s, Do(s, CacheDelete(p, ok)), p, exact);
  }

  lemma CacheSaved(s: State, p: nat, ok: bool, exact: bool)
    requires Inv(s, exact) && Enabled(s, CacheSave(p, ok))
    ensures Inv(Do(s, CacheSave(p, ok)), exact)
  {
    assert ProcessOk(s, s.processes[p], exact);
    LocalStep(s, Do(s, CacheSave(p, ok)), p, exact);
  }

  lemma FileRemoved(s: State, p: nat, ok: bool, exact: bool)
    requires Inv(s, exact) && Enabled(s, Remove(p, ok))
    ensures Inv(Do(s, Remove(p, ok)), exact)
  {
    assert ProcessOk(s, s.processes[p], exact);
    LocalStep(s, Do(s, Remove(p, ok)), p, exact);
  }

  lemma UpdateMissed(s: State, p: nat, effect: bool, ok: bool, exact: bool)
    requires Inv(s, exact) && Enabled(s, Update(p, effect, ok)) && (s.processes[p].user !in s.rows || !effect)
    ensures Inv(Do(s, Update(p, effect, ok)), exact)
  {
    LocalStep(s, Do(s, Update(p, effect, ok)), p, exact);
  }

  lemma EntryExpired(s: State, key: Version, exact: bool)
    requires Inv(s, exact)
    ensures Inv(Do(s, Expire(key)), exact)
  {
    LocalStep(s, Do(s, Expire(key)), 0, exact);
  }

  lemma StepKeepsInv(s: State, step: Step, exact: bool)
    requires Inv(s, exact) && Enabled(s, step) && (exact ==> Clear(s, step))
    ensures Inv(Do(s, step), exact)
  {
    match step {
      case StartGet(p, user) => GetStarts(s, p, user, exact);
      case StartUpload(p, user, picture) => UploadStarts(s, p, user, picture, exact);
      case SelectProfile(p, ok) => ProfileSelected(s, p, ok, exact);
      case CacheGet(p, ok) => CacheAsked(s, p, ok, exact);
      case ReadFile(p, ok) => FileRead(s, p, ok, exact);
      case CacheFill(p, ok) => CacheFilled(s, p, ok, exact);
      case Expire(key) => EntryExpired(s, key, exact);
      case _ => UploadStepKeepsInv(s, step, exact);
    }
  }

  lemma UploadStepKeepsInv(s: State, step: Step, exact: bool)
    requires Inv(s, exact) && Enabled(s, step) && (exact ==> Clear(s, step))
    requires step.SelectOld? || step.WriteFile? || step.Update? || step.SelectBack? ||
             step.CacheDelete? || step.CacheSave? || step.Remove?
    ensures Inv(Do(s, step), exact)
  {
    match step {
      case SelectOld(p, ok) => OldSelected(s, p, ok, exact);
      case WriteFile(p, path, ok) => FileWritten(s, p, path, ok, exact);
      case Update(p, effect, ok) =>
        if s.processes[p].user in s.rows && effect {
          InstallStep(s, p, ok, exact);
        } else {
          UpdateMissed(s, p, effect, ok, exact);
        }
      case SelectBack(p, ok) => BackSelected(s, p, ok, exact);
      case CacheDelete(p, ok) => OldEvicted(s, p, ok, exact);
      case CacheSave(p, ok) => CacheSaved(s, p, ok, exact);
      case Remove(p, ok) => FileRemoved(s, p, ok, exact);
    }
  }

  // ---------- runs ----------

  /** A run in which UPDATE and read-back of one user's uploads do not interleave. */
  ghost predicate ClearRun(s: State, steps: seq<Step>)
    decreases |steps|
  {
    steps == [] || (Enabled(s, steps[0]) && Clear(s, steps[0]) && ClearRun(Do(s, steps[0]), steps[1..]))
  }

  ghost function After(s: State, steps: seq<Step>): State
    requires ValidRun(s, steps)
    decreases |steps|
  {
    if steps == [] then s else After(Do(s, steps[0]), steps[1..])
  }

  ghost predicate ValidRun(s: State, steps: seq<Step>)
    decreases |steps|
  {
    steps == [] || (Enabled(s, steps[0]) && ValidRun(Do(s, steps[0]), steps[1..]))
  }

  lemma {:induction false} RunKeepsInv(s: State, steps: seq<Step>, exact: bool)
    requires Inv(s, exact) && ValidRun(s, steps) && (exact ==> ClearRun(s, steps))
    ensures Inv(After(s, steps), exact)
    decreases |steps|
  {
    if steps == [] {
    } else {
      StepKeepsInv(s, steps[0], exact);
      RunKeepsInv(Do(s, steps[0]), steps[1..], exact);
    }
  }

  lemma {:induction false} ClearIsValid(s: State, steps: seq<Step>)
    requires ClearRun(s, steps)
    ensures ValidRun(s, steps)
    decreases |steps|
  {
    if steps == [] {
    } else {
      ClearIsValid(Do(s, steps[0]), steps[1..]);
    }
  }

  /** No picture uploaded yet, nothing cached, nobody at work. */
  function Init(users: set<nat>): State {
    State(map user | user in users :: Row(None, None, 0), map[], map[], map[], map[], map[])
  }

  /** Coherence: whatever fails and however readers and uploads interleave, every
      cache entry for a version is the picture installed as that version, and
      every picture shown is the one installed as the version its reader saw. */
  lemma CacheCoherence(users: set<nat>, steps: seq<Step>)
    requires ClearRun(Init(users), steps)
    ensures ValidRun(Init(users), steps)
    ensures Coherent(After(Init(users), steps))
    ensures var t := After(Init(users), steps);
      forall p :: p in t.processes && t.processes[p].Shown? ==>
        Holds(t, t.processes[p].user, t.processes[p].row.version, t.processes[p].picture)
  {
    ClearIsValid(Init(users), steps);
    RunKeepsInv(Init(users), steps, true);
    var t := After(Init(users), steps);
    forall p | p in t.processes && t.processes[p].Shown?
      ensures Holds(t, t.processes[p].user, t.processes[p].row.version, t.processes[p].picture)
    {
      assert ProcessOk(t, t.processes[p], true);
    }
  }

  /** A run with at most one upload per user at any time. */
  ghost predicate ExclusiveRun(s: State, steps: seq<Step>)
    requires ValidRun(s, steps)
    decreases |steps|
  {
    Exclusive(s) && (steps == [] || ExclusiveRun(Do(s, steps[0]), steps[1..]))
  }

  lemma {:induction false} ExclusiveRunIsClear(s: State, steps: seq<Step>)
    requires ValidRun(s, steps) && ExclusiveRun(s, steps)
    ensures ClearRun(s, steps)
    decreases |steps|
  {
    if steps == [] {
    } else {
      ExclusiveIsClear(s, steps[0]);
      ExclusiveRunIsClear(Do(s, steps[0]), steps[1..]);
    }
  }

  /** One upload per user at a time is enough for coherence. */
  lemma ExclusiveCoherence(users: set<nat>, steps: seq<Step>)
    requires ValidRun(Init(users), steps) && ExclusiveRun(Init(users), steps)
    ensures Coherent(After(Init(users), steps))
  {
    ExclusiveRunIsClear(Init(users), steps);
    CacheCoherence(users, steps);
  }

  /** Past its profile read, a reader carries the row it read. */
  predicate ReaderOf(q: Process, user: nat, row: Row) {
    (q.AskingCache? || q.ReadingFile? || q.Filling? || q.Shown?) && q.user == user && q.row == row
  }

  lemma StepKeepsReader(s: State, step: Step, p: nat, user: nat, row: Row)
    requires Enabled(s, step) && p in s.processes && (ReaderOf(s.processes[p], user, row) || s.processes[p] == Ended)
    ensures p in Do(s, step).processes
    ensures (ReaderOf(Do(s, step).processes[p], user, row) || Do(s, step).processes[p] == Ended)
  {
  }

  lemma StepGrows(s: State, step: Step)
    requires Inv(s, false) && Enabled(s, step)
    ensures Grows(s, Do(s, step))
  {
  }

  lemma {:induction false} RunKeepsReader(s: State, steps: seq<Step>, p: nat, user: nat, row: Row)
    requires Inv(s, true) && ClearRun(s, steps) && ValidRun(s, steps)
    requires p in s.processes && (ReaderOf(s.processes[p], user, row) || s.processes[p] == Ended)
    ensures var t := After(s, steps);
      p in t.processes && (ReaderOf(t.processes[p], user, row) || t.processes[p] == Ended)
    ensures Grows(s, After(s, steps))
    decreases |steps|
  {
    if steps == [] {
    } else {
      var t := Do(s, steps[0]);
      StepKeepsReader(s, steps[0], p, user, row);
      StepGrows(s, steps[0]);
      StepKeepsInv(s, steps[0], true);
      RunKeepsReader(t, steps[1..], p, user, row);
    }
  }

  /** A successful GetProfilePicture returns the picture that was current when it
      read the profile, whatever happened since. */
  lemma GetReturnsCurrent(s: State, p: nat, steps: seq<Step>)
    requires Inv(s, true) && Enabled(s, SelectProfile(p, true))
    requires ClearRun(Do(s, SelectProfile(p, true)), steps) && ValidRun(Do(s, SelectProfile(p, true)), steps)
    ensures var t := After(Do(s, SelectProfile(p, true)), steps);
      p in t.processes && t.processes[p].Shown? ==>
        var user := s.processes[p].user;
        && t.processes[p].user == user && user in s.rows
        && Holds(s, user, s.rows[user].version, t.processes[p].picture)
  {
    var user, s' := s.processes[p].user, Do(s, SelectProfile(p, true));
    var t := After(s', steps);
    StepKeepsInv(s, SelectProfile(p, true), true);
    RunKeepsInv(s', steps, true);
    var row := if user in s.rows then s.rows[user] else Row(None, None, 0);
    assert ReaderOf(s'.processes[p], user, row) || s'.processes[p] == Ended;
    RunKeepsReader(s', steps, p, user, row);
    if p in t.processes && t.processes[p].Shown? {
      assert ProcessOk(t, t.processes[p], true);
      if s'.processes[p] == Ended {
        RunKeepsReader(s', steps, p, user, Row(None, None, row.version + 1));
      } else {
        assert RowOk(s, user, row);
      }
    }
  }

  // ---------- why uploads must not overlap ----------

  /** On any run: an upload's save keeps the cache coherent if it read its own version
      back, and otherwise only if the upload that overtook it brought the same picture. */
  lemma SaveKeepsCoherence(s: State, p: nat)
    requires Inv(s, false) && Coherent(s) && Enabled(s, CacheSave(p, true))
    ensures var q := s.processes[p];
      && Version(q.user, q.version) in s.installed && Version(q.user, q.made) in s.installed
      && (Coherent(Do(s, CacheSave(p, true))) <==>
           q.version == q.made || s.installed[Version(q.user, q.version)] == s.installed[Version(q.user, q.made)])
  {
    var q, t := s.processes[p], Do(s, CacheSave(p, true));
    assert ProcessOk(s, q, false);
    assert t.cache[Version(q.user, q.version)] == q.picture;
  }

  /** No other statement can make the cache wrong. */
  lemma OnlySavesMisfile(s: State, step: Step)
    requires Inv(s, false) && Coherent(s) && Enabled(s, step) && !step.CacheSave?
    ensures Coherent(Do(s, step))
  {
    StepGrows(s, step);
    if step.CacheFill? {
      assert ProcessOk(s, s.processes[step.p], false);
    }
  }

  /** UPDATEs of the user that take effect during a run. */
  ghost function Updates(s: State, steps: seq<Step>, user: nat): nat
    requires ValidRun(s, steps)
    decreases |steps|
  {
    if steps == [] then 0
    else (if Installs(s, steps[0], user) then 1 else 0) + Updates(Do(s, steps[0]), steps[1..], user)
  }

  predicate Installs(s: State, step: Step, user: nat)
    requires Enabled(s, step)
  {
    step.Update? && step.effect && s.processes[step.p].user == user && user in s.rows
  }

  lemma StepVersion(s: State, step: Step, user: nat)
    requires Enabled(s, step) && user in s.rows
    ensures user in Do(s, step).rows
    ensures Do(s, step).rows[user].version == s.rows[user].version + if Installs(s, step, user) then 1 else 0
  {
  }

  /** Versions count the UPDATEs. */
  lemma {:induction false} VersionsCount(s: State, steps: seq<Step>, user: nat)
    requires ValidRun(s, steps) && user in s.rows
    ensures user in After(s, steps).rows
    ensures After(s, steps).rows[user].version == s.rows[user].version + Updates(s, steps, user)
    decreases |steps|
  {
    if steps == [] {
    } else {
      StepVersion(s, steps[0], user);
      VersionsCount(Do(s, steps[0]), steps[1..], user);
    }
  }

  /** An upload reads its own version back if and only if no UPDATE of the same user took
      effect since its own; whatever else happened in between. */
  lemma ReadBackIsOwn(s: State, p: nat, steps: seq<Step>)
    requires p in s.processes && s.processes[p].ReadingBack? && s.processes[p].user in s.rows
    requires s.rows[s.processes[p].user].version == s.processes[p].made
    requires ValidRun(s, steps) && p in After(s, steps).processes && After(s, steps).processes[p] == s.processes[p]
    ensures Enabled(After(s, steps), SelectBack(p, true))
    ensures var q := Next(After(s, steps), SelectBack(p, true));
      q.Evicting? && (q.version == q.made <==> Updates(s, steps, q.user) == 0)
  {
    VersionsCount(s, steps, s.processes[p].user);
  }

  /** The condition is needed: wherever an UPDATE may come between another upload's
      UPDATE and read-back with a different picture, the run can go on to file
      the first picture under the second one's version. */
  lemma OverlapBreaksCoherence(s: State, p: nat, q: nat) returns (steps: seq<Step>)
    requires p in s.processes && q in s.processes && p != q && s.processes[p].ReadingBack? && s.processes[q].Updating?
    requires s.processes[p].user == s.processes[q].user && s.processes[p].user in s.rows
    requires s.processes[p].picture != s.processes[q].picture
    ensures steps != [] && ValidRun(s, steps) && steps[0] == Update(q, true, true) && !Clear(s, steps[0])
    ensures !Coherent(After(s, steps))
  {
    var key := Version(s.processes[p].user, s.rows[s.processes[p].user].version + 1);
    var s1 := Do(s, Update(q, true, true));
    assert s1.processes[p] == s.processes[p] && s1.installed[key] == s.processes[q].picture;
    var s2 := Do(s1, SelectBack(p, true));
    var s3 := Do(s2, CacheDelete(p, true));
    var s4 := Do(s3, CacheSave(p, true));
    assert s4.cache[key] == s.processes[p].picture && s4.installed[key] == s.processes[q].picture;
    RunOf4(s, Update(q, true, true), SelectBack(p, true), CacheDelete(p, true), CacheSave(p, true));
    steps := [Update(q, true, true), SelectBack(p, true), CacheDelete(p, true), CacheSave(p, true)];
  }

  lemma RunCons(s: State, a: Step, rest: seq<Step>)
    requires Enabled(s, a) && ValidRun(Do(s, a), rest)
    ensures ValidRun(s, [a] + rest) && After(s, [a] + rest) == After(Do(s, a), rest)
  {
    assert ([a] + rest)[1..] == rest;
  }

  lemma RunOf2(s: State, a: Step, b: Step)
    requires Enabled(s, a) && Enabled(Do(s, a), b)
    ensures ValidRun(s, [a, b]) && After(s, [a, b]) == Do(Do(s, a), b)
  {
    RunCons(Do(s, a), b, []);
    RunCons(s, a, [b] + []);
    assert [a, b] == [a] + ([b] + []);
  }

  lemma RunOf4(s: State, a: Step, b: Step, c: Step, d: Step)
    requires Enabled(s, a) && Enabled(Do(s, a), b) && Enabled(Do(Do(s, a), b), c) && Enabled(Do(Do(Do(s, a), b), c), d)
    ensures ValidRun(s, [a, b, c, d]) && After(s, [a, b, c, d]) == Do(Do(Do(Do(s, a), b), c), d)
  {
    var s1 := Do(s, a);
    RunOf2(Do(s1, b), c, d);
    RunCons(s1, b, [c, d]);
    RunCons(s, a, [b] + [c, d]);
    assert [a, b, c, d] == [a] + ([b] + [c, d]);
  }

  /** Such a state is reached by two ordinary overlapping uploads. */
  lemma OverlapReached(user: nat, a: Picture, b: Picture) returns (steps: seq<Step>)
    requires a.mime != "" && b.mime != ""
    ensures ClearRun(Init({user}), steps) && ValidRun(Init({user}), steps)
    ensures var t := After(Init({user}), steps);
      t.processes == map[1 := ReadingBack(user, a, 0, "a", 1), 2 := Updating(user, b, 0, "b")] && user in t.rows
  {
    steps := OverlapStored(user, a, b);
    var s := Init({user});
    steps := Extended(s, steps, WriteFile(1, "a", true));
    steps := Extended(s, steps, WriteFile(2, "b", true));
    steps := Extended(s, steps, Update(1, true, true));
    assert After(s, steps).processes == map[1 := ReadingBack(user, a, 0, "a", 1), 2 := Updating(user, b, 0, "b")];
  }

  lemma OverlapStored(user: nat, a: Picture, b: Picture) returns (steps: seq<Step>)
    requires a.mime != "" && b.mime != ""
    ensures ClearRun(Init({user}), steps) && ValidRun(Init({user}), steps)
    ensures After(Init({user}), steps) ==
            Init({user}).(processes := map[1 := Storing(user, a, 0), 2 := Storing(user, b, 0)])
  {
    var s := Init({user});
    steps := [];
    steps := Extended(s, steps, StartUpload(1, user, a));
    steps := Extended(s, steps, StartUpload(2, user, b));
    steps := Extended(s, steps, SelectOld(1, true));
    steps := Extended(s, steps, SelectOld(2, true));
    assert After(s, steps).processes == map[1 := Storing(user, a, 0), 2 := Storing(user, b, 0)];
  }

  lemma {:induction false} Extended(s: State, steps: seq<Step>, step: Step) returns (longer: seq<Step>)
    requires ClearRun(s, steps) && ValidRun(s, steps) && Enabled(After(s, steps), step) && Clear(After(s, steps), step)
    ensures ClearRun(s, longer) && ValidRun(s, longer) && After(s, longer) == Do(After(s, steps), step)
    decreases |steps|
  {
    if steps == [] {
      longer := [step];
    } else {
      var rest := Extended(Do(s, steps[0]), steps[1..], step);
      longer := [steps[0]] + rest;
      assert longer[1..] == rest;
    }
  }

  // ---------- when a row loses its file ----------

  /** The file a request has written and may still install or remove. */
  function PathOf(q: Process): Option<string> {
    match q
    case Updating(_, _, _, path) => Some(path)
    case ReadingBack(_, _, _, path, _) => Some(path)
    case Undoing(path) => Some(path)
    case _ => None
  }

  /** No two requests share a file. */
  ghost predicate OwnPaths(s: State) {
    && (forall p :: p in s.processes && PathOf(s.processes[p]).Some? ==> PathOf(s.processes[p]).value in s.written)
    && (forall p, q :: p in s.processes && q in s.processes && p != q && PathOf(s.processes[p]).Some? ==>
          PathOf(s.processes[p]) != PathOf(s.processes[q]))
  }

  predicate Present(s: State, row: Row) {
    row.version > 0 ==> row.path.Some? && row.path.value in s.files
  }

  /** Every picture in a row, or about to go into one, has its file. */
  ghost predicate OnDisk(s: State) {
    && (forall user :: user in s.rows ==> Present(s, s.rows[user]))
    && (forall p :: p in s.processes && s.processes[p].Updating? ==> s.processes[p].path in s.files)
  }

  /** No row names a file that a request may still install or is about to remove, and a row that
      names the file of an upload in its read-back is that upload's own. */
  ghost predicate Unnamed(s: State) {
    forall p, user :: p in s.processes && PathOf(s.processes[p]).Some? &&
                      user in s.rows && Names(s, user, PathOf(s.processes[p]).value) ==>
      s.processes[p].ReadingBack? && s.processes[p].user == user
  }

  predicate Names(s: State, user: nat, path: string)
    requires user in s.rows
  {
    s.rows[user].version > 0 && s.rows[user].path == Some(path)
  }

  ghost predicate Sound(s: State) {
    && OwnPaths(s) && OnDisk(s) && Unnamed(s)
    && (forall path :: path in s.files ==> path in s.written) && "" !in s.written
    && (forall p :: p in s.processes && s.processes[p].ReadingBack? ==> s.processes[p].user in s.rows)
  }

  /** The failing branch: an UPDATE that took effect is reported as an error, or its
      read-back fails while the row is still the one it wrote. */
  predicate Fails(s: State, step: Step)
    requires Enabled(s, step)
  {
    || (step.Update? && step.effect && !step.ok && s.processes[step.p].user in s.rows)
    || (step.SelectBack? && !step.ok && s.processes[step.p].user in s.rows &&
        Names(s, s.processes[step.p].user, s.processes[step.p].path))
  }

  /** A request gets hold of a file only by writing it. */
  lemma NextPath(s: State, step: Step)
    requires Enabled(s, step) && !step.Expire?
    ensures var path := PathOf(Next(s, step));
      path.Some? ==>
        if step.WriteFile? then path == Some(step.path)
        else step.p in s.processes && path == PathOf(s.processes[step.p])
    ensures Next(s, step).Updating? ==> step.WriteFile? && step.ok
  {
  }

  lemma EffectFrame(s: State, step: Step)
    requires Enabled(s, step)
    ensures var t := Effect(s, step);
      && t.processes == s.processes
      && (!step.Update? ==> t.rows == s.rows)
      && (!step.Remove? ==> forall path :: path in s.files ==> path in t.files)
      && (step.WriteFile? ==> step.path !in s.written && step.path in t.written && (step.ok ==> step.path in t.files))
      && (forall path :: path in s.written ==> path in t.written) && ("" !in s.written ==> "" !in t.written)
  {
  }

  lemma StepKeepsPaths(s: State, step: Step)
    requires OwnPaths(s) && Enabled(s, step)
    ensures OwnPaths(Do(s, step))
  {
    EffectFrame(s, step);
    if !step.Expire? {
      NextPath(s, step);
      PathsKept(s, Effect(s, step), step.p, Next(s, step));
    }
  }

  lemma PathsKept(s: State, t: State, p: nat, q: Process)
    requires OwnPaths(s) && t.processes == s.processes && forall path :: path in s.written ==> path in t.written
    requires PathOf(q).Some? ==>
      (p in s.processes && PathOf(q) == PathOf(s.processes[p])) || PathOf(q).value in t.written.Keys - s.written.Keys
    ensures OwnPaths(t.(processes := s.processes[p := q]))
  {
  }

  /** Every picture keeps its file, and no clean-up under way threatens one, exactly until a failing branch is taken. */
  lemma StepKeepsFiles(s: State, step: Step)
    requires Sound(s) && Enabled(s, step)
    ensures Sound(Do(s, step)) <==> !Fails(s, step)
  {
    StepKeepsPaths(s, step);
    match step {
      case Remove(p, ok) => RemoveFiles(s, p, ok);
      case Update(p, effect, ok) => UpdateFiles(s, p, effect, ok);
      case SelectBack(p, ok) => BackFiles(s, p, ok);
      case _ => OtherFiles(s, step);
    }
  }

  lemma OtherFiles(s: State, step: Step)
    requires Sound(s) && Enabled(s, step) && OwnPaths(Do(s, step)) && !step.Remove? && !step.Update?
    requires !step.SelectBack?
    ensures Sound(Do(s, step))
  {
    EffectFrame(s, step);
    if !step.Expire? {
      NextPath(s, step);
      Moved(s, Do(s, step), step.p, Next(s, step));
    }
  }

  /** A request moves on without touching a row or removing a file; a file it gets hold of is new. */
  lemma Moved(s: State, t: State, p: nat, q: Process)
    requires Sound(s) && OwnPaths(t) && t.rows == s.rows && t.processes == s.processes[p := q] && !q.ReadingBack?
    requires (forall path :: path in s.files ==> path in t.files) && forall path :: path in t.files ==>
      path in t.written
    requires PathOf(q).Some? ==> PathOf(q).value !in s.written
    requires (q.Updating? ==> q.path in t.files) && "" !in t.written
    ensures Sound(t)
  {
  }

  lemma UpdateFiles(s: State, p: nat, effect: bool, ok: bool)
    requires Sound(s) && Enabled(s, Update(p, effect, ok)) && OwnPaths(Do(s, Update(p, effect, ok)))
    ensures Sound(Do(s, Update(p, effect, ok))) <==> !Fails(s, Update(p, effect, ok))
  {
    var q, t := s.processes[p], Do(s, Update(p, effect, ok));
    if q.user in s.rows && effect {
      Installed(s, t, p, q.user, t.rows[q.user], t.processes[p]);
    } else {
      Undone(s, t, p, q.path);
    }
  }

  /** The row now names the file the request wrote. */
  lemma Installed(s: State, t: State, p: nat, user: nat, row: Row, q: Process)
    requires Sound(s) && p in s.processes && s.processes[p].Updating? && user == s.processes[p].user && user in s.rows
    requires row.version > 0 && row.path == Some(s.processes[p].path)
    requires t.rows == s.rows[user := row] && t.processes == s.processes[p := q] && t.files == s.files
    requires t.written == s.written
    requires OwnPaths(t) && PathOf(q) == row.path && (q.Undoing? || (q.ReadingBack? && q.user == user))
    ensures Sound(t) <==> q.ReadingBack?
  {
    var path := s.processes[p].path;
    assert PathOf(s.processes[p]) == Some(path) && path in s.files && Names(t, user, path);
    if q.ReadingBack? {
      InstalledUnnamed(s, t, p, user, row, q);
    } else {
      assert PathOf(t.processes[p]) == Some(path);
    }
  }

  lemma InstalledUnnamed(s: State, t: State, p: nat, user: nat, row: Row, q: Process)
    requires OwnPaths(s) && Unnamed(s) && p in s.processes && PathOf(s.processes[p]) == row.path && row.path.Some?
    requires user in s.rows
    requires t.rows == s.rows[user := row] && t.processes == s.processes[p := q]
    requires PathOf(q) == row.path && q.ReadingBack? && q.user == user && !s.processes[p].ReadingBack?
    ensures Unnamed(t)
  {
    forall r, u | r in t.processes && PathOf(t.processes[r]).Some? &&
                  u in t.rows && Names(t, u, PathOf(t.processes[r]).value)
      ensures t.processes[r].ReadingBack? && t.processes[r].user == u
    {
      if u != user {
        assert Names(s, u, PathOf(t.processes[r]).value);
      } else {
        assert PathOf(t.processes[r]) == PathOf(s.processes[p]);
      }
    }
  }

  /** A request is about to remove its file, which is safe exactly if no row names it. */
  lemma Undone(s: State, t: State, p: nat, path: string)
    requires Sound(s) && p in s.processes && PathOf(s.processes[p]) == Some(path)
    requires t == s.(processes := s.processes[p := Undoing(path)]) && OwnPaths(t)
    ensures Sound(t) <==> !(s.processes[p].ReadingBack? && Names(s, s.processes[p].user, path))
  {
    assert PathOf(t.processes[p]) == Some(path);
    forall user | user in s.rows ensures Names(t, user, path) <==> Names(s, user, path) {
    }
  }

  lemma BackFiles(s: State, p: nat, ok: bool)
    requires Sound(s) && Enabled(s, SelectBack(p, ok)) && OwnPaths(Do(s, SelectBack(p, ok)))
    ensures Sound(Do(s, SelectBack(p, ok))) <==> !Fails(s, SelectBack(p, ok))
  {
    var q, t := s.processes[p], Do(s, SelectBack(p, ok));
    if ok {
      Moved(s, t, p, t.processes[p]);
    } else {
      Undone(s, t, p, q.path);
    }
  }

  lemma RemoveFiles(s: State, p: nat, ok: bool)
    requires Sound(s) && Enabled(s, Remove(p, ok)) && OwnPaths(Do(s, Remove(p, ok)))
    ensures Sound(Do(s, Remove(p, ok)))
  {
    if ok {
      Removed(s, Do(s, Remove(p, ok)), p, s.processes[p].path);
    } else {
      Moved(s, Do(s, Remove(p, ok)), p, Ended);
    }
  }

  lemma Removed(s: State, t: State, p: nat, path: string)
    requires Sound(s) && p in s.processes && s.processes[p] == Undoing(path)
    requires t == s.(processes := s.processes[p := Ended], files := s.files - {path}) && OwnPaths(t)
    ensures Sound(t)
  {
    assert PathOf(s.processes[p]) == Some(path);
    forall user | user in t.rows ensures Present(t, t.rows[user]) {
      assert !Names(s, user, path) && Present(s, s.rows[user]);
    }
    forall r | r in t.processes && t.processes[r].Updating? ensures t.processes[r].path in t.files {
      assert PathOf(s.processes[r]) == Some(t.processes[r].path);
    }
  }

  /** Once a failing branch is taken, the clean-up that follows it loses the file of a row. */
  lemma FailureLosesFile(s: State, step: Step)
    requires Sound(s) && Enabled(s, step) && Fails(s, step)
    ensures ValidRun(s, [step, Remove(step.p, true)]) && !OnDisk(After(s, [step, Remove(step.p, true)]))
  {
    var q, s1 := s.processes[step.p], Do(s, step);
    assert s1.processes[step.p] == Undoing(q.path) && Names(s1, q.user, q.path);
    RunOf2(s, step, Remove(step.p, true));
    var s2 := Do(s1, Remove(step.p, true));
    assert s2.rows == s1.rows && !Present(s2, s2.rows[q.user]);
  }

  /** An error means that nothing happened, and no read-back fails. */
  predicate Honest(step: Step) {
    (step.Update? && step.effect ==> step.ok) && (step.SelectBack? ==> step.ok)
  }

  ghost predicate NeverFails(s: State, steps: seq<Step>)
    requires ValidRun(s, steps)
    decreases |steps|
  {
    steps == [] || (!Fails(s, steps[0]) && NeverFails(Do(s, steps[0]), steps[1..]))
  }

  lemma {:induction false} HonestNeverFails(s: State, steps: seq<Step>)
    requires ValidRun(s, steps) && forall i :: 0 <= i < |steps| ==> Honest(steps[i])
    ensures NeverFails(s, steps)
    decreases |steps|
  {
    if steps == [] {
    } else {
      HonestNeverFails(Do(s, steps[0]), steps[1..]);
    }
  }

  lemma {:induction false} RunKeepsSound(s: State, steps: seq<Step>)
    requires Sound(s) && ValidRun(s, steps) && NeverFails(s, steps)
    ensures Sound(After(s, steps))
    decreases |steps|
  {
    if steps == [] {
    } else {
      StepKeepsFiles(s, steps[0]);
      RunKeepsSound(Do(s, steps[0]), steps[1..]);
    }
  }

  /** On every run in which no effective UPDATE is reported as an error and no read-back
      fails, every row has its file. */
  lemma RunKeepsFiles(users: set<nat>, steps: seq<Step>)
    requires ValidRun(Init(users), steps) && forall i :: 0 <= i < |steps| ==> Honest(steps[i])
    ensures OnDisk(After(Init(users), steps))
  {
    HonestNeverFails(Init(users), steps);
    RunKeepsSound(Init(users), steps);
  }

  lemma {:induction false} RunAppends(s: State, steps: seq<Step>, more: seq<Step>)
    requires ValidRun(s, steps) && ValidRun(After(s, steps), more)
    ensures ValidRun(s, steps + more) && After(s, steps + more) == After(After(s, steps), more)
    decreases |steps|
  {
    if steps == [] {
      assert steps + more == more;
    } else {
      RunAppends(Do(s, steps[0]), steps[1..], more);
      assert (steps + more)[1..] == steps[1..] + more;
    }
  }

  /** Conversely, on every run the first failing branch is one clean-up away from a row without its file. */
  lemma FirstFailureLosesFile(users: set<nat>, steps: seq<Step>, step: Step)
    requires ValidRun(Init(users), steps) && NeverFails(Init(users), steps)
    requires Enabled(After(Init(users), steps), step) && Fails(After(Init(users), steps), step)
    ensures var longer := steps + [step, Remove(step.p, true)];
      ValidRun(Init(users), longer) && !OnDisk(After(Init(users), longer))
  {
    RunKeepsSound(Init(users), steps);
    FailureLosesFile(After(Init(users), steps), step);
    RunAppends(Init(users), steps, [step, Remove(step.p, true)]);
  }

  /** It does happen, to any user's first upload. */
  lemma FailedReadBackLosesFile(user: nat, picture: Picture) returns (steps: seq<Step>)
    requires picture.mime != ""
    ensures ValidRun(Init({user}), steps) && !OnDisk(After(Init({user}), steps))
  {
    var s := Init({user});
    steps := [];
    steps := Extended(s, steps, StartUpload(1, user, picture));
    steps := Extended(s, steps, SelectOld(1, true));
    steps := Extended(s, steps, WriteFile(1, "a", true));
    steps := Extended(s, steps, Update(1, true, true));
    assert After(s, steps).rows[user] == Row(Some("a"), Some(picture.mime), 1);
    steps := Extended(s, steps, SelectBack(1, false));
    steps := Extended(s, steps, Remove(1, true));
    assert !Present(After(s, steps), After(s, steps).rows[user]);
  }

  // ---------- everybody gets an answer ----------

  /** The profile read finds a picture exactly if one was ever installed. */
  lemma ProfileFound(s: State, p: nat)
    requires Sound(s) && Enabled(s, SelectProfile(p, true))
    ensures var user, q := s.processes[p].user, Next(s, SelectProfile(p, true));
      if user in s.rows && s.rows[user].version > 0 then q == AskingCache(user, s.rows[user]) else q == Ended
  {
    var user := s.processes[p].user;
    if user in s.rows && s.rows[user].version > 0 {
      assert Present(s, s.rows[user]);
    }
  }

  /** A reader past its profile read, and how many of its own statements are still to come at most. */
  predicate Reader(q: Process) {
    q.AskingCache? || q.ReadingFile? || q.Filling? || q.Shown?
  }

  function Ahead(q: Process): nat {
    if q.AskingCache? then 3 else if q.ReadingFile? then 2 else if q.Filling? then 1 else 0
  }

  /** The file a reader may still need is there, and no clean-up is after it. */
  ghost predicate Kept(s: State, q: Process) {
    q.AskingCache? || q.ReadingFile? ==>
      && q.row.path.Some? && q.row.path.value in s.files
      && forall r :: r in s.processes && PathOf(s.processes[r]) == q.row.path ==> s.processes[r].ReadingBack?
  }

  ghost predicate FilesHeld(s: State) {
    forall p :: p in s.processes ==> Kept(s, s.processes[p])
  }

  /** One step of request `p` to `q` with this effect on the files keeps what another request needs. */
  lemma StillKept(s: State, t: State, p: nat, q: Process, reader: Process)
    requires Kept(s, reader) && t.processes == s.processes[p := q]
    requires forall path :: path in s.files ==> path in s.written
    requires forall path :: path in s.files && path !in t.files ==> p in s.processes && s.processes[p] == Undoing(path)
    requires PathOf(q).Some? && !q.ReadingBack? ==>
      || PathOf(q).value !in s.written
      || (p in s.processes && PathOf(s.processes[p]) == PathOf(q) && !s.processes[p].ReadingBack?)
    ensures Kept(t, reader)
  {
    if reader.AskingCache? || reader.ReadingFile? {
      assert reader.row.path.value in s.written;
      assert p in s.processes && s.processes[p].Undoing? ==> PathOf(s.processes[p]) == Some(s.processes[p].path);
    }
  }

  lemma EffectFiles(s: State, step: Step)
    requires Enabled(s, step)
    ensures forall path :: path in s.files && path !in Effect(s, step).files ==>
      step.Remove? && s.processes[step.p] == Undoing(path)
  {
  }

  lemma HonestPath(s: State, step: Step)
    requires Sound(s) && Enabled(s, step) && Honest(step) && !step.Expire?
    ensures var q := Next(s, step);
      PathOf(q).Some? && !q.ReadingBack? ==>
        || PathOf(q).value !in s.written
        || (step.p in s.processes && PathOf(s.processes[step.p]) == PathOf(q) && !s.processes[step.p].ReadingBack?)
  {
    NextPath(s, step);
  }

  lemma StepHoldsFiles(s: State, step: Step)
    requires Sound(s) && FilesHeld(s) && Enabled(s, step) && Honest(step)
    ensures FilesHeld(Do(s, step))
  {
    var t := Do(s, step);
    EffectFrame(s, step);
    EffectFiles(s, step);
    if !step.Expire? {
      HonestPath(s, step);
      forall p | p in t.processes ensures Kept(t, t.processes[p]) {
        if p != step.p {
          StillKept(s, t, step.p, Next(s, step), s.processes[p]);
        } else {
          MovedKept(s, step);
        }
      }
    }
  }

  /** The request that moved: it starts to need the file of the current row, or needs no more than before. */
  lemma MovedKept(s: State, step: Step)
    requires Sound(s) && FilesHeld(s) && Enabled(s, step) && Honest(step) && !step.Expire?
    ensures Kept(Do(s, step), Next(s, step))
  {
    var q := Next(s, step);
    if q.AskingCache? {
      var user := s.processes[step.p].user;
      assert Names(s, user, q.row.path.value) && Present(s, s.rows[user]);
    } else if q.ReadingFile? {
      assert Kept(s, s.processes[step.p]);
      assert s.processes[step.p].row == q.row;
    }
  }

  /** A statement that fails ends a Get in an error, and an upload after removing what it wrote;
      only the look at the old version and the cache writes may fail without harm. */
  lemma FailureEnds(s: State, step: Step)
    requires Enabled(s, step) && !Works(step)
    ensures !step.Expire? && !Reader(Next(s, step)) && !Uploader(Next(s, step))
    ensures step.Update? || step.SelectBack? ==> Next(s, step) == Undoing(s.processes[step.p].path)
    ensures !step.Update? && !step.SelectBack? ==> Next(s, step) == Ended
  {
  }

  predicate OwnStep(step: Step, p: nat) {
    !step.Expire? && step.p == p
  }

  /** The statement succeeds. */
  predicate Works(step: Step) {
    match step
    case SelectProfile(_, ok) => ok
    case CacheGet(_, ok) => ok
    case ReadFile(_, ok) => ok
    case WriteFile(_, _, ok) => ok
    case Update(_, effect, ok) => effect && ok
    case SelectBack(_, ok) => ok
    case _ => true
  }

  function Own(steps: seq<Step>, p: nat): nat {
    if steps == [] then 0 else (if OwnStep(steps[0], p) then 1 else 0) + Own(steps[1..], p)
  }

  lemma ReaderStep(s: State, step: Step, p: nat)
    requires p in s.processes && Reader(s.processes[p]) && Kept(s, s.processes[p])
    requires Enabled(s, step) && (OwnStep(step, p) ==> Works(step))
    ensures var q := Do(s, step).processes[p];
      Reader(q) && Ahead(q) + (if OwnStep(step, p) then 1 else 0) <= Ahead(s.processes[p])
  {
  }

  lemma ReaderGoesOn(s: State, p: nat) returns (step: Step)
    requires p in s.processes && Reader(s.processes[p]) && !s.processes[p].Shown?
    ensures Enabled(s, step) && OwnStep(step, p) && Works(step)
  {
    var q := s.processes[p];
    step :=
      if q.AskingCache? then CacheGet(p, true)
      else if q.ReadingFile? then ReadFile(p, true)
      else CacheFill(p, true);
  }

  /** A reader whose own statements succeed is never turned away, whatever others do: it comes closer to its answer
      with each statement and can always take the next one until it has it. */
  lemma {:induction false} GetAnswers(s: State, p: nat, steps: seq<Step>)
    requires Sound(s) && FilesHeld(s) && p in s.processes && Reader(s.processes[p]) && ValidRun(s, steps)
    requires forall i :: 0 <= i < |steps| ==> Honest(steps[i]) && (OwnStep(steps[i], p) ==> Works(steps[i]))
    ensures var t := After(s, steps);
      && p in t.processes && Reader(t.processes[p]) && Ahead(t.processes[p]) + Own(steps, p) <= Ahead(s.processes[p])
      && (t.processes[p].Shown? || exists step :: Enabled(t, step) && OwnStep(step, p) && Works(step))
    decreases |steps|
  {
    if steps == [] {
      if !s.processes[p].Shown? {
        var step := ReaderGoesOn(s, p);
      }
    } else {
      assert Honest(steps[0]) && (OwnStep(steps[0], p) ==> Works(steps[0]));
      ReaderStep(s, steps[0], p);
      StepKeepsFiles(s, steps[0]);
      StepHoldsFiles(s, steps[0]);
      GetAnswers(Do(s, steps[0]), p, steps[1..]);
    }
  }

  /** From the initial state on: a Get whose statements succeed, of a user who has a picture at its profile
      read, is answered with that picture after at most three more statements of its own. */
  lemma GetSucceeds(users: set<nat>, before: seq<Step>, p: nat, steps: seq<Step>)
    requires ClearRun(Init(users), before) && ValidRun(Init(users), before)
    requires forall i :: 0 <= i < |before| ==> Honest(before[i])
    requires var s := After(Init(users), before);
      && Enabled(s, SelectProfile(p, true)) && s.processes[p].user in s.rows && s.rows[s.processes[p].user].version > 0
      && ClearRun(Do(s, SelectProfile(p, true)), steps) && ValidRun(Do(s, SelectProfile(p, true)), steps)
    requires forall i :: 0 <= i < |steps| ==> Honest(steps[i]) && (OwnStep(steps[i], p) ==> Works(steps[i]))
    ensures var s := After(Init(users), before);
      var t, user := After(Do(s, SelectProfile(p, true)), steps), s.processes[p].user;
      && p in t.processes && Own(steps, p) <= 3
      && (Own(steps, p) == 3 ==> t.processes[p].Shown?)
      && (t.processes[p].Shown? || exists step :: Enabled(t, step) && OwnStep(step, p) && Works(step))
      && (t.processes[p].Shown? ==> Holds(s, user, s.rows[user].version, t.processes[p].picture))
  {
    var s := After(Init(users), before);
    HonestNeverFails(Init(users), before);
    RunKeepsSound(Init(users), before);
    RunHoldsFiles(Init(users), before);
    RunKeepsInv(Init(users), before, true);
    ProfileFound(s, p);
    StepKeepsFiles(s, SelectProfile(p, true));
    StepHoldsFiles(s, SelectProfile(p, true));
    GetAnswers(Do(s, SelectProfile(p, true)), p, steps);
    GetReturnsCurrent(s, p, steps);
  }

  lemma {:induction false} RunHoldsFiles(s: State, steps: seq<Step>)
    requires Sound(s) && FilesHeld(s) && ValidRun(s, steps) && forall i :: 0 <= i < |steps| ==> Honest(steps[i])
    ensures FilesHeld(After(s, steps))
    decreases |steps|
  {
    if steps == [] {
    } else {
      StepKeepsFiles(s, steps[0]);
      StepHoldsFiles(s, steps[0]);
      RunHoldsFiles(Do(s, steps[0]), steps[1..]);
    }
  }

  /** An upload, and how many of its own statements are still to come. */
  predicate Uploader(q: Process) {
    Uploading(q) || q.Uploaded?
  }

  function ToDo(q: Process): nat {
    match q
    case Starting(_, _) => 6
    case Storing(_, _, _) => 5
    case Updating(_, _, _, _) => 4
    case ReadingBack(_, _, _, _, _) => 3
    case Evicting(_, _, _, _, _) => 2
    case Caching(_, _, _, _) => 1
    case _ => 0
  }

  lemma UploaderStep(s: State, step: Step, p: nat)
    requires p in s.processes && Uploader(s.processes[p]) && s.processes[p].user in s.rows
    requires Enabled(s, step) && (OwnStep(step, p) ==> Works(step))
    ensures var t, q := Do(s, step), s.processes[p];
      && Uploader(t.processes[p]) && t.processes[p].user == q.user && t.processes[p].picture == q.picture
      && q.user in t.rows
      && ToDo(t.processes[p]) + (if OwnStep(step, p) then 1 else 0) == ToDo(q)
  {
  }

  /** An upload whose own statements succeed, for a user that exists, is done after six of them, whatever others do. */
  lemma {:induction false} UploadSucceeds(s: State, p: nat, steps: seq<Step>)
    requires p in s.processes && Uploader(s.processes[p]) && s.processes[p].user in s.rows && ValidRun(s, steps)
    requires forall i :: 0 <= i < |steps| && OwnStep(steps[i], p) ==> Works(steps[i])
    ensures var t, q := After(s, steps), s.processes[p];
      && p in t.processes && Uploader(t.processes[p])
      && t.processes[p].user == q.user && t.processes[p].picture == q.picture
      && ToDo(t.processes[p]) + Own(steps, p) == ToDo(q)
      && (Own(steps, p) == ToDo(q) ==> t.processes[p].Uploaded?)
    decreases |steps|
  {
    if steps == [] {
    } else {
      assert OwnStep(steps[0], p) ==> Works(steps[0]);
      UploaderStep(s, steps[0], p);
      assert forall i :: 0 <= i < |steps| - 1 ==> steps[1..][i] == steps[i + 1];
      UploadSucceeds(Do(s, steps[0]), p, steps[1..]);
    }
  }

  // ---------- an upload and a get by themselves ----------

  function UploadSteps(p: nat, user: nat, picture: Picture, path: string, saved: bool): seq<Step> {
    [StartUpload(p, user, picture), SelectOld(p, true), WriteFile(p, path, true), Update(p, true, true)]
    + [SelectBack(p, true), CacheDelete(p, true), CacheSave(p, saved)]
  }

  /** What an undisturbed upload leaves: the next version in the row, its file, its cache entry if
      the save got through, the entry of the version before gone, and nothing else changed. */
  lemma UploadAlone(s: State, p: nat, user: nat, picture: Picture, path: string, saved: bool)
    requires p !in s.processes && user in s.rows && picture.mime != "" && path !in s.written && path != ""
    ensures var steps, v := UploadSteps(p, user, picture, path, saved), s.rows[user].version;
      var t := Stored(s, user, picture, path, saved);
      && ValidRun(s, steps)
      && After(s, steps) == t.(processes := s.processes[p := Uploaded(user, picture, v + 1, v + 1)])
  {
    var v := s.rows[user].version;
    var first := [StartUpload(p, user, picture), SelectOld(p, true), WriteFile(p, path, true), Update(p, true, true)];
    var t := UploadFirst(s, p, user, picture, path);
    UploadSecond(s, t, p, user, picture, path, saved);
    RunAppends(s, first, [SelectBack(p, true), CacheDelete(p, true), CacheSave(p, saved)]);
  }

  function InstalledBy(s: State, user: nat, picture: Picture, path: string): State
    requires user in s.rows
  {
    var v := s.rows[user].version;
    s.(rows := s.rows[user := Row(Some(path), Some(picture.mime), v + 1)],
       files := s.files[path := picture.data],
       written := s.written[path := picture.data],
       installed := s.installed[Version(user, v + 1) := picture])
  }

  function Stored(s: State, user: nat, picture: Picture, path: string, saved: bool): State
    requires user in s.rows
  {
    var v := s.rows[user].version;
    var rest := if v > 0 then s.cache - {Version(user, v)} else s.cache;
    InstalledBy(s, user, picture, path).(cache := if saved then rest[Version(user, v + 1) := picture] else rest)
  }

  lemma UploadFirst(s: State, p: nat, user: nat, picture: Picture, path: string) returns (t: State)
    requires p !in s.processes && user in s.rows && picture.mime != "" && path !in s.written && path != ""
    ensures
      var steps := [StartUpload(p, user, picture), SelectOld(p, true), WriteFile(p, path, true), Update(p, true, true)];
      ValidRun(s, steps) && After(s, steps) == t
    ensures var v := s.rows[user].version;
      var q := ReadingBack(user, picture, v, path, v + 1);
      t == InstalledBy(s, user, picture, path).(processes := s.processes[p := q])
  {
    var s1 := Do(s, StartUpload(p, user, picture));
    var s2 := Do(s1, SelectOld(p, true));
    var s3 := Do(s2, WriteFile(p, path, true));
    t := Do(s3, Update(p, true, true));
    assert t.processes == s.processes[p := t.processes[p]];
    RunOf4(s, StartUpload(p, user, picture), SelectOld(p, true), WriteFile(p, path, true), Update(p, true, true));
  }

  lemma UpdateTwice(m: map<nat, Process>, p: nat, a: Process, b: Process)
    ensures m[p := a][p := b] == m[p := b]
  {
  }

  lemma BackStep(u: State, p: nat)
    requires p in u.processes && u.processes[p].ReadingBack? && u.processes[p].user in u.rows
    ensures var q := u.processes[p];
      Do(u, SelectBack(p, true)) ==
      u.(processes := u.processes[p := Evicting(q.user, q.picture, q.oldVersion, u.rows[q.user].version, q.made)])
  {
  }

  lemma EvictStep(u: State, p: nat)
    requires p in u.processes && u.processes[p].Evicting?
    ensures var q := u.processes[p];
      Do(u, CacheDelete(p, true)) ==
      u.(cache := if q.oldVersion > 0 then u.cache - {Version(q.user, q.oldVersion)} else u.cache,
         processes := u.processes[p := Caching(q.user, q.picture, q.version, q.made)])
  {
  }

  lemma SaveStep(u: State, p: nat, ok: bool)
    requires p in u.processes && u.processes[p].Caching?
    ensures var q := u.processes[p];
      Do(u, CacheSave(p, ok)) ==
      u.(cache := if ok then u.cache[Version(q.user, q.version) := q.picture] else u.cache,
         processes := u.processes[p := Uploaded(q.user, q.picture, q.version, q.made)])
  {
  }

  lemma UploadSecond(s: State, t: State, p: nat, user: nat, picture: Picture, path: string, saved: bool)
    requires user in s.rows
    requires var v := s.rows[user].version;
      var q := ReadingBack(user, picture, v, path, v + 1);
      t == InstalledBy(s, user, picture, path).(processes := s.processes[p := q])
    ensures var steps, v := [SelectBack(p, true), CacheDelete(p, true), CacheSave(p, saved)], s.rows[user].version;
      && ValidRun(t, steps)
      && After(t, steps) ==
         Stored(s, user, picture, path, saved).(processes := s.processes[p := Uploaded(user, picture, v + 1, v + 1)])
  {
    var t1 := Do(t, SelectBack(p, true));
    BackStep(t, p);
    var t2 := Do(t1, CacheDelete(p, true));
    EvictStep(t1, p);
    SaveStep(t2, p, saved);
    UpdateTwice(s.processes, p, t.processes[p], t1.processes[p]);
    UpdateTwice(s.processes, p, t1.processes[p], t2.processes[p]);
    UpdateTwice(s.processes, p, t2.processes[p], Do(t2, CacheSave(p, saved)).processes[p]);
    RunOf2(t1, CacheDelete(p, true), CacheSave(p, saved));
    RunCons(t, SelectBack(p, true), [CacheDelete(p, true), CacheSave(p, saved)]);
    assert [SelectBack(p, true)] + [CacheDelete(p, true), CacheSave(p, saved)] ==
           [SelectBack(p, true), CacheDelete(p, true), CacheSave(p, saved)];
  }

  function GetSteps(g: nat, user: nat, cached: bool): seq<Step> {
    [StartGet(g, user), SelectProfile(g, true)]
    + if cached then [CacheGet(g, true)] else [CacheGet(g, true), ReadFile(g, true), CacheFill(g, true)]
  }

  lemma GetBegins(s: State, g: nat, user: nat)
    requires g !in s.processes && user in s.rows && s.rows[user].version > 0
    requires s.rows[user].path.Some? && s.rows[user].path.value != ""
    ensures ValidRun(s, [StartGet(g, user), SelectProfile(g, true)])
    ensures After(s, [StartGet(g, user), SelectProfile(g, true)]) ==
            s.(processes := s.processes[g := AskingCache(user, s.rows[user])])
  {
    var s1 := Do(s, StartGet(g, user));
    var s2 := Do(s1, SelectProfile(g, true));
    assert s2.processes == s.processes[g := AskingCache(user, s.rows[user])];
    RunOf2(s, StartGet(g, user), SelectProfile(g, true));
  }

  lemma GetCached(s: State, g: nat)
    requires g in s.processes && s.processes[g].AskingCache?
    requires Version(s.processes[g].user, s.processes[g].row.version) in s.cache
    ensures var q := s.processes[g];
      && ValidRun(s, [CacheGet(g, true)])
      && g in After(s, [CacheGet(g, true)]).processes
      && After(s, [CacheGet(g, true)]).processes[g] == Shown(q.user, q.row, s.cache[Version(q.user, q.row.version)])
  {
    RunCons(s, CacheGet(g, true), []);
    assert [CacheGet(g, true)] + [] == [CacheGet(g, true)];
  }

  /** Without a cache entry the picture comes from the file, with a general content type if the row has none,
      and goes into the cache. */
  lemma GetFromFile(s: State, g: nat)
    requires g in s.processes && s.processes[g].AskingCache?
    requires Version(s.processes[g].user, s.processes[g].row.version) !in s.cache
    requires s.processes[g].row.path.Some? && s.processes[g].row.path.value in s.files
    ensures var q, steps := s.processes[g], [CacheGet(g, true), ReadFile(g, true), CacheFill(g, true)];
      var known := q.row.mime != None && q.row.mime != Some("");
      var mime := if known then q.row.mime.value else "application/octet-stream";
      var picture := Picture(mime, s.files[q.row.path.value]);
      && ValidRun(s, steps)
      && g in After(s, steps).processes
      && After(s, steps).processes[g] == Shown(q.user, q.row, picture)
      && After(s, steps).cache == s.cache[Version(q.user, q.row.version) := picture]
  {
    var s1 := Do(s, CacheGet(g, true));
    RunOf2(s1, ReadFile(g, true), CacheFill(g, true));
    RunCons(s, CacheGet(g, true), [ReadFile(g, true), CacheFill(g, true)]);
    assert [CacheGet(g, true)] + [ReadFile(g, true), CacheFill(g, true)] ==
           [CacheGet(g, true), ReadFile(g, true), CacheFill(g, true)];
  }

  /** Round trip: after an undisturbed upload, whether or not its save reached the cache, an undisturbed
      Get shows exactly the uploaded picture. */
  lemma UploadThenGet(s: State, p: nat, g: nat, user: nat, picture: Picture, path: string, saved: bool)
    requires Inv(s, false) && p !in s.processes && g !in s.processes && p != g
    requires user in s.rows && picture.mime != "" && path !in s.written && path != "" && Coherent(s)
    ensures ValidRun(s, UploadSteps(p, user, picture, path, saved))
    ensures var t, get := After(s, UploadSteps(p, user, picture, path, saved)), GetSteps(g, user, saved);
      && ValidRun(t, get) && g in After(t, get).processes && user in t.rows
      && After(t, get).processes[g] == Shown(user, t.rows[user], picture)
  {
    UploadAlone(s, p, user, picture, path, saved);
    var t := After(s, UploadSteps(p, user, picture, path, saved));
    GetBegins(t, g, user);
    var t' := t.(processes := t.processes[g := AskingCache(user, t.rows[user])]);
    if saved {
      GetCached(t', g);
      RunAppends(t, [StartGet(g, user), SelectProfile(g, true)], [CacheGet(g, true)]);
    } else {
      var key := Version(user, s.rows[user].version + 1);
      assert key !in s.installed && key !in s.cache;
      GetFromFile(t', g);
      RunAppends(t, [StartGet(g, user), SelectProfile(g, true)],
                 [CacheGet(g, true), ReadFile(g, true), CacheFill(g, true)]);
    }
  }
}
