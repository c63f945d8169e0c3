/**
 * The cache protocol with its steps taken apart: a list reads a total, then a page, then stores both; a
 * writer commits, then scans and deletes. Steps of any number of requests interleave freely.
 */
module Protocol {
  import opened Text
  import opened Domain
  import opened CacheKeys
  import opened TaskQuery
  import opened World

  /** A cached list, with the times of its two reads and of its storing. */
  datatype Entry = Entry(tasks: seq<Task>, total: nat, countAt: nat, pageAt: nat, setAt: nat)

  datatype PageRead = PageRead(tasks: seq<Task>, at: nat)

  /**
   * A list request between its first read and its store. behind holds the writers of its team that committed
   * since that read; late says that one of them has begun to scan, or given up, since.
   */
  datatype Fill = Fill(filter: Filter, total: nat, countAt: nat, page: Option<PageRead>, behind: set<nat>, late: bool)

  /**
   * A writer: about to update a row it has read; committed; or scanning. throughout holds the keys live at
   * every moment since the scan began, returned those the scan has delivered, pending those not yet deleted.
   */
  datatype Writer =
    | Prepared(row: Task)
    | Open(team: Uuid)
    | Scanning(team: Uuid, throughout: set<string>, returned: set<string>, pending: set<string>)

  datatype State = State(now: nat, tasks: seq<Task>, cache: map<string, Entry>, fills: map<nat, Fill>, writers: map<nat, Writer>)

  datatype Event =
    | Tick(d: nat)
    | Evict(keys: set<string>)
    | CountTasks(f: nat, filter: Filter)
    | ReadPage(f: nat)
    | Store(f: nat)
    | GiveUp(f: nat)
    | Insert(w: nat, task: Task)
    | Load(w: nat, id: Uuid)
    | Drop(w: nat)
    | Rewrite(w: nat, task: Task)
    | ScanStart(w: nat)
    | ScanReply(w: nat, keys: set<string>)
    | Del(w: nat)
    | Finish(w: nat)
    | Abandon(w: nat)

  /** A time to live of zero means the entry never expires. */
  predicate Live(e: Entry, ttl: nat, now: nat) {
    ttl == 0 || now < e.setAt + ttl
  }

  function LiveKeys(s: State, ttl: nat): set<string> {
    set k | k in s.cache && Live(s.cache[k], ttl, s.now)
  }

  /** The filters a list may ask with, once normalised. */
  predicate Askable(f: Filter) {
    f.team.Some? && Normal(f) && f.status != Some(ALL)
  }

  predicate Enabled(s: State, e: Event) {
    match e
    case Tick(d) => true
    case Evict(keys) => true
    case CountTasks(f, filter) => f !in s.fills && Askable(filter)
    case ReadPage(f) => f in s.fills && s.fills[f].page.None? && PageOf(s.tasks, s.fills[f].filter).Ok?
    case Store(f) => f in s.fills && s.fills[f].page.Some?
    case GiveUp(f) => f in s.fills
    case Insert(w, task) => w !in s.writers && !HasId(s.tasks, task.id)
    case Load(w, id) => w !in s.writers && HasId(s.tasks, id)
    case Drop(w) => w in s.writers && s.writers[w].Prepared?
    case Rewrite(w, task) => w in s.writers && s.writers[w].Prepared?
      && task.id == s.writers[w].row.id && task.team == s.writers[w].row.team
    case ScanStart(w) => w in s.writers && s.writers[w].Open?
    case ScanReply(w, keys) => w in s.writers && s.writers[w].Scanning? && s.writers[w].pending == {}
      && forall k :: k in keys ==> Glob(CachePattern(s.writers[w].team), k)
    case Del(w) => w in s.writers && s.writers[w].Scanning?
    case Finish(w) => w in s.writers && s.writers[w].Scanning? && s.writers[w].pending == {}
      // the promise of SCAN: what matched and stayed throughout has been returned
      && forall k :: k in s.writers[w].throughout && Glob(CachePattern(s.writers[w].team), k) ==> k in s.writers[w].returned
    case Abandon(w) => w in s.writers && !s.writers[w].Prepared?
  }

  /** A commit of the team overtakes the fills under way. */
  function Overtaken(fills: map<nat, Fill>, team: Uuid, w: nat): map<nat, Fill> {
    map f | f in fills :: if fills[f].filter.team == Some(team) then fills[f].(behind := fills[f].behind + {w}) else fills[f]
  }

  function Outdated(fills: map<nat, Fill>, w: nat): map<nat, Fill> {
    map f | f in fills :: if w in fills[f].behind then fills[f].(late := true) else fills[f]
  }

  function Act(s: State, ttl: nat, e: Event): State
    requires Enabled(s, e)
  {
    match e
    case Tick(d) => s.(now := s.now + d)
    case Evict(keys) => s.(cache := s.cache - keys)
    case CountTasks(f, filter) => s.(fills := s.fills[f := Fill(filter, Total(s.tasks, filter), s.now, None, {}, false)])
    case ReadPage(f) =>
      var fill := s.fills[f];
      s.(fills := s.fills[f := fill.(page := Some(PageRead(PageOf(s.tasks, fill.filter).value, s.now)))])
    case Store(f) =>
      var fill := s.fills[f];
      s.(cache := s.cache[CacheKey(fill.filter) := Entry(fill.page.value.tasks, fill.total, fill.countAt, fill.page.value.at, s.now)],
        fills := s.fills - {f})
    case GiveUp(f) => s.(fills := s.fills - {f})
    case Insert(w, task) =>
      s.(tasks := s.tasks + [task], writers := s.writers[w := Open(task.team)], fills := Overtaken(s.fills, task.team, w))
    case Load(w, id) => s.(writers := s.writers[w := Prepared(Find(s.tasks, id).value)])
    case Drop(w) => s.(writers := s.writers - {w})
    case Rewrite(w, task) =>
      s.(tasks := Overwrite(s.tasks, task), writers := s.writers[w := Open(task.team)], fills := Overtaken(s.fills, task.team, w))
    case ScanStart(w) =>
      s.(writers := s.writers[w := Scanning(s.writers[w].team, LiveKeys(s, ttl), {}, {})], fills := Outdated(s.fills, w))
    case ScanReply(w, keys) =>
      s.(writers := s.writers[w := s.writers[w].(returned := s.writers[w].returned + keys, pending := keys)])
    case Del(w) => s.(cache := s.cache - s.writers[w].pending, writers := s.writers[w := s.writers[w].(pending := {})])
    case Finish(w) => s.(writers := s.writers - {w})
    case Abandon(w) => s.(writers := s.writers - {w}, fills := Outdated(s.fills, w))
  }

  function Trim(w: Writer, live: set<string>): Writer {
    if w.Scanning? then w.(throughout := w.throughout * live) else w
  }

  /** The step, after which every scanner forgets the keys that are gone or expired. */
  function Next(s: State, ttl: nat, e: Event): State
    requires Enabled(s, e)
  {
    var a := Act(s, ttl, e);
    a.(writers := map w | w in a.writers :: Trim(a.writers[w], LiveKeys(a, ttl)))
  }

  /** Some writer of the team has committed and not finished invalidating. */
  ghost predicate WindowOpen(s: State, team: Uuid) {
    exists w :: w in s.writers && InWindow(s.writers[w], team)
  }

  predicate InWindow(w: Writer, team: Uuid) {
    !w.Prepared? && w.team == team
  }

  // ---- coherence when no fill stores what a scan can no longer catch ----

  /**
   * No fill that first read before a commit of its team stores after that write's scan began, and no
   * invalidation is abandoned. Any other overlap is allowed.
   */
  predicate Calm(s: State, e: Event)
    requires Enabled(s, e)
  {
    match e
    case Store(f) => !s.fills[f].late
    case Abandon(w) => false
    case _ => true
  }

  predicate IsCurrent(s: State, g: Filter, e: Entry) {
    e.total == Total(s.tasks, g) && PageOf(s.tasks, g) == Ok(e.tasks)
  }

  /** The writer will delete the key if it stays: it has yet to scan, or the key was there when its scan began. */
  predicate WillDelete(w: Writer, g: Filter)
    requires g.team.Some?
  {
    w == Open(g.team.value) || (w.Scanning? && w.team == g.team.value && CacheKey(g) in w.throughout)
  }

  ghost predicate Doomed(s: State, g: Filter)
    requires g.team.Some?
  {
    exists w :: w in s.writers && WillDelete(s.writers[w], g)
  }

  /** A live entry is the current answer, or some writer will delete it. */
  ghost predicate CacheOk(s: State, ttl: nat, g: Filter) {
    Askable(g) && CacheKey(g) in LiveKeys(s, ttl) ==> IsCurrent(s, g, s.cache[CacheKey(g)]) || Doomed(s, g)
  }

  /** While a fill is not late, what it read is current, or the writers that overtook it have yet to scan. */
  ghost predicate FillOk(s: State, f: nat)
    requires f in s.fills
  {
    var fill := s.fills[f];
    && Askable(fill.filter)
    && (!fill.late ==> forall w :: w in fill.behind ==> w in s.writers && s.writers[w] == Open(fill.filter.team.value))
    && (!fill.late && fill.behind == {} ==> ReadsCurrent(s, fill))
  }

  predicate ReadsCurrent(s: State, fill: Fill) {
    fill.total == Total(s.tasks, fill.filter)
    && (fill.page.Some? ==> PageOf(s.tasks, fill.filter) == Ok(fill.page.value.tasks))
  }

  ghost predicate WriterOk(s: State, w: nat)
    requires w in s.writers
  {
    match s.writers[w]
    case Prepared(row) => HasId(s.tasks, row.id) && forall r :: r in s.tasks && r.id == row.id ==> r.team == row.team
    case Open(team) => true
    case Scanning(team, throughout, returned, pending) => throughout * returned <= pending
  }

  ghost predicate Good(s: State, ttl: nat) {
    && UniqueIds(s.tasks)
    && (forall g :: CacheOk(s, ttl, g))
    && (forall f :: f in s.fills ==> FillOk(s, f))
    && (forall w :: w in s.writers ==> WriterOk(s, w))
  }

  /** Every live entry is the current answer, for every team without an open write window. */
  ghost predicate Coherent(s: State, ttl: nat) {
    forall g :: Askable(g) && CacheKey(g) in LiveKeys(s, ttl) && !WindowOpen(s, g.team.value)
      ==> IsCurrent(s, g, s.cache[CacheKey(g)])
  }

  /** Rows of other teams' lists stay put when a task is written. */
  lemma OtherTeamsUntouched(s: State, ttl: nat, e: Event, g: Filter)
    requires Enabled(s, e) && g.team.Some?
    requires e.Insert? ==> e.task.team != g.team.value
    requires e.Rewrite? ==> e.task.team != g.team.value && WriterOk(s, e.w)
    ensures Select(Next(s, ttl, e).tasks, g) == Select(s.tasks, g)
  {
    if e.Insert? { InsertIsTeamLocal(s.tasks, e.task, g); }
    if e.Rewrite? { OverwriteIsTeamLocal(s.tasks, e.task, g); }
  }

  lemma StoredKey(s: State, ttl: nat, e: Event, g: Filter)
    requires Enabled(s, e) && e.Store? && FillOk(s, e.f) && Askable(g) && CacheKey(g) in LiveKeys(Next(s, ttl, e), ttl)
    ensures g == s.fills[e.f].filter
      || (CacheKey(g) in LiveKeys(s, ttl) && Next(s, ttl, e).cache[CacheKey(g)] == s.cache[CacheKey(g)])
  {
    KeysCollideIff(g, s.fills[e.f].filter);
  }

  lemma LiveBefore(s: State, ttl: nat, e: Event, k: string)
    requires Enabled(s, e) && !e.Store? && k in LiveKeys(Next(s, ttl, e), ttl)
    ensures k in LiveKeys(s, ttl) && Next(s, ttl, e).cache[k] == s.cache[k]
  {
  }

  lemma Disjoint(a: set<string>, b: set<string>)
    requires a * b <= {}
    ensures forall k :: k in a ==> k !in b
  {
    forall k | k in a
      ensures k !in b
    {
      assert k in b <==> k in a * b;
    }
  }

  /** A finishing writer has deleted whatever it was to delete. */
  lemma FinishLeavesNothing(s: State, ttl: nat, w: nat, g: Filter)
    requires Enabled(s, Finish(w)) && WriterOk(s, w) && Askable(g)
    ensures !WillDelete(s.writers[w], g)
  {
    PatternSelectsTeam(s.writers[w].team, g);
    Disjoint(s.writers[w].throughout, s.writers[w].returned);
  }

  /** A key that stays live stays doomed. */
  lemma DoomedStays(s: State, ttl: nat, e: Event, g: Filter)
    requires Enabled(s, e) && !e.Abandon? && Askable(g) && Doomed(s, g)
    requires CacheKey(g) in LiveKeys(s, ttl) && CacheKey(g) in LiveKeys(Next(s, ttl, e), ttl)
    requires e.Finish? ==> WriterOk(s, e.w)
    ensures Doomed(Next(s, ttl, e), g)
  {
    var w :| w in s.writers && WillDelete(s.writers[w], g);
    if e.Finish? { FinishLeavesNothing(s, ttl, e.w, g); }
    var v := Next(s, ttl, e);
    assert w in v.writers;
    StillDeletes(s, ttl, e, g, w);
  }

  lemma StillDeletes(s: State, ttl: nat, e: Event, g: Filter, w: nat)
    requires Enabled(s, e) && Askable(g) && w in s.writers && WillDelete(s.writers[w], g) && w in Next(s, ttl, e).writers
    requires CacheKey(g) in LiveKeys(s, ttl) && CacheKey(g) in LiveKeys(Next(s, ttl, e), ttl)
    ensures WillDelete(Next(s, ttl, e).writers[w], g)
  {
  }

  /** A commit of the team dooms all its lists. */
  lemma CommitDooms(s: State, ttl: nat, e: Event, g: Filter)
    requires Enabled(s, e) && Askable(g) && (e.Insert? || e.Rewrite?) && e.task.team == g.team.value
    ensures Doomed(Next(s, ttl, e), g)
  {
    assert WillDelete(Next(s, ttl, e).writers[e.w], g);
  }

  lemma SameSelectionStaysCurrent(s: State, v: State, g: Filter, e: Entry)
    requires Select(v.tasks, g) == Select(s.tasks, g) && IsCurrent(s, g, e)
    ensures IsCurrent(v, g, e)
  {
  }

  lemma StoreIsOk(s: State, ttl: nat, e: Event, g: Filter)
    requires Enabled(s, e) && e.Store? && Calm(s, e) && FillOk(s, e.f) && g == s.fills[e.f].filter
    ensures CacheOk(Next(s, ttl, e), ttl, g)
  {
    var v := Next(s, ttl, e);
    var behind := s.fills[e.f].behind;
    if behind != {} {
      var w :| w in behind;
      assert WillDelete(v.writers[w], g);
    }
  }

  lemma EntriesStayOk(s: State, ttl: nat, e: Event, g: Filter)
    requires Good(s, ttl) && Enabled(s, e) && Calm(s, e) && Askable(g)
    requires CacheKey(g) in LiveKeys(s, ttl) && CacheKey(g) in LiveKeys(Next(s, ttl, e), ttl)
    requires Next(s, ttl, e).cache[CacheKey(g)] == s.cache[CacheKey(g)]
    ensures CacheOk(Next(s, ttl, e), ttl, g)
  {
    assert CacheOk(s, ttl, g);
    if (e.Insert? || e.Rewrite?) && e.task.team == g.team.value {
      CommitDooms(s, ttl, e, g);
    } else if Doomed(s, g) {
      if e.Finish? { assert WriterOk(s, e.w); }
      DoomedStays(s, ttl, e, g);
    } else {
      if e.Rewrite? { assert WriterOk(s, e.w); }
      OtherTeamsUntouched(s, ttl, e, g);
      SameSelectionStaysCurrent(s, Next(s, ttl, e), g, s.cache[CacheKey(g)]);
    }
  }

  lemma CacheStaysOk(s: State, ttl: nat, e: Event, g: Filter)
    requires Good(s, ttl) && Enabled(s, e) && Calm(s, e)
    ensures CacheOk(Next(s, ttl, e), ttl, g)
  {
    if Askable(g) && CacheKey(g) in LiveKeys(Next(s, ttl, e), ttl) {
      if e.Store? {
        assert FillOk(s, e.f);
        StoredKey(s, ttl, e, g);
        if g == s.fills[e.f].filter { StoreIsOk(s, ttl, e, g); } else { EntriesStayOk(s, ttl, e, g); }
      } else {
        LiveBefore(s, ttl, e, CacheKey(g));
        EntriesStayOk(s, ttl, e, g);
      }
    }
  }

  /** A writer that has yet to scan still has, unless its scan begins or it gives up. */
  lemma OpenStays(s: State, ttl: nat, e: Event, w: nat)
    requires Enabled(s, e) && w in s.writers && s.writers[w].Open? && !((e.ScanStart? || e.Abandon?) && e.w == w)
    ensures w in Next(s, ttl, e).writers && Next(s, ttl, e).writers[w] == s.writers[w]
  {
  }

  /** What a step does to a fill that goes on. */
  lemma FillStep(s: State, ttl: nat, e: Event, f: nat)
    requires Enabled(s, e) && f in s.fills && f in Next(s, ttl, e).fills
    ensures var a, b := s.fills[f], Next(s, ttl, e).fills[f];
      && b.filter == a.filter && b.total == a.total
      && (b.page == a.page || (e.ReadPage? && PageOf(s.tasks, a.filter).Ok? && b.page.Some? && b.page.value.tasks == PageOf(s.tasks, a.filter).value))
      && (if (e.Insert? || e.Rewrite?) && a.filter.team == Some(e.task.team) then b.behind == a.behind + {e.w} else b.behind == a.behind)
      && b.late == (a.late || ((e.ScanStart? || e.Abandon?) && e.w in a.behind))
  {
  }

  lemma OldFillStaysOk(s: State, ttl: nat, e: Event, f: nat)
    requires Enabled(s, e) && f in s.fills && FillOk(s, f) && f in Next(s, ttl, e).fills
    requires e.Rewrite? ==> WriterOk(s, e.w)
    ensures FillOk(Next(s, ttl, e), f)
  {
    var a, b, v := s.fills[f], Next(s, ttl, e).fills[f], Next(s, ttl, e);
    FillStep(s, ttl, e, f);
    if !b.late {
      forall w | w in b.behind
        ensures w in v.writers && v.writers[w] == Open(b.filter.team.value)
      {
        if w in a.behind { OpenStays(s, ttl, e, w); }
      }
      if b.behind == {} { OtherTeamsUntouched(s, ttl, e, a.filter); }
    }
  }

  lemma FillsStayOk(s: State, ttl: nat, e: Event, f: nat)
    requires Good(s, ttl) && Enabled(s, e) && f in Next(s, ttl, e).fills
    ensures FillOk(Next(s, ttl, e), f)
  {
    if e.Rewrite? { assert WriterOk(s, e.w); }
    if f in s.fills {
      assert FillOk(s, f);
      OldFillStaysOk(s, ttl, e, f);
    }
  }

  lemma UniqueAfter(s: State, ttl: nat, e: Event)
    requires UniqueIds(s.tasks) && Enabled(s, e)
    ensures UniqueIds(Next(s, ttl, e).tasks)
  {
    if e.Rewrite? { OverwriteAt(s.tasks, e.task); }
  }

  lemma RowsKeepTeams(s: State, ttl: nat, e: Event, row: Task)
    requires Enabled(s, e) && HasId(s.tasks, row.id)
    requires forall r :: r in s.tasks && r.id == row.id ==> r.team == row.team
    ensures HasId(Next(s, ttl, e).tasks, row.id)
    ensures forall r :: r in Next(s, ttl, e).tasks && r.id == row.id ==> r.team == row.team
  {
    var i :| 0 <= i < |s.tasks| && s.tasks[i].id == row.id;
    var tasks := Next(s, ttl, e).tasks;
    if e.Rewrite? { OverwriteAt(s.tasks, e.task); }
    assert tasks[i].id == row.id;
    forall r | r in tasks && r.id == row.id
      ensures r.team == row.team
    {
      if e.Rewrite? { var o := OverwrittenFrom(s.tasks, e.task, r); }
    }
  }

  lemma ScanStaysOk(s: State, ttl: nat, e: Event, w: nat)
    requires Enabled(s, e) && w in s.writers && s.writers[w].Scanning? && WriterOk(s, w)
    requires w in Next(s, ttl, e).writers
    ensures WriterOk(Next(s, ttl, e), w)
  {
    var old', new' := s.writers[w], Next(s, ttl, e).writers[w];
    assert new'.Scanning? && new'.throughout <= old'.throughout;
    assert e.Del? && e.w == w ==> new'.throughout !! old'.pending;
    forall k | k in new'.throughout * new'.returned
      ensures k in new'.pending
    {
      assert k in old'.returned ==> k in old'.throughout * old'.returned;
    }
  }

  lemma PreparedStaysOk(s: State, ttl: nat, e: Event, w: nat)
    requires Enabled(s, e) && w in s.writers && s.writers[w].Prepared? && WriterOk(s, w)
    requires w in Next(s, ttl, e).writers
    ensures WriterOk(Next(s, ttl, e), w)
  {
    RowsKeepTeams(s, ttl, e, s.writers[w].row);
  }

  lemma LoadedIsOk(s: State, ttl: nat, e: Event)
    requires UniqueIds(s.tasks) && Enabled(s, e) && e.Load?
    ensures WriterOk(Next(s, ttl, e), e.w)
  {
    FoundIsOnly(s.tasks, e.id, Find(s.tasks, e.id).value);
  }

  lemma WritersStayOk(s: State, ttl: nat, e: Event, w: nat)
    requires Good(s, ttl) && Enabled(s, e) && w in Next(s, ttl, e).writers
    ensures WriterOk(Next(s, ttl, e), w)
  {
    if w in s.writers {
      assert WriterOk(s, w);
      match s.writers[w] {
        case Prepared(_) => PreparedStaysOk(s, ttl, e, w);
        case Open(_) =>
        case Scanning(_, _, _, _) => ScanStaysOk(s, ttl, e, w);
      }
    } else if e.Load? {
      LoadedIsOk(s, ttl, e);
    }
  }

  /** Every step of a calm run keeps the invariant. */
  lemma StepStaysGood(s: State, ttl: nat, e: Event)
    requires Good(s, ttl) && Enabled(s, e) && Calm(s, e)
    ensures Good(Next(s, ttl, e), ttl)
  {
    var v := Next(s, ttl, e);
    UniqueAfter(s, ttl, e);
    forall g: Filter
      ensures CacheOk(v, ttl, g)
    {
      CacheStaysOk(s, ttl, e, g);
    }
    forall f | f in v.fills
      ensures FillOk(v, f)
    {
      FillsStayOk(s, ttl, e, f);
    }
    forall w | w in v.writers
      ensures WriterOk(v, w)
    {
      WritersStayOk(s, ttl, e, w);
    }
  }

  lemma DoomedInWindow(s: State, g: Filter)
    requires g.team.Some?
    ensures Doomed(s, g) ==> WindowOpen(s, g.team.value)
  {
    if Doomed(s, g) {
      var w :| w in s.writers && WillDelete(s.writers[w], g);
      assert InWindow(s.writers[w], g.team.value);
    }
  }

  /** The states of a run and the events between them. */
  ghost predicate IsRun(ss: seq<State>, ttl: nat, es: seq<Event>) {
    && |ss| == |es| + 1
    && ss[0].cache == map[] && ss[0].fills == map[] && ss[0].writers == map[] && UniqueIds(ss[0].tasks)
    && forall i :: 0 <= i < |es| ==> Enabled(ss[i], es[i]) && ss[i + 1] == Next(ss[i], ttl, es[i])
  }

  lemma {:induction false} CalmRunsStayGood(ss: seq<State>, ttl: nat, es: seq<Event>, n: nat)
    requires IsRun(ss, ttl, es) && n <= |es| && forall i :: 0 <= i < n ==> Calm(ss[i], es[i])
    ensures Good(ss[n], ttl)
  {
    if n > 0 {
      CalmRunsStayGood(ss, ttl, es, n - 1);
      StepStaysGood(ss[n - 1], ttl, es[n - 1]);
    }
  }

  /**
   * Interleaved coherence: as long as no fill that read before a commit of its team stores after that write's
   * scan began, and invalidations finish, every live entry is the current answer at every moment at which no
   * write of its team is between its commit and the end of its invalidation.
   */
  lemma CalmRunsAreCoherent(ss: seq<State>, ttl: nat, es: seq<Event>, n: nat)
    requires IsRun(ss, ttl, es) && n <= |es| && forall i :: 0 <= i < n ==> Calm(ss[i], es[i])
    ensures Coherent(ss[n], ttl)
  {
    CalmRunsStayGood(ss, ttl, es, n);
    forall g | Askable(g) && CacheKey(g) in LiveKeys(ss[n], ttl) && !WindowOpen(ss[n], g.team.value)
      ensures IsCurrent(ss[n], g, ss[n].cache[CacheKey(g)])
    {
      assert CacheOk(ss[n], ttl, g);
      DoomedInWindow(ss[n], g);
    }
  }

  // ---- bounded staleness, in every interleaving ----

  ghost predicate SeenTotal(ss: seq<State>, n: nat, g: Filter, total: nat, at: nat) {
    exists i :: 0 <= i <= n < |ss| && ss[i].now == at && Total(ss[i].tasks, g) == total
  }

  ghost predicate SeenPage(ss: seq<State>, n: nat, g: Filter, tasks: seq<Task>, at: nat) {
    exists i :: 0 <= i <= n < |ss| && ss[i].now == at && PageOf(ss[i].tasks, g) == Ok(tasks)
  }

  ghost predicate FillSeen(ss: seq<State>, n: nat, fill: Fill)
    requires n < |ss|
  {
    && Askable(fill.filter) && SeenTotal(ss, n, fill.filter, fill.total, fill.countAt) && fill.countAt <= ss[n].now
    && (fill.page.Some? ==> SeenPage(ss, n, fill.filter, fill.page.value.tasks, fill.page.value.at))
    && (fill.page.Some? ==> fill.countAt <= fill.page.value.at <= ss[n].now)
  }

  ghost predicate EntrySeen(ss: seq<State>, n: nat, g: Filter, e: Entry)
    requires n < |ss|
  {
    && SeenTotal(ss, n, g, e.total, e.countAt) && SeenPage(ss, n, g, e.tasks, e.pageAt)
    && e.countAt <= e.pageAt <= e.setAt <= ss[n].now
  }

  ghost predicate AllSeen(ss: seq<State>, n: nat)
    requires n < |ss|
  {
    && (forall f :: f in ss[n].fills ==> FillSeen(ss, n, ss[n].fills[f]))
    && (forall g :: Askable(g) && CacheKey(g) in ss[n].cache ==> EntrySeen(ss, n, g, ss[n].cache[CacheKey(g)]))
  }

  lemma SeenNow(ss: seq<State>, n: nat, g: Filter)
    requires n < |ss|
    ensures SeenTotal(ss, n, g, Total(ss[n].tasks, g), ss[n].now)
    ensures PageOf(ss[n].tasks, g).Ok? ==> SeenPage(ss, n, g, PageOf(ss[n].tasks, g).value, ss[n].now)
  {
  }

  lemma SeenTotalLater(ss: seq<State>, n: nat, g: Filter, total: nat, at: nat)
    requires n + 1 < |ss| && SeenTotal(ss, n, g, total, at)
    ensures SeenTotal(ss, n + 1, g, total, at)
  {
  }

  lemma SeenPageLater(ss: seq<State>, n: nat, g: Filter, tasks: seq<Task>, at: nat)
    requires n + 1 < |ss| && SeenPage(ss, n, g, tasks, at)
    ensures SeenPage(ss, n + 1, g, tasks, at)
  {
  }

  predicate SameReads(a: Fill, b: Fill) {
    a.filter == b.filter && a.total == b.total && a.countAt == b.countAt && a.page == b.page
  }

  lemma FillSeenLater(ss: seq<State>, n: nat, fill: Fill)
    requires n + 1 < |ss| && FillSeen(ss, n, fill) && ss[n].now <= ss[n + 1].now
    ensures FillSeen(ss, n + 1, fill)
  {
    SeenTotalLater(ss, n, fill.filter, fill.total, fill.countAt);
    if fill.page.Some? { SeenPageLater(ss, n, fill.filter, fill.page.value.tasks, fill.page.value.at); }
  }

  lemma EntrySeenLater(ss: seq<State>, n: nat, g: Filter, e: Entry)
    requires n + 1 < |ss| && EntrySeen(ss, n, g, e) && ss[n].now <= ss[n + 1].now
    ensures EntrySeen(ss, n + 1, g, e)
  {
    SeenTotalLater(ss, n, g, e.total, e.countAt);
    SeenPageLater(ss, n, g, e.tasks, e.pageAt);
  }

  /** Where the fills after a step come from. */
  lemma FillSource(s: State, ttl: nat, e: Event, f: nat)
    requires Enabled(s, e) && f in Next(s, ttl, e).fills
    ensures var v := Next(s, ttl, e);
      var fill := v.fills[f];
      || (f in s.fills && SameReads(fill, s.fills[f]))
      || (Askable(fill.filter) && fill == Fill(fill.filter, Total(v.tasks, fill.filter), v.now, None, {}, false))
      || (f in s.fills && PageOf(v.tasks, fill.filter).Ok?
        && fill == s.fills[f].(page := Some(PageRead(PageOf(v.tasks, fill.filter).value, v.now))))
  {
  }

  lemma StepFillSeen(ss: seq<State>, ttl: nat, es: seq<Event>, n: nat, f: nat)
    requires IsRun(ss, ttl, es) && n < |es| && AllSeen(ss, n) && f in ss[n + 1].fills
    ensures FillSeen(ss, n + 1, ss[n + 1].fills[f])
  {
    var fill := ss[n + 1].fills[f];
    FillSource(ss[n], ttl, es[n], f);
    SeenNow(ss, n + 1, fill.filter);
    TimeMovesOn(ss[n], ttl, es[n]);
    if f in ss[n].fills { FillSeenLater(ss, n, ss[n].fills[f]); }
  }

  lemma TimeMovesOn(s: State, ttl: nat, e: Event)
    requires Enabled(s, e)
    ensures s.now <= Next(s, ttl, e).now
  {
  }

  /** Where the entries after a step come from. */
  lemma EntrySource(s: State, ttl: nat, e: Event, g: Filter)
    requires Enabled(s, e) && Askable(g) && CacheKey(g) in Next(s, ttl, e).cache
    requires e.Store? ==> Askable(s.fills[e.f].filter)
    ensures var v := Next(s, ttl, e);
      || (CacheKey(g) in s.cache && v.cache[CacheKey(g)] == s.cache[CacheKey(g)])
      || (e.Store? && s.fills[e.f].filter == g && s.now == v.now
        && v.cache[CacheKey(g)] == Entry(s.fills[e.f].page.value.tasks, s.fills[e.f].total, s.fills[e.f].countAt,
          s.fills[e.f].page.value.at, v.now))
  {
    if e.Store? { KeysCollideIff(g, s.fills[e.f].filter); }
  }

  lemma StepEntrySeen(ss: seq<State>, ttl: nat, es: seq<Event>, n: nat, g: Filter)
    requires IsRun(ss, ttl, es) && n < |es| && AllSeen(ss, n) && Askable(g) && CacheKey(g) in ss[n + 1].cache
    ensures EntrySeen(ss, n + 1, g, ss[n + 1].cache[CacheKey(g)])
  {
    var e := ss[n + 1].cache[CacheKey(g)];
    if es[n].Store? { assert FillSeen(ss, n, ss[n].fills[es[n].f]); }
    EntrySource(ss[n], ttl, es[n], g);
    TimeMovesOn(ss[n], ttl, es[n]);
    EntrySeenLater(ss, n, g, e);
  }

  lemma {:induction false} RunsAreSeen(ss: seq<State>, ttl: nat, es: seq<Event>, n: nat)
    requires IsRun(ss, ttl, es) && n <= |es|
    ensures AllSeen(ss, n)
  {
    if n > 0 {
      RunsAreSeen(ss, ttl, es, n - 1);
      forall f | f in ss[n].fills
        ensures FillSeen(ss, n, ss[n].fills[f])
      {
        StepFillSeen(ss, ttl, es, n - 1, f);
      }
      forall g | Askable(g) && CacheKey(g) in ss[n].cache
        ensures EntrySeen(ss, n, g, ss[n].cache[CacheKey(g)])
      {
        StepEntrySeen(ss, ttl, es, n - 1, g);
      }
    }
  }

  /**
   * Bounded staleness: in every run, failed and abandoned invalidations included, the total and the page a
   * hit returns were each the true answer at some earlier moment, at most ttl plus the length of that fill ago.
   */
  lemma HitsAreBoundedlyStale(ss: seq<State>, ttl: nat, es: seq<Event>, n: nat, g: Filter)
    requires IsRun(ss, ttl, es) && n <= |es| && ttl > 0 && Askable(g) && CacheKey(g) in LiveKeys(ss[n], ttl)
    ensures var e := ss[n].cache[CacheKey(g)];
      && (exists i :: 0 <= i <= n && ss[i].now + ttl + (e.setAt - e.countAt) > ss[n].now && Total(ss[i].tasks, g) == e.total)
      && (exists i :: 0 <= i <= n && ss[i].now + ttl + (e.setAt - e.pageAt) > ss[n].now && PageOf(ss[i].tasks, g) == Ok(e.tasks))
  {
    RunsAreSeen(ss, ttl, es, n);
    var e := ss[n].cache[CacheKey(g)];
    assert EntrySeen(ss, n, g, e);
    var i :| 0 <= i <= n && ss[i].now == e.countAt && Total(ss[i].tasks, g) == e.total;
    var j :| 0 <= j <= n && ss[j].now == e.pageAt && PageOf(ss[j].tasks, g) == Ok(e.tasks);
  }

  // ---- the bound is reached ----

  lemma InsertAddsOne(tasks: seq<Task>, task: Task, g: Filter)
    requires Matches(task, g)
    ensures Total(tasks + [task], g) == Total(tasks, g) + 1
  {
    SelectAppend(tasks, [task], g);
    assert Select([task], g) == [task];
  }

  /**
   * A list request that reads before a commit and stores after the scan of that write began: still during
   * the scan, or after its end. Then a pause.
   */
  function RaceEvents(g: Filter, task: Task, age: nat, during: bool): seq<Event> {
    [CountTasks(0, g), ReadPage(0), Insert(1, task), ScanStart(1),
     if during then Store(0) else Finish(1), if during then Finish(1) else Store(0), Tick(age)]
  }

  function RaceState(s: State, g: Filter, task: Task, age: nat, during: bool, k: nat): State
    requires PageOf(s.tasks, g).Ok?
  {
    var total, page := Total(s.tasks, g), PageOf(s.tasks, g).value;
    var fill := Fill(g, total, s.now, if k < 2 then None else Some(PageRead(page, s.now)), if k < 3 then {} else {1}, k >= 4);
    var stored := k >= 6 || (k == 5 && during);
    var finished := k >= 6 || (k == 5 && !during);
    State(
      if k < 7 then s.now else s.now + age,
      if k < 3 then s.tasks else s.tasks + [task],
      if stored then map[CacheKey(g) := Entry(page, total, s.now, s.now, s.now)] else map[],
      if 1 <= k && !stored then map[0 := fill] else map[],
      if k < 3 || finished then map[] else if k == 3 then map[1 := Open(task.team)] else map[1 := Scanning(task.team, {}, {}, {})])
  }

  ghost predicate Restarted(s: State, g: Filter, task: Task) {
    && s.cache == map[] && s.fills == map[] && s.writers == map[] && UniqueIds(s.tasks)
    && Askable(g) && PageOf(s.tasks, g).Ok? && Matches(task, g) && !HasId(s.tasks, task.id)
  }

  ghost predicate RaceGoes(s: State, ttl: nat, g: Filter, task: Task, age: nat, during: bool, k: nat)
    requires PageOf(s.tasks, g).Ok? && k < 7
  {
    var e := RaceEvents(g, task, age, during)[k];
    Enabled(RaceState(s, g, task, age, during, k), e)
    && Next(RaceState(s, g, task, age, during, k), ttl, e) == RaceState(s, g, task, age, during, k + 1)
  }

  lemma RaceReads(s: State, ttl: nat, g: Filter, task: Task, age: nat, during: bool, k: nat)
    requires Restarted(s, g, task) && k < 2
    ensures RaceGoes(s, ttl, g, task, age, during, k)
  {
    var r, v := RaceState(s, g, task, age, during, k), RaceState(s, g, task, age, during, k + 1);
    var e := RaceEvents(g, task, age, during)[k];
    assert Next(r, ttl, e).fills == v.fills;
    assert Next(r, ttl, e).writers == v.writers;
  }

  lemma RaceCommits(s: State, ttl: nat, g: Filter, task: Task, age: nat, during: bool, k: nat)
    requires Restarted(s, g, task) && k == 2
    ensures RaceGoes(s, ttl, g, task, age, during, k)
  {
    var r, v := RaceState(s, g, task, age, during, k), RaceState(s, g, task, age, during, k + 1);
    var e := RaceEvents(g, task, age, during)[k];
    assert r.fills == map[0 := r.fills[0]] && r.fills[0].filter.team == Some(task.team);
    assert {} + {1} == {1};
    assert Overtaken(r.fills, task.team, 1) == map[0 := r.fills[0].(behind := {1})];
    assert Act(r, ttl, e).writers == map[1 := Open(task.team)];
    assert Next(r, ttl, e).writers == v.writers;
  }

  lemma RaceScans(s: State, ttl: nat, g: Filter, task: Task, age: nat, during: bool, k: nat)
    requires Restarted(s, g, task) && k == 3
    ensures RaceGoes(s, ttl, g, task, age, during, k)
  {
    var r, v := RaceState(s, g, task, age, during, k), RaceState(s, g, task, age, during, k + 1);
    var e := RaceEvents(g, task, age, during)[k];
    assert r.fills == map[0 := r.fills[0]] && r.fills[0].behind == {1};
    assert Outdated(r.fills, 1) == map[0 := r.fills[0].(late := true)];
    assert LiveKeys(r, ttl) == {};
    assert Act(r, ttl, e).writers == map[1 := Scanning(task.team, {}, {}, {})];
    assert Trim(Scanning(task.team, {}, {}, {}), LiveKeys(Act(r, ttl, e), ttl)) == Scanning(task.team, {}, {}, {});
    assert Next(r, ttl, e).writers == v.writers;
  }

  lemma RaceStores(s: State, ttl: nat, g: Filter, task: Task, age: nat, during: bool, k: nat)
    requires Restarted(s, g, task) && (k == if during then 4 else 5)
    ensures RaceGoes(s, ttl, g, task, age, during, k)
  {
    var r, v := RaceState(s, g, task, age, during, k), RaceState(s, g, task, age, during, k + 1);
    var e := RaceEvents(g, task, age, during)[k];
    assert Trim(Scanning(task.team, {}, {}, {}), LiveKeys(Act(r, ttl, e), ttl)) == Scanning(task.team, {}, {}, {});
    assert Next(r, ttl, e).fills == v.fills;
    assert Next(r, ttl, e).writers == v.writers;
  }

  lemma RaceFinishes(s: State, ttl: nat, g: Filter, task: Task, age: nat, during: bool, k: nat)
    requires Restarted(s, g, task) && (k == if during then 5 else 4)
    ensures RaceGoes(s, ttl, g, task, age, during, k)
  {
    var r, v := RaceState(s, g, task, age, during, k), RaceState(s, g, task, age, during, k + 1);
    var e := RaceEvents(g, task, age, during)[k];
    assert Act(r, ttl, e).writers == map[];
    assert Next(r, ttl, e).writers == v.writers;
  }

  lemma RacePauses(s: State, ttl: nat, g: Filter, task: Task, age: nat, during: bool, k: nat)
    requires Restarted(s, g, task) && k == 6
    ensures RaceGoes(s, ttl, g, task, age, during, k)
  {
    var r, v := RaceState(s, g, task, age, during, k), RaceState(s, g, task, age, during, k + 1);
    var e := RaceEvents(g, task, age, during)[k];
    assert Next(r, ttl, e).writers == v.writers;
  }

  /**
   * One late store is enough, during the scan or after it: a hit can then be wrong for any time below ttl, and
   * without a time to live for any time at all.
   */
  lemma OverlapLeavesStaleHit(s: State, ttl: nat, g: Filter, task: Task, age: nat, during: bool) returns (ss: seq<State>)
    requires Restarted(s, g, task) && (ttl == 0 || age < ttl)
    ensures IsRun(ss, ttl, RaceEvents(g, task, age, during)) && |ss| == 8
    ensures ss[7].writers == map[] && CacheKey(g) in LiveKeys(ss[7], ttl)
    ensures forall i :: 0 <= i <= 7 && ss[i].now + age > ss[7].now
              ==> Total(ss[i].tasks, g) != ss[7].cache[CacheKey(g)].total
    ensures Total(ss[7].tasks, g) != ss[7].cache[CacheKey(g)].total
  {
    ss := seq(8, k requires 0 <= k < 8 => RaceState(s, g, task, age, during, k));
    forall k | 0 <= k < 7
      ensures Enabled(ss[k], RaceEvents(g, task, age, during)[k]) && ss[k + 1] == Next(ss[k], ttl, RaceEvents(g, task, age, during)[k])
    {
      if k < 2 { RaceReads(s, ttl, g, task, age, during, k); }
      else if k == 2 { RaceCommits(s, ttl, g, task, age, during, k); }
      else if k == 3 { RaceScans(s, ttl, g, task, age, during, k); }
      else if k == 6 { RacePauses(s, ttl, g, task, age, during, k); }
      else if during == (k == 4) { RaceStores(s, ttl, g, task, age, during, k); }
      else { RaceFinishes(s, ttl, g, task, age, during, k); }
    }
    assert ss[0] == s;
    InsertAddsOne(s.tasks, task, g);
  }
}
