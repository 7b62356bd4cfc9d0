/**
  The users table and the user cache (internal/api/handlers.go,
  internal/sync/sync.go, internal/scheduler/scheduler.go). Every read that fills
  the cache is one step, and so is every write with its invalidation; replicas
  equal the primary. A failed invalidation is recorded in `stale`, and `owners` keeps the
  Google id an id was given when its row was made.
 */
module UserStore {
  import opened Common
  import opened Ids

  datatype Row = Row(googleId: string, email: string, refreshToken: string, calendarId: Option<string>,
                     useDedicated: bool, platforms: seq<string>, hasCalendarAccess: bool)

  datatype CachedUser = CachedUser(id: int, googleId: string, email: string, refreshToken: string, calendarId: string,
                                   useDedicated: bool, platforms: seq<string>, hasCalendarAccess: bool)

  datatype State = State(rows: map<int, Row>, cache: map<int, CachedUser>, nextId: int, stale: set<int>,
                         owners: map<int, string>)

  const START := State(map[], map[], 1, {}, map[])

  function CalendarText(c: Option<string>): string {
    if c.None? then "" else c.value
  }

  /** What a fill puts into the cache; two of the three fill paths do not load has_calendar_access. */
  function Cached(id: int, r: Row, loadsAccess: bool): CachedUser {
    CachedUser(id, r.googleId, r.email, r.refreshToken, CalendarText(r.calendarId), r.useDedicated, r.platforms,
               loadsAccess && r.hasCalendarAccess)
  }

  /** Column by column, all but has_calendar_access; no calendar id reads as the empty one. */
  predicate Agrees(id: int, u: CachedUser, r: Row) {
    && u.id == id && u.googleId == r.googleId && u.email == r.email && u.refreshToken == r.refreshToken
    && u.useDedicated == r.useDedicated && u.platforms == r.platforms
    && match r.calendarId
       case None => u.calendarId == ""
       case Some(c) => u.calendarId == c
  }

  ghost predicate Agreement(s: State) {
    forall id :: id in s.cache && id in s.rows && id !in s.stale ==> Agrees(id, s.cache[id], s.rows[id])
  }

  ghost predicate Inv(s: State) {
    && Agreement(s)
    && (forall id :: id in s.cache || id in s.rows ==> id < s.nextId)
    && (forall i, j :: i in s.rows && j in s.rows && s.rows[i].googleId == s.rows[j].googleId ==> i == j)
    && Owned(s)
  }

  /** Rows and cached users, also stale ones, carry the Google id their id was given. */
  ghost predicate Owned(s: State) {
    && (forall id :: id in s.rows ==> id in s.owners && s.rows[id].googleId == s.owners[id])
    && (forall id :: id in s.cache ==> id in s.owners && s.cache[id].googleId == s.owners[id])
    && (forall id :: id in s.owners ==> id < s.nextId)
  }

  // ---------- Steps ----------

  /** The fill after a miss or a failed read: it overwrites whatever entry there is. */
  function Refill(s: State, id: int, loadsAccess: bool, setOk: bool): State {
    if id in s.rows && setOk then
      s.(cache := s.cache[id := Cached(id, s.rows[id], loadsAccess)], stale := s.stale - {id})
    else s
  }

  /** The read-through of Me, SyncUser and SavePreferences; `getOk` says whether the cache answers. */
  function Fill(s: State, id: int, getOk: bool, loadsAccess: bool, setOk: bool): State {
    if getOk && id in s.cache then s else Refill(s, id, loadsAccess, setOk)
  }

  /** DEL of the cache key; when it fails, an entry that is there has become stale. */
  function Invalidate(s: State, id: int, delOk: bool): State {
    if delOk then s.(cache := s.cache - {id}, stale := s.stale - {id})
    else if id in s.cache then s.(stale := s.stale + {id})
    else s
  }

  function Expire(s: State, id: int): State {
    Invalidate(s, id, true)
  }

  ghost predicate HasGoogleId(s: State, googleId: string, id: int) {
    id in s.rows && s.rows[id].googleId == googleId
  }

  /** The upsert of GoogleCallback, on the row of this Google id or on a new one;
      an error that hides an applied upsert also skips the invalidation. */
  ghost function Login(s: State, googleId: string, email: string, token: string, access: bool, db: Db,
                       delOk: bool): State {
    if db.Refused? then s
    else if exists id :: HasGoogleId(s, googleId, id) then
      var id :| HasGoogleId(s, googleId, id);
      var r := s.rows[id];
      var r' := r.(email := email, refreshToken := if token != "" then token else r.refreshToken,
                   hasCalendarAccess := access);
      Invalidate(s.(rows := s.rows[id := r']), id, db.Done? && delOk)
    else
      var id := s.nextId;
      Invalidate(s.(rows := s.rows[id := Row(googleId, email, token, None, false, [], access)], nextId := id + 1,
                    owners := s.owners[id := googleId]),
                 id, db.Done? && delOk)
  }

  /** SyncUser after it created a dedicated calendar; the error of the update is ignored. */
  function SetCalendar(s: State, id: int, calendarId: string, db: Db, delOk: bool): State {
    Invalidate(if !db.Refused? && id in s.rows then s.(rows := s.rows[id := s.rows[id].(calendarId :=
               Some(calendarId))]) else s,
               id, delOk)
  }

  /** DeleteAccount: an error on the row leaves the cache alone. */
  function DeleteAccount(s: State, id: int, db: Db, delOk: bool): State {
    if db.Refused? then s else Invalidate(s.(rows := s.rows - {id}), id, db.Done? && delOk)
  }

  /** handleSyncError on a revoked token: the errors of both statements are ignored. */
  function Revoke(s: State, id: int, db: Db, delOk: bool): State {
    Invalidate(if db.Refused? then s else s.(rows := s.rows - {id}), id, delOk)
  }

  /** PruneOldData: rows without a refresh token go, and no cache entry with them. */
  function PruneUngranted(s: State, ids: set<int>): State {
    s.(rows := map id | id in s.rows && !(id in ids && s.rows[id].refreshToken == "") :: s.rows[id])
  }

  // ---------- SavePreferences ----------

  datatype Response = BadRequest | ServerError | Saved(changed: bool)

  /** What the world answers: the cache read, the replica read, the fill, the update, the invalidation. */
  datatype World = World(getOk: bool, readOk: bool, setOk: bool, db: Db, delOk: bool)

  predicate AllAllowed(platforms: seq<string>) {
    forall p :: p in platforms ==> p in PLATFORMS
  }

  predicate Differs(platforms: seq<string>, dedicated: bool, current: seq<string>, currentDedicated: bool) {
    multiset(platforms) != multiset(current) || dedicated != currentDedicated
  }

  function Update(s: State, id: int, platforms: seq<string>, dedicated: bool): State {
    if id !in s.rows then s
    else
      var r := s.rows[id].(platforms := platforms, useDedicated := dedicated);
      s.(rows := s.rows[id := if dedicated then r else r.(calendarId := None)])
  }

  /** The preferences a save compares with: the cached ones, else the row's. */
  function Current(s: State, id: int, w: World): Option<(seq<string>, bool)> {
    if w.getOk && id in s.cache then Some((s.cache[id].platforms, s.cache[id].useDedicated))
    else if w.readOk && id in s.rows then Some((s.rows[id].platforms, s.rows[id].useDedicated))
    else None
  }

  /** The write and the invalidation after it; an error skips the invalidation. */
  function Commit(s: State, id: int, platforms: seq<string>, dedicated: bool, w: World): (State, Response) {
    match w.db
    case Refused => (s, ServerError)
    case Lost => (Invalidate(Update(s, id, platforms, dedicated), id, false), ServerError)
    case Done => (Invalidate(Update(s, id, platforms, dedicated), id, w.delOk), Saved(true))
  }

  function Save(s: State, id: int, platforms: seq<string>, dedicated: bool, w: World): (State, Response) {
    var current := Current(s, id, w);
    if !AllAllowed(platforms) then (s, BadRequest)
    else if current.None? then (s, ServerError)
    else
      var s1 := Fill(s, id, w.getOk, false, w.setOk);
      if Differs(platforms, dedicated, current.value.0, current.value.1) then Commit(s1, id, platforms, dedicated, w)
      else (s1, Saved(false))
  }

  datatype Step =
    | DoFill(id: int, getOk: bool, loadsAccess: bool, setOk: bool)
    | DoExpire(id: int)
    | DoLogin(googleId: string, email: string, token: string, access: bool, db: Db, delOk: bool)
    | DoSetCalendar(id: int, calendarId: string, db: Db, delOk: bool)
    | DoDeleteAccount(id: int, db: Db, delOk: bool)
    | DoRevoke(id: int, db: Db, delOk: bool)
    | DoPrune(ids: set<int>)
    | DoSave(id: int, platforms: seq<string>, dedicated: bool, w: World)

  ghost function Apply(s: State, step: Step): State {
    match step
    case DoFill(id, get, loads, ok) => Fill(s, id, get, loads, ok)
    case DoExpire(id) => Expire(s, id)
    case DoLogin(g, e, t, a, db, del) => Login(s, g, e, t, a, db, del)
    case DoSetCalendar(id, c, db, del) => SetCalendar(s, id, c, db, del)
    case DoDeleteAccount(id, db, del) => DeleteAccount(s, id, db, del)
    case DoRevoke(id, db, del) => Revoke(s, id, db, del)
    case DoPrune(ids) => PruneUngranted(s, ids)
    case DoSave(id, ps, d, w) => Save(s, id, ps, d, w).0
  }

  ghost function Run(s: State, steps: seq<Step>): State
    decreases |steps|
  {
    if steps == [] then s else Run(Apply(s, steps[0]), steps[1..])
  }

  /** Changing one row and invalidating its entry keeps the invariant. */
  lemma WriteKeepsInv(s: State, id: int, r: Row, delOk: bool)
    requires Inv(s) && id in s.rows && r.googleId == s.rows[id].googleId
    ensures Inv(Invalidate(s.(rows := s.rows[id := r]), id, delOk))
  {
  }

  lemma InvalidateKeepsInv(s: State, id: int, delOk: bool)
    requires Inv(s)
    ensures Inv(Invalidate(s, id, delOk))
  {
  }

  lemma FewerRowsKeepInv(s: State, rows: map<int, Row>)
    requires Inv(s) && forall id :: id in rows ==> id in s.rows && rows[id] == s.rows[id]
    ensures Inv(s.(rows := rows))
  {
  }

  lemma RemoveKeepsInv(s: State, id: int, delOk: bool)
    requires Inv(s)
    ensures Inv(Invalidate(s.(rows := s.rows - {id}), id, delOk))
  {
    FewerRowsKeepInv(s, s.rows - {id});
    InvalidateKeepsInv(s.(rows := s.rows - {id}), id, delOk);
  }

  lemma FillKeepsInv(s: State, id: int, getOk: bool, loadsAccess: bool, setOk: bool)
    requires Inv(s)
    ensures Inv(Fill(s, id, getOk, loadsAccess, setOk))
    ensures var t := Fill(s, id, getOk, loadsAccess, setOk);
      t.rows == s.rows && t.owners == s.owners && t.nextId == s.nextId
  {
  }

  lemma LoginKeepsInv(s: State, googleId: string, email: string, token: string, access: bool, db: Db, delOk: bool)
    requires Inv(s)
    ensures Inv(Login(s, googleId, email, token, access, db, delOk))
  {
    if exists id :: HasGoogleId(s, googleId, id) {
      var id :| HasGoogleId(s, googleId, id);
      var r := s.rows[id];
      var token' := if token != "" then token else r.refreshToken;
      WriteKeepsInv(s, id, r.(email := email, refreshToken := token', hasCalendarAccess := access), db.Done? && delOk);
    } else {
      var id := s.nextId;
      var s1 := s.(rows := s.rows[id := Row(googleId, email, token, None, false, [], access)], nextId := id + 1,
                   owners := s.owners[id := googleId]);
      assert forall i :: i in s.rows ==> !HasGoogleId(s, googleId, i);
      assert id !in s.cache;
      assert Inv(s1);
      InvalidateKeepsInv(s1, id, db.Done? && delOk);
    }
  }

  lemma CommitKeepsInv(s: State, id: int, platforms: seq<string>, dedicated: bool, w: World)
    requires Inv(s)
    ensures Inv(Commit(s, id, platforms, dedicated, w).0)
  {
    if id in s.rows {
      var r := s.rows[id].(platforms := platforms, useDedicated := dedicated);
      WriteKeepsInv(s, id, if dedicated then r else r.(calendarId := None), w.db.Done? && w.delOk);
    }
    InvalidateKeepsInv(s, id, w.db.Done? && w.delOk);
  }

  lemma SaveKeepsInv(s: State, id: int, platforms: seq<string>, dedicated: bool, w: World)
    requires Inv(s)
    ensures Inv(Save(s, id, platforms, dedicated, w).0)
  {
    FillKeepsInv(s, id, w.getOk, false, w.setOk);
    CommitKeepsInv(Fill(s, id, w.getOk, false, w.setOk), id, platforms, dedicated, w);
  }

  lemma SetCalendarKeepsInv(s: State, id: int, calendarId: string, db: Db, delOk: bool)
    requires Inv(s)
    ensures Inv(SetCalendar(s, id, calendarId, db, delOk))
  {
    if id in s.rows {
      WriteKeepsInv(s, id, s.rows[id].(calendarId := Some(calendarId)), delOk);
    }
    InvalidateKeepsInv(s, id, delOk);
  }

  lemma StepKeepsInv(s: State, step: Step)
    requires Inv(s)
    ensures Inv(Apply(s, step))
  {
    match step
    case DoFill(id, get, loads, ok) => FillKeepsInv(s, id, get, loads, ok);
    case DoExpire(id) => InvalidateKeepsInv(s, id, true);
    case DoLogin(g, e, t, a, db, del) => LoginKeepsInv(s, g, e, t, a, db, del);
    case DoSetCalendar(id, c, db, del) => SetCalendarKeepsInv(s, id, c, db, del);
    case DoDeleteAccount(id, db, del) => RemoveKeepsInv(s, id, db.Done? && del);
    case DoRevoke(id, db, del) =>
      RemoveKeepsInv(s, id, del);
      InvalidateKeepsInv(s, id, del);
    case DoPrune(ids) => FewerRowsKeepInv(s, PruneUngranted(s, ids).rows);
    case DoSave(id, ps, d, w) => SaveKeepsInv(s, id, ps, d, w);
  }

  /** In every reachable state a cached user whose row exists agrees with it,
      unless the last invalidation of that entry failed. */
  lemma {:induction false} CacheAgreesOverRuns(s: State, steps: seq<Step>)
    requires Inv(s)
    ensures Inv(Run(s, steps))
    decreases |steps|
  {
    if steps != [] {
      StepKeepsInv(s, steps[0]);
      CacheAgreesOverRuns(Apply(s, steps[0]), steps[1..]);
    }
  }

  /** A login that took effect leaves one row for its Google id, with the address and access it
      brought and a new grant only if it brought one; preferences and other users stay. */
  lemma LoginUpserts(s: State, googleId: string, email: string, token: string, access: bool, db: Db, delOk: bool)
    returns (id: int)
    requires Inv(s) && !db.Refused?
    ensures
      var t := Login(s, googleId, email, token, access, db, delOk);
      && HasGoogleId(t, googleId, id)
      && t.rows[id].email == email && t.rows[id].hasCalendarAccess == access
      && (token != "" || id !in s.rows ==> t.rows[id].refreshToken == token)
      && (id in s.rows ==>
            && HasGoogleId(s, googleId, id) && (token == "" ==> t.rows[id].refreshToken == s.rows[id].refreshToken)
            && t.rows[id].platforms == s.rows[id].platforms && t.rows[id].useDedicated == s.rows[id].useDedicated
            && t.rows[id].calendarId == s.rows[id].calendarId)
      && (id !in s.rows ==>
            && id == s.nextId && t.rows[id].platforms == [] && !t.rows[id].useDedicated
            && t.rows[id].calendarId.None?)
      && t.rows.Keys == s.rows.Keys + {id}
      && (forall other :: other in s.rows && other != id ==> t.rows[other] == s.rows[other])
      && (db.Done? && delOk ==> id !in t.cache)
  {
    if exists i :: HasGoogleId(s, googleId, i) {
      id :| HasGoogleId(s, googleId, id);
    } else {
      id := s.nextId;
    }
  }

  /** An id whose row is gone never comes back: a user who was removed signs in as a new one. */
  lemma {:induction false} RemovedForever(s: State, steps: seq<Step>, id: int)
    requires Inv(s) && id !in s.rows && id < s.nextId
    ensures id !in Run(s, steps).rows
    decreases |steps|
  {
    if steps != [] {
      var t := Apply(s, steps[0]);
      StepKeepsInv(s, steps[0]);
      StepAddsOnlyNewIds(s, steps[0], id);
      RemovedForever(t, steps[1..], id);
    }
  }

  lemma StepAddsOnlyNewIds(s: State, step: Step, id: int)
    requires Inv(s) && id !in s.rows && id < s.nextId
    ensures id !in Apply(s, step).rows && id < Apply(s, step).nextId
  {
    match step
    case DoSave(user, platforms, dedicated, w) => SaveKeepsIds(s, user, platforms, dedicated, w);
    case _ =>
  }

  lemma SaveKeepsIds(s: State, id: int, platforms: seq<string>, dedicated: bool, w: World)
    ensures
      var t := Save(s, id, platforms, dedicated, w).0;
      t.rows.Keys == s.rows.Keys && t.nextId == s.nextId && t.owners == s.owners
  {
    var s1 := Fill(s, id, w.getOk, false, w.setOk);
    assert s1.rows == s.rows;
    CommitKeepsIds(s1, id, platforms, dedicated, w);
  }

  lemma CommitKeepsIds(s: State, id: int, platforms: seq<string>, dedicated: bool, w: World)
    ensures
      var t := Commit(s, id, platforms, dedicated, w).0;
      t.rows.Keys == s.rows.Keys && t.nextId == s.nextId && t.owners == s.owners
  {
  }

  lemma StepKeepsOwners(s: State, step: Step, id: int)
    requires Inv(s) && id in s.owners
    ensures id in Apply(s, step).owners && Apply(s, step).owners[id] == s.owners[id]
  {
    match step
    case DoSave(user, platforms, dedicated, w) => SaveKeepsIds(s, user, platforms, dedicated, w);
    case _ =>
  }

  /** An id stands for one Google account in every state of a run: whatever row or cached
      user it has, then or later, stale or not, carries the same Google id. */
  lemma {:induction false} OneGoogleIdPerUser(s: State, steps: seq<Step>, id: int)
    requires Inv(s) && id in s.owners
    ensures
      var t := Run(s, steps);
      && id in t.owners && t.owners[id] == s.owners[id]
      && (id in t.rows ==> t.rows[id].googleId == s.owners[id])
      && (id in t.cache ==> t.cache[id].googleId == s.owners[id])
    decreases |steps|
  {
    if steps != [] {
      StepKeepsInv(s, steps[0]);
      StepKeepsOwners(s, steps[0], id);
      OneGoogleIdPerUser(Apply(s, steps[0]), steps[1..], id);
    }
  }

  // ---------- Runs without a failed invalidation ----------

  predicate Clean(step: Step) {
    match step
    case DoFill(_, _, _, _) => true
    case DoExpire(_) => true
    case DoLogin(_, _, _, _, db, del) => !db.Lost? && del
    case DoSetCalendar(_, _, _, del) => del
    case DoDeleteAccount(_, db, del) => !db.Lost? && del
    case DoRevoke(_, _, del) => del
    case DoPrune(_) => true
    case DoSave(_, _, _, w) => !w.db.Lost? && w.delOk
  }

  lemma CleanStep(s: State, step: Step)
    requires s.stale == {} && Clean(step)
    ensures Apply(s, step).stale == {}
  {
  }

  /** When no invalidation is skipped or fails, every cached user agrees with its row in every reachable state. */
  lemma {:induction false} CleanRunsAgree(s: State, steps: seq<Step>)
    requires Inv(s) && s.stale == {}
    requires forall i :: 0 <= i < |steps| ==> Clean(steps[i])
    ensures
      var t := Run(s, steps);
      forall id :: id in t.cache && id in t.rows ==> Agrees(id, t.cache[id], t.rows[id])
    decreases |steps|
  {
    if steps != [] {
      StepKeepsInv(s, steps[0]);
      CleanStep(s, steps[0]);
      CleanRunsAgree(Apply(s, steps[0]), steps[1..]);
      assert Run(s, steps) == Run(Apply(s, steps[0]), steps[1..]);
    }
  }

  const QUIET := World(true, true, true, Done, true)

  /** One failed invalidation is enough to break the agreement, and then a save
      that asks for the cached preferences is skipped although the row differs. */
  lemma FailedInvalidationBreaksAgreement(before: State, id: int, r: Row)
    requires Inv(before) && id in before.rows && id !in before.cache
    requires before.rows[id] == r && r.platforms == [] && !r.useDedicated
    ensures
      var steps := [DoFill(id, true, true, true), DoSave(id, ["codeforces"], false, QUIET.(delOk := false))];
      var t := Run(before, steps);
      && id in t.cache && id in t.rows && !Agrees(id, t.cache[id], t.rows[id])
      && Save(t, id, [], false, QUIET) == (t, Saved(false))
      && t.rows[id].platforms == ["codeforces"]
  {
    var save := DoSave(id, ["codeforces"], false, QUIET.(delOk := false));
    var s1 := Fill(before, id, true, true, true);
    assert multiset(["codeforces"])["codeforces"] == 1;
    var s2 := Apply(s1, save);
    assert Run(before, [DoFill(id, true, true, true), save]) == s2 by {
      assert [DoFill(id, true, true, true), save][1..] == [save];
      assert [save][1..] == [];
      assert Run(s2, []) == s2;
      assert Run(s1, [save]) == s2;
    }
  }

  /** The flag two of the fills do not load: a cached user can lack the access its row has. */
  lemma AccessIsNotLoaded(s: State, id: int)
    requires id in s.rows && id !in s.cache && s.rows[id].hasCalendarAccess
    ensures
      var t := Fill(s, id, true, false, true);
      && id in t.cache && Agrees(id, t.cache[id], t.rows[id])
      && t.cache[id].hasCalendarAccess != t.rows[id].hasCalendarAccess
  {
  }

  /** A read-through whose write succeeds leaves an entry that agrees with the row, unless the cache answered; one
      that loads the flag has it too. */
  lemma FillServesTheRow(s: State, id: int, getOk: bool, loadsAccess: bool)
    requires id in s.rows && !(getOk && id in s.cache)
    ensures
      var t := Fill(s, id, getOk, loadsAccess, true);
      && id in t.cache && id !in t.stale && Agrees(id, t.cache[id], s.rows[id]) && t.rows == s.rows
      && t.cache[id].hasCalendarAccess == (loadsAccess && s.rows[id].hasCalendarAccess)
      && t.cache.Keys == s.cache.Keys + {id}
      && forall other :: other in s.cache && other != id ==> t.cache[other] == s.cache[other]
  {
  }

  /** Unless its statement is refused, a deletion takes the row, now and after any run, and no other; the cached user
      goes exactly when the statement is confirmed and the invalidation succeeds. */
  lemma DeletedAccountStaysGone(s: State, id: int, db: Db, delOk: bool, steps: seq<Step>)
    requires Inv(s) && id in s.rows
    ensures
      var t := DeleteAccount(s, id, db, delOk);
      && (db.Refused? ==> t == s)
      && (!db.Refused? ==> t.rows.Keys == s.rows.Keys - {id} && id !in Run(t, steps).rows)
      && (id in t.cache <==> id in s.cache && !(db.Done? && delOk))
      && forall other :: other in s.rows && other != id ==> t.rows[other] == s.rows[other]
  {
    if !db.Refused? {
      var t := DeleteAccount(s, id, db, delOk);
      RemoveKeepsInv(s, id, db.Done? && delOk);
      RemovedForever(t, steps, id);
    }
  }

  /** A created calendar is remembered in the user's row and nowhere else, unless the statement is refused, and the
      entry goes with the invalidation. */
  lemma CalendarIsRemembered(s: State, id: int, calendarId: string, db: Db, delOk: bool, other: int)
    requires other in s.rows
    ensures
      var t, r := SetCalendar(s, id, calendarId, db, delOk), s.rows[other];
      var calendar := if other == id && !db.Refused? then Some(calendarId) else r.calendarId;
      && t.rows.Keys == s.rows.Keys && (delOk ==> id !in t.cache)
      && t.rows[other] == Row(r.googleId, r.email, r.refreshToken, calendar, r.useDedicated, r.platforms,
                              r.hasCalendarAccess)
  {
  }

  /** Pruning takes only chosen users without a grant, and all of those. */
  lemma PruneTakesUngranted(s: State, ids: set<int>, id: int)
    requires id in s.rows
    ensures
      var t := PruneUngranted(s, ids);
      && (id !in t.rows <==> id in ids && s.rows[id].refreshToken == "")
      && (id in t.rows ==> t.rows[id] == s.rows[id]) && t.cache == s.cache
  {
  }

  predicate Stores(r: Row, platforms: seq<string>, dedicated: bool) {
    multiset(r.platforms) == multiset(platforms) && r.useDedicated == dedicated
  }

  /** The cache answers with the request, so that the write is skipped. */
  predicate Skipped(s: State, id: int, platforms: seq<string>, dedicated: bool, w: World) {
    w.getOk && id in s.cache && !Differs(platforms, dedicated, s.cache[id].platforms, s.cache[id].useDedicated)
  }

  predicate Holds(s: State, id: int, platforms: seq<string>, dedicated: bool) {
    id in s.rows && Stores(s.rows[id], platforms, dedicated)
  }

  /** There is a row, and no cached entry equal to the request hides a different one. */
  predicate Lands(s: State, id: int, platforms: seq<string>, dedicated: bool, w: World) {
    id in s.rows && (Skipped(s, id, platforms, dedicated, w) ==> Stores(s.rows[id], platforms, dedicated))
  }

  /** The rows after a save that reports success. */
  lemma SavedRows(s: State, id: int, platforms: seq<string>, dedicated: bool, w: World)
    requires Save(s, id, platforms, dedicated, w).1.Saved?
    ensures
      var t := Save(s, id, platforms, dedicated, w).0;
      var current := Current(s, id, w);
      && current.Some?
      && t.rows == if Differs(platforms, dedicated, current.value.0, current.value.1)
                   then Update(s, id, platforms, dedicated).rows else s.rows
  {
  }

  /** After a save that reports success the row holds the requested multiset and flag,
      whether or not the write was skipped, exactly when there is a row and no cached entry
      equal to the request hid a different one; other users are untouched. */
  lemma SaveStoresTheRequest(s: State, id: int, platforms: seq<string>, dedicated: bool, w: World)
    requires Save(s, id, platforms, dedicated, w).1.Saved?
    ensures
      var t := Save(s, id, platforms, dedicated, w).0;
      && t.rows.Keys == s.rows.Keys
      && (Holds(t, id, platforms, dedicated) <==> Lands(s, id, platforms, dedicated, w))
      && (forall other :: other in s.rows && other != id ==> t.rows[other] == s.rows[other])
  {
    SavedRows(s, id, platforms, dedicated, w);
  }

  lemma SaveSummary(s: State, id: int, platforms: seq<string>, dedicated: bool, w: World)
    requires Inv(s)
    ensures
      var (t, response) := Save(s, id, platforms, dedicated, w);
      Inv(t) && (response.Saved? ==> (Holds(t, id, platforms, dedicated) <==> Lands(s, id, platforms, dedicated, w)))
  {
    SaveKeepsInv(s, id, platforms, dedicated, w);
    if Save(s, id, platforms, dedicated, w).1.Saved? {
      SaveStoresTheRequest(s, id, platforms, dedicated, w);
    }
  }

  /** With a row and an entry that is not stale, success means stored, and giving up the dedicated
      calendar forgets it. */
  lemma SaveIsTrusted(s: State, id: int, platforms: seq<string>, dedicated: bool, w: World)
    requires Inv(s) && id in s.rows && id !in s.stale && Save(s, id, platforms, dedicated, w).1.Saved?
    ensures
      var t := Save(s, id, platforms, dedicated, w).0;
      && Holds(t, id, platforms, dedicated)
      && (!dedicated && s.rows[id].useDedicated ==> t.rows[id].calendarId.None?)
  {
    SavedRows(s, id, platforms, dedicated, w);
    assert Agreement(s);
  }

  /** The answer to a save: a bad request exactly for an unknown platform, an error exactly when there is nothing to
      compare with or the write is not confirmed, and else whether the preferences differ. */
  lemma SaveAnswers(s: State, id: int, platforms: seq<string>, dedicated: bool, w: World)
    ensures
      var response := Save(s, id, platforms, dedicated, w).1;
      var current := Current(s, id, w);
      var differ :=
        current.Some? && (multiset(platforms) != multiset(current.value.0) || dedicated != current.value.1);
      && (response.BadRequest? <==> exists p :: p in platforms && p !in PLATFORMS)
      && (!response.BadRequest? ==> (response.ServerError? <==> current.None? || (differ && !w.db.Done?)))
      && (response.Saved? ==> (response.changed <==> differ))
  {
  }

  lemma CommitDropsEntry(s: State, id: int, platforms: seq<string>, dedicated: bool, w: World)
    ensures
      var (t, response) := Commit(s, id, platforms, dedicated, w);
      t.cache == if response == Saved(true) && w.delOk then s.cache - {id} else s.cache
  {
  }

  lemma SaveCaches(s: State, id: int, platforms: seq<string>, dedicated: bool, w: World)
    ensures
      var (t, response) := Save(s, id, platforms, dedicated, w);
      var seen := AllAllowed(platforms) && Current(s, id, w).Some?;
      var base := if seen then Fill(s, id, w.getOk, false, w.setOk).cache else s.cache;
      t.cache == if response == Saved(true) && w.delOk then base - {id} else base
  {
    CommitDropsEntry(Fill(s, id, w.getOk, false, w.setOk), id, platforms, dedicated, w);
  }

  /** A save drops the cached user exactly when it stored something and the invalidation succeeds; else the entry is
      the one there was, or the row's where the read-through filled it. */
  lemma SaveDropsEntryIff(s: State, id: int, platforms: seq<string>, dedicated: bool, w: World, other: int)
    ensures
      var (t, response) := Save(s, id, platforms, dedicated, w);
      var dropped := response == Saved(true) && w.delOk;
      var filled := !response.BadRequest? && !(w.getOk && id in s.cache) && w.readOk && id in s.rows && w.setOk;
      && (id in t.cache <==> !dropped && (id in s.cache || filled))
      && (id in t.cache ==> if filled then Agrees(id, t.cache[id], s.rows[id]) else t.cache[id] == s.cache[id])
      && (other != id ==> (other in t.cache <==> other in s.cache))
      && (other != id && other in s.cache ==> t.cache[other] == s.cache[other])
  {
    SaveCaches(s, id, platforms, dedicated, w);
    var t := Fill(s, id, w.getOk, false, w.setOk);
    assert other != id && other in s.cache ==> other in t.cache && t.cache[other] == s.cache[other];
    if id in s.rows && !(w.getOk && id in s.cache) {
      FillServesTheRow(s, id, w.getOk, false);
    }
  }

  /** Whatever a save answers, it leaves the other users alone, keeps the account, the grant and the access of its
      own, and takes the calendar away only together with the dedicated flag. */
  lemma SaveKeepsTheRest(s: State, id: int, platforms: seq<string>, dedicated: bool, w: World, other: int)
    requires other in s.rows
    ensures
      var t := Save(s, id, platforms, dedicated, w).0;
      && other in t.rows
      && (other != id ==> t.rows[other] == s.rows[other])
      && var r, r' := s.rows[other], t.rows[other];
         && r'.googleId == r.googleId && r'.email == r.email && r'.refreshToken == r.refreshToken
         && r'.hasCalendarAccess == r.hasCalendarAccess
         && (r'.calendarId == r.calendarId || (r'.calendarId.None? && !r'.useDedicated && !dedicated))
         && (dedicated ==> r'.calendarId == r.calendarId)
         && (r'.platforms == r.platforms || r'.platforms == platforms)
  {
    CommitKeepsTheRest(Fill(s, id, w.getOk, false, w.setOk), id, platforms, dedicated, w, other);
  }

  lemma CommitKeepsTheRest(s: State, id: int, platforms: seq<string>, dedicated: bool, w: World, other: int)
    requires other in s.rows
    ensures
      var t := Commit(s, id, platforms, dedicated, w).0;
      && other in t.rows
      && t.rows[other] == if other == id && !w.db.Refused? then Preferred(s.rows[id], platforms, dedicated)
        else s.rows[other]
  {
  }

  /** A row with new preferences. */
  function Preferred(r: Row, platforms: seq<string>, dedicated: bool): Row {
    Row(r.googleId, r.email, r.refreshToken, if dedicated then r.calendarId else None, dedicated, platforms,
        r.hasCalendarAccess)
  }

  /** Pruning drops a row but not its cached user: a user who never granted access, was cached and
      is pruned gets a success for a save that is stored nowhere, with no invalidation failed. */
  lemma PrunedUserIsSavedNowhere()
    ensures
      var steps := [DoLogin("g", "e", "", false, Done, true), DoFill(1, true, true, true), DoPrune({1})];
      var s := Run(START, steps);
      && (forall i :: 0 <= i < 3 ==> Clean(steps[i])) && Inv(s) && s.stale == {}
      && Save(s, 1, ["codeforces"], false, QUIET).1 == Saved(true)
      && 1 !in Save(s, 1, ["codeforces"], false, QUIET).0.rows
  {
    var login, fill, prune := DoLogin("g", "e", "", false, Done, true), DoFill(1, true, true, true), DoPrune({1});
    var r := Row("g", "e", "", None, false, [], false);
    assert forall id :: !HasGoogleId(START, "g", id);
    var s1 := Apply(START, login);
    assert s1 == State(map[1 := r], map[], 2, {}, map[1 := "g"]);
    var s2 := Apply(s1, fill);
    var s3 := Apply(s2, prune);
    assert s3 == State(map[], map[1 := Cached(1, r, true)], 2, {}, map[1 := "g"]);
    assert [login, fill, prune][1..] == [fill, prune] && [fill, prune][1..] == [prune] && [prune][1..] == [];
    assert Run(s3, []) == s3 && Run(s2, [prune]) == s3 && Run(s1, [fill, prune]) == s3;
    assert multiset(["codeforces"])["codeforces"] == 1;
    assert "codeforces" == PLATFORMS[1];
  }

  // ---------- Change detection ----------

  function Count(counts: map<string, int>, p: string): int {
    if p in counts then counts[p] else 0
  }

  method CountUp(current: seq<string>) returns (counts: map<string, int>)
    ensures forall p :: Count(counts, p) == multiset(current)[p]
  {
    counts := map[];
    for i := 0 to |current|
      invariant forall p :: Count(counts, p) == multiset(current[..i])[p]
    {
      assert current[..i + 1] == current[..i] + [current[i]];
      counts := counts[current[i] := Count(counts, current[i]) + 1];
    }
    assert current[..|current|] == current;
  }

  method CountDown(counts: map<string, int>, platforms: seq<string>) returns (rest: map<string, int>)
    ensures forall p :: Count(rest, p) == Count(counts, p) - multiset(platforms)[p]
  {
    rest := counts;
    for i := 0 to |platforms|
      invariant forall p :: Count(rest, p) == Count(counts, p) - multiset(platforms[..i])[p]
    {
      assert platforms[..i + 1] == platforms[..i] + [platforms[i]];
      rest := rest[platforms[i] := Count(rest, platforms[i]) - 1];
    }
    assert platforms[..|platforms|] == platforms;
  }

  method AnyNonZero(counts: map<string, int>) returns (found: bool)
    ensures found <==> exists p :: Count(counts, p) != 0
  {
    var keys := counts.Keys;
    while keys != {}
      invariant keys <= counts.Keys
      invariant forall p :: p !in keys ==> Count(counts, p) == 0
    {
      var p :| p in keys;
      if counts[p] != 0 {
        assert Count(counts, p) != 0;
        return true;
      }
      keys := keys - {p};
    }
    return false;
  }

  /** The change test: equal lengths and flags, then a count per platform. */
  method PreferencesChanged(platforms: seq<string>, dedicated: bool, current: seq<string>, currentDedicated: bool)
    returns (changed: bool)
    ensures changed <==> multiset(platforms) != multiset(current) || dedicated != currentDedicated
  {
    if |platforms| != |current| || dedicated != currentDedicated {
      assert |multiset(platforms)| == |platforms| && |multiset(current)| == |current|;
      return true;
    }
    var counts := CountUp(current);
    counts := CountDown(counts, platforms);
    changed := AnyNonZero(counts);
    if !changed {
      forall p ensures multiset(platforms)[p] == multiset(current)[p] {
        assert Count(counts, p) == 0;
      }
    }
  }

  method Validate(platforms: seq<string>) returns (ok: bool)
    ensures ok <==> forall p :: p in platforms ==> p in PLATFORMS
  {
    for i := 0 to |platforms|
      invariant forall j :: 0 <= j < i ==> platforms[j] in PLATFORMS
    {
      if platforms[i] !in PLATFORMS {
        return false;
      }
    }
    return true;
  }

  class Handlers {
    var rows: map<int, Row>
    var cache: map<int, CachedUser>
    ghost var nextId: int
    ghost var stale: set<int>
    ghost var owners: map<int, string>

    ghost function Value(): State
      reads this
    {
      State(rows, cache, nextId, stale, owners)
    }

    /** Read-through of the user for SavePreferences; nothing when there is no row to read. */
    method Read(id: int, w: World) returns (current: Option<(seq<string>, bool)>)
      modifies this
      ensures current == Current(old(Value()), id, w)
      ensures Value() == if current.None? then old(Value()) else Fill(old(Value()), id, w.getOk, false, w.setOk)
    {
      if w.getOk && id in cache {
        return Some((cache[id].platforms, cache[id].useDedicated));
      }
      if !w.readOk || id !in rows {
        return None;
      }
      if w.setOk {
        cache := cache[id := Cached(id, rows[id], false)];
        stale := stale - {id};
      }
      return Some((rows[id].platforms, rows[id].useDedicated));
    }

    method Write(id: int, platforms: seq<string>, dedicated: bool)
      modifies this
      ensures Value() == Update(old(Value()), id, platforms, dedicated)
    {
      if id in rows {
        if dedicated {
          rows := rows[id := rows[id].(platforms := platforms, useDedicated := dedicated)];
        } else {
          rows := rows[id := rows[id].(platforms := platforms, useDedicated := dedicated, calendarId := None)];
        }
      }
    }

    method Del(id: int, delOk: bool)
      modifies this
      ensures Value() == Invalidate(old(Value()), id, delOk)
    {
      if delOk {
        cache := cache - {id};
        stale := stale - {id};
      } else if id in cache {
        stale := stale + {id};
      }
    }

    method SavePreferences(id: int, platforms: seq<string>, dedicated: bool, w: World) returns (response: Response)
      requires Inv(Value())
      modifies this
      ensures (Value(), response) == Save(old(Value()), id, platforms, dedicated, w)
      ensures Inv(Value())
      ensures response.Saved? ==>
                (Holds(Value(), id, platforms, dedicated) <==> Lands(old(Value()), id, platforms, dedicated, w))
    {
      SaveSummary(Value(), id, platforms, dedicated, w);
      var ok := Validate(platforms);
      if !ok {
        return BadRequest;
      }
      var current := Read(id, w);
      if current.None? {
        return ServerError;
      }
      var changed := PreferencesChanged(platforms, dedicated, current.value.0, current.value.1);
      if !changed {
        return Saved(false);
      }
      if w.db.Refused? {
        return ServerError;
      }
      Write(id, platforms, dedicated);
      Del(id, w.db.Done? && w.delOk);
      return if w.db.Done? then Saved(true) else ServerError;
    }
  }
}
