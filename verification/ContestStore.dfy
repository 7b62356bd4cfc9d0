/**
  The contests table and the per-platform contest caches: extraction
  (internal/queue/amqp.go), pruning (internal/scheduler/scheduler.go) and the
  assembly of a user's contests (internal/sync/sync.go). A statement is one step,
  a batch with its invalidation is one step, and so is a query with the fills that
  follow it; replicas equal the primary. A batch whose invalidation was skipped or
  failed puts its platform in `stale`. SendBatch runs as one transaction.
 */
module ContestStore {
  import opened Common
  import opened Ids

  datatype Contest = Contest(id: string, name: string, url: string, start: int, end: int, duration: int,
                             platform: string)

  datatype State = State(rows: map<string, Contest>, cache: map<string, seq<Contest>>, now: int, stale: set<string>)

  /** What the fetchers return and the tables keep: the id encodes the platform and the start. */
  predicate Encoded(c: Contest) {
    c.id == ContestId(c.platform, c.start)
  }

  predicate Upcoming(s: State, c: Contest) {
    c.start > s.now
  }

  /** The columns the assembly selects: all but the duration. */
  function Selected(c: Contest): Contest {
    c.(duration := 0)
  }

  ghost predicate RowsEncoded(rows: map<string, Contest>) {
    forall id :: id in rows ==> rows[id].id == id && Encoded(rows[id])
  }

  ghost predicate CachesGenuine(s: State) {
    forall p, c :: p in s.cache && c in s.cache[p] ==> c.platform == p && Encoded(c)
  }

  /** A cached list holds every stored contest of its platform that is still to come. */
  ghost predicate Covers(s: State, p: string) {
    p in s.cache ==>
      forall id :: id in s.rows && s.rows[id].platform == p && Upcoming(s, s.rows[id]) ==>
        Selected(s.rows[id]) in s.cache[p]
  }

  ghost predicate Inv(s: State) {
    && RowsEncoded(s.rows)
    && CachesGenuine(s)
    && (forall p :: p !in s.stale ==> Covers(s, p))
  }

  // ---------- Extraction ----------

  /** The ids of a batch, in order. */
  function NewIds(batch: seq<Contest>): seq<string> {
    if batch == [] then [] else NewIds(batch[..|batch| - 1]) + [batch[|batch| - 1].id]
  }

  /** The last entry of a batch with this id. */
  function Last(batch: seq<Contest>, id: string): Contest
    requires id in NewIds(batch)
  {
    if batch[|batch| - 1].id == id then batch[|batch| - 1] else Last(batch[..|batch| - 1], id)
  }

  predicate Obsolete(s: State, p: string, newIds: seq<string>, c: Contest) {
    c.platform == p && Upcoming(s, c) && c.id !in newIds
  }

  function Prune(s: State, p: string, newIds: seq<string>, db: Db): State {
    if db.Refused? then s
    else s.(rows := map id | id in s.rows && !Obsolete(s, p, newIds, s.rows[id]) :: s.rows[id])
  }

  /** INSERT with ON CONFLICT DO UPDATE; an update leaves the platform as it is. */
  function Upsert(rows: map<string, Contest>, c: Contest): map<string, Contest> {
    rows[c.id := if c.id in rows then c.(platform := rows[c.id].platform) else c]
  }

  function UpsertAll(rows: map<string, Contest>, batch: seq<Contest>): map<string, Contest> {
    if batch == [] then rows else Upsert(UpsertAll(rows, batch[..|batch| - 1]), batch[|batch| - 1])
  }

  /** DEL of the platform's key after a batch; when it does not happen, an entry that is there may be out of date. */
  function Invalidate(s: State, p: string, ok: bool): State {
    if ok then s.(cache := s.cache - {p}, stale := s.stale - {p})
    else if p in s.cache then s.(stale := s.stale + {p})
    else s
  }

  /** The batch with what follows it: an error returns before the invalidation. */
  function Save(s: State, p: string, batch: seq<Contest>, db: Db, delOk: bool): State {
    if db.Refused? then s
    else Invalidate(s.(rows := UpsertAll(s.rows, batch)), p, db.Done? && delOk)
  }

  datatype Fetch = Failed | Fetched(contests: seq<Contest>)

  /** handleExtraction and whether it reports an error. */
  function Extract(s: State, p: string, fetch: Fetch, pruneDb: Db, batchDb: Db, delOk: bool): (State, bool) {
    if p !in PLATFORMS || fetch.Failed? then (s, true)
    else if fetch.contests == [] then (s, false)
    else (Save(Prune(s, p, NewIds(fetch.contests), pruneDb), p, fetch.contests, batchDb, delOk), !batchDb.Done?)
  }

  /** The fetcher of a platform returns contests of that platform under their own ids. */
  ghost predicate BatchOf(p: string, batch: seq<Contest>) {
    forall c :: c in batch ==> c.platform == p && Encoded(c)
  }

  lemma SameIdSameContest(a: Contest, b: Contest)
    requires Encoded(a) && Encoded(b) && a.id == b.id
    ensures a.platform == b.platform && a.start == b.start
  {
    ContestIdInjective(a.platform, a.start, b.platform, b.start);
  }

  lemma UpsertKeepsEncoded(rows: map<string, Contest>, c: Contest)
    requires RowsEncoded(rows) && Encoded(c)
    ensures Upsert(rows, c) == rows[c.id := c]
    ensures RowsEncoded(Upsert(rows, c))
  {
    if c.id in rows {
      SameIdSameContest(c, rows[c.id]);
    }
  }

  /** Upserting a batch leaves its last entry per id and touches nothing else. */
  lemma {:induction false} UpsertAllExact(rows: map<string, Contest>, p: string, batch: seq<Contest>)
    requires RowsEncoded(rows) && BatchOf(p, batch)
    ensures RowsEncoded(UpsertAll(rows, batch))
    ensures forall id :: id in UpsertAll(rows, batch) <==> id in rows || id in NewIds(batch)
    ensures forall id :: id in NewIds(batch) ==> UpsertAll(rows, batch)[id] == Last(batch, id)
    ensures forall id :: id in rows && id !in NewIds(batch) ==> UpsertAll(rows, batch)[id] == rows[id]
  {
    if batch != [] {
      var init, c := batch[..|batch| - 1], batch[|batch| - 1];
      UpsertAllExact(rows, p, init);
      UpsertKeepsEncoded(UpsertAll(rows, init), c);
    }
  }

  lemma {:induction false} LastIsInBatch(batch: seq<Contest>, id: string)
    requires id in NewIds(batch)
    ensures Last(batch, id) in batch && Last(batch, id).id == id
  {
    if batch[|batch| - 1].id != id {
      LastIsInBatch(batch[..|batch| - 1], id);
    }
  }

  lemma {:induction false} IdsOfBatch(batch: seq<Contest>, c: Contest)
    requires c in batch
    ensures c.id in NewIds(batch)
  {
    if batch[|batch| - 1] != c {
      IdsOfBatch(batch[..|batch| - 1], c);
    }
  }

  /** Other platforms' rows and started rows outside the batch are as before, and the
      platform's upcoming rows are exactly the batch's upcoming contests, the last
      entry winning per id. */
  ghost predicate Extracted(s: State, p: string, batch: seq<Contest>, t: map<string, Contest>) {
    && (forall id :: id in t && t[id].platform != p ==> id in s.rows && s.rows[id] == t[id])
    && (forall id :: id in s.rows && s.rows[id].platform != p ==> id in t && t[id] == s.rows[id])
    && (forall id :: id in s.rows && s.rows[id].start <= s.now && id !in NewIds(batch) ==>
          id in t && t[id] == s.rows[id])
    && (forall id :: id in t && t[id].platform == p && t[id].start > s.now ==>
          id in NewIds(batch) && t[id] == Last(batch, id))
    && (forall c :: c in batch ==>
          c.id in NewIds(batch) && c.id in t && t[c.id] == Last(batch, c.id) && t[c.id].start == c.start)
  }

  /** A stored row under an id of the batch is of the batch's platform, and entries under one id start together. */
  lemma BatchFacts(rows: map<string, Contest>, p: string, batch: seq<Contest>)
    requires RowsEncoded(rows) && BatchOf(p, batch)
    ensures forall id :: id in NewIds(batch) ==> Last(batch, id).platform == p
    ensures forall id :: id in rows && id in NewIds(batch) ==> rows[id].platform == p
    ensures forall c :: c in batch ==> c.id in NewIds(batch) && Last(batch, c.id).start == c.start
  {
    forall id | id in NewIds(batch) ensures Last(batch, id).platform == p && (id in rows ==> rows[id].platform == p) {
      LastIsInBatch(batch, id);
      if id in rows {
        SameIdSameContest(rows[id], Last(batch, id));
      }
    }
    forall c | c in batch ensures c.id in NewIds(batch) && Last(batch, c.id).start == c.start {
      IdsOfBatch(batch, c);
      LastIsInBatch(batch, c.id);
      SameIdSameContest(c, Last(batch, c.id));
    }
  }

  /** An extraction whose prune and batch are both done. */
  lemma ExtractionExact(s: State, p: string, batch: seq<Contest>, delOk: bool)
    requires Inv(s) && p in PLATFORMS && batch != [] && BatchOf(p, batch)
    ensures !Extract(s, p, Fetched(batch), Done, Done, delOk).1
    ensures Extracted(s, p, batch, Extract(s, p, Fetched(batch), Done, Done, delOk).0.rows)
  {
    UpsertAllExact(Prune(s, p, NewIds(batch), Done).rows, p, batch);
    BatchFacts(s.rows, p, batch);
  }

  /** Nothing changes when the platform is unknown, the fetch fails or it comes back empty. */
  lemma NothingFetchedNothingChanged(s: State, p: string, fetch: Fetch, pruneDb: Db, batchDb: Db, delOk: bool)
    requires p !in PLATFORMS || fetch.Failed? || fetch.contests == []
    ensures Extract(s, p, fetch, pruneDb, batchDb, delOk).0 == s
    ensures Extract(s, p, fetch, pruneDb, batchDb, delOk).1 <==> p !in PLATFORMS || fetch.Failed?
  {
  }

  /** An extraction reports an error exactly for an unknown platform, a failed fetch, or contests whose batch is not
      confirmed; a prune that fails is no error. */
  lemma ExtractErrsIff(s: State, p: string, fetch: Fetch, pruneDb: Db, batchDb: Db, delOk: bool)
    ensures Extract(s, p, fetch, pruneDb, batchDb, delOk).1 <==>
              p !in PLATFORMS || fetch.Failed? || (fetch.contests != [] && !batchDb.Done?)
  {
  }

  // ---------- Assembly ----------

  /** The contests found in the caches of the first n platforms; `get` says which reads succeed. */
  function Hits(cache: map<string, seq<Contest>>, platforms: seq<string>, get: nat -> bool, n: nat): seq<Contest>
    requires n <= |platforms|
  {
    if n == 0 then []
    else Hits(cache, platforms, get, n - 1)
         + if get(n - 1) && platforms[n - 1] in cache then cache[platforms[n - 1]] else []
  }

  function Missed(cache: map<string, seq<Contest>>, platforms: seq<string>, get: nat -> bool, n: nat): seq<string>
    requires n <= |platforms|
  {
    if n == 0 then []
    else Missed(cache, platforms, get, n - 1)
         + if get(n - 1) && platforms[n - 1] in cache then [] else [platforms[n - 1]]
  }

  function OfPlatform(listing: seq<Contest>, p: string): seq<Contest> {
    if listing == [] then []
    else
      var c := listing[|listing| - 1];
      OfPlatform(listing[..|listing| - 1], p) + if c.platform == p then [c] else []
  }

  function Gathered(listing: seq<Contest>, platforms: seq<string>): seq<Contest> {
    if platforms == [] then []
    else Gathered(listing, platforms[..|platforms| - 1]) + OfPlatform(listing, platforms[|platforms| - 1])
  }

  /** The writes of the missed platforms' lists; `set` says which succeed. */
  function Fills(s: State, listing: seq<Contest>, missed: seq<string>, put: nat -> bool): State {
    if missed == [] then s
    else
      var n := |missed| - 1;
      var t := Fills(s, listing, missed[..n], put);
      if put(n) then
        t.(cache := t.cache[missed[n] := OfPlatform(listing, missed[n])], stale := t.stale - {missed[n]})
      else t
  }

  /** What the SELECT may return, in any order: the upcoming rows of these platforms. */
  ghost predicate IsListing(s: State, platforms: seq<string>, listing: seq<Contest>) {
    && (forall c :: c in listing ==> Direct(s, platforms, c))
    && (forall id :: id in s.rows && s.rows[id].platform in platforms && Upcoming(s, s.rows[id]) ==>
      Selected(s.rows[id]) in listing)
  }

  /** The columns the query selects, as the row has them. */
  predicate ReadFrom(c: Contest, row: Contest) {
    && c.id == row.id && c.name == row.name && c.url == row.url && c.start == row.start && c.end == row.end
    && c.platform == row.platform && c.duration == 0
  }

  /** A row the uncached query returns: of one of the platforms, and starting later than now. */
  ghost predicate Direct(s: State, platforms: seq<string>, c: Contest) {
    exists id :: id in s.rows && s.rows[id].platform in platforms && s.rows[id].start > s.now && ReadFrom(c, s.rows[id])
  }

  lemma {:induction false} OfPlatformExact(listing: seq<Contest>, p: string, c: Contest)
    ensures c in OfPlatform(listing, p) <==> c in listing && c.platform == p
  {
    if listing != [] {
      assert listing == listing[..|listing| - 1] + [listing[|listing| - 1]];
      OfPlatformExact(listing[..|listing| - 1], p, c);
    }
  }

  lemma {:induction false} GatheredExact(listing: seq<Contest>, platforms: seq<string>, c: Contest)
    ensures c in Gathered(listing, platforms) <==> c in listing && c.platform in platforms
  {
    if platforms != [] {
      var n := |platforms| - 1;
      assert platforms == platforms[..n] + [platforms[n]];
      GatheredExact(listing, platforms[..n], c);
      OfPlatformExact(listing, platforms[n], c);
    }
  }

  /** Each platform is either read from its cache or missed. */
  lemma {:induction false} HitOrMissed(cache: map<string, seq<Contest>>, platforms: seq<string>, get: nat -> bool,
                                       n: nat, p: string)
    requires n <= |platforms|
    ensures p in platforms[..n] && p !in Missed(cache, platforms, get, n) ==>
              p in cache && forall c :: c in cache[p] ==> c in Hits(cache, platforms, get, n)
    ensures p in Missed(cache, platforms, get, n) ==> p in platforms[..n]
  {
    if n > 0 {
      assert platforms[..n] == platforms[..n - 1] + [platforms[n - 1]];
      HitOrMissed(cache, platforms, get, n - 1, p);
    }
  }

  lemma {:induction false} HitsAreCached(cache: map<string, seq<Contest>>, platforms: seq<string>, get: nat -> bool,
                                         n: nat, c: Contest)
    requires n <= |platforms| && c in Hits(cache, platforms, get, n)
    ensures exists p :: p in platforms && p in cache && c in cache[p]
  {
    var p := platforms[n - 1];
    if get(n - 1) && p in cache && c in cache[p] {
      assert p in platforms;
    } else {
      HitsAreCached(cache, platforms, get, n - 1, c);
    }
  }

  /** What one run of the assembly reads from the world: the cache reads, the query's answer, the cache writes. */
  datatype Reads = Reads(get: nat -> bool, query: Option<seq<Contest>>, put: nat -> bool)

  ghost predicate Truthful(s: State, platforms: seq<string>, r: Reads) {
    r.query.Some? ==> IsListing(s, Missed(s.cache, platforms, r.get, |platforms|), r.query.value)
  }

  /** The contests a sync considers and the caches it leaves; none when the query fails. */
  function Assemble(s: State, platforms: seq<string>, r: Reads): (State, Option<seq<Contest>>) {
    var missed := Missed(s.cache, platforms, r.get, |platforms|);
    var hits := Hits(s.cache, platforms, r.get, |platforms|);
    if missed == [] then (s, Some(hits))
    else if r.query.None? then (s, None)
    else (Fills(s, r.query.value, missed, r.put), Some(hits + Gathered(r.query.value, missed)))
  }

  /** Any mix of hits and misses considers every contest the uncached query would return. */
  lemma CachedAssemblyRefinesDirect(s: State, platforms: seq<string>, r: Reads, c: Contest)
    requires Inv(s) && Truthful(s, platforms, r) && Assemble(s, platforms, r).1.Some?
    requires (forall p :: p in platforms ==> p !in s.stale) && Direct(s, platforms, c)
    ensures c in Assemble(s, platforms, r).1.value
  {
    var n := |platforms|;
    var missed := Missed(s.cache, platforms, r.get, n);
    assert platforms[..n] == platforms;
    HitOrMissed(s.cache, platforms, r.get, n, c.platform);
    if c.platform in missed {
      GatheredExact(r.query.value, missed, c);
    } else {
      assert Covers(s, c.platform);
    }
  }

  /** The assembly considers nothing but contests of the selected platforms under their own ids. */
  lemma AssemblyIsSelected(s: State, platforms: seq<string>, r: Reads, c: Contest)
    requires Inv(s) && Truthful(s, platforms, r) && Assemble(s, platforms, r).1.Some?
    requires c in Assemble(s, platforms, r).1.value
    ensures c.platform in platforms && Encoded(c)
  {
    var n := |platforms|;
    var missed := Missed(s.cache, platforms, r.get, n);
    if c in Hits(s.cache, platforms, r.get, n) {
      HitsAreCached(s.cache, platforms, r.get, n, c);
    } else {
      assert platforms[..n] == platforms;
      GatheredExact(r.query.value, missed, c);
      HitOrMissed(s.cache, platforms, r.get, n, c.platform);
      assert Direct(s, missed, c);
    }
  }

  /** With nothing cached the assembly returns exactly what the uncached query would. */
  lemma ColdAssemblyIsDirect(s: State, platforms: seq<string>, r: Reads, c: Contest)
    requires Inv(s) && s.cache == map[] && Truthful(s, platforms, r) && Assemble(s, platforms, r).1.Some?
    ensures c in Assemble(s, platforms, r).1.value <==> Direct(s, platforms, c)
  {
    var n := |platforms|;
    var missed := Missed(s.cache, platforms, r.get, n);
    assert platforms[..n] == platforms;
    assert forall p :: p in platforms ==> Covers(s, p);
    HitOrMissed(s.cache, platforms, r.get, n, c.platform);
    if c in Hits(s.cache, platforms, r.get, n) {
      HitsAreCached(s.cache, platforms, r.get, n, c);
    }
    if missed != [] {
      GatheredExact(r.query.value, missed, c);
    }
    if c in Assemble(s, platforms, r).1.value {
      assert Direct(s, missed, c);
    }
  }

  // ---------- Assembling twice ----------

  /** With every read succeeding, exactly the uncached platforms are missed. */
  lemma {:induction false} MissedExact(cache: map<string, seq<Contest>>, platforms: seq<string>, get: nat -> bool,
                                       n: nat, p: string)
    requires n <= |platforms| && forall i :: get(i)
    ensures p in Missed(cache, platforms, get, n) <==> p in platforms[..n] && p !in cache
  {
    if n > 0 {
      assert platforms[..n] == platforms[..n - 1] + [platforms[n - 1]];
      MissedExact(cache, platforms, get, n - 1, p);
    }
  }

  /** Some write of this platform's list succeeds. */
  predicate Written(missed: seq<string>, put: nat -> bool, p: string) {
    exists i :: 0 <= i < |missed| && missed[i] == p && put(i)
  }

  /** The fills change the lists whose write succeeds, and no other. */
  lemma {:induction false} FillsExact(s: State, listing: seq<Contest>, missed: seq<string>, put: nat -> bool, p: string)
    ensures
      var t := Fills(s, listing, missed, put);
      if Written(missed, put, p) then p in t.cache && t.cache[p] == OfPlatform(listing, p) && p !in t.stale
      else (p in t.cache <==> p in s.cache) && (p in t.cache ==> t.cache[p] == s.cache[p])
  {
    if missed != [] {
      var n := |missed| - 1;
      FillsExact(s, listing, missed[..n], put, p);
      WrittenSnoc(missed, put, p);
    }
  }

  lemma WrittenSnoc(missed: seq<string>, put: nat -> bool, p: string)
    requires missed != []
    ensures
      var n := |missed| - 1;
      Written(missed, put, p) <==> Written(missed[..n], put, p) || (missed[n] == p && put(n))
  {
    var n := |missed| - 1;
    if Written(missed, put, p) {
      var i :| 0 <= i < |missed| && missed[i] == p && put(i);
      assert i < n ==> missed[..n][i] == p;
    }
    if Written(missed[..n], put, p) {
      var i :| 0 <= i < n && missed[..n][i] == p && put(i);
      assert missed[i] == p;
    }
  }

  /** With every read succeeding, a contest is found iff it is in the cached list of a selected platform. */
  lemma HitsExact(cache: map<string, seq<Contest>>, platforms: seq<string>, get: nat -> bool, c: Contest)
    requires forall i :: get(i)
    ensures c in Hits(cache, platforms, get, |platforms|) <==> exists p :: p in platforms && p in cache && c in cache[p]
  {
    var n := |platforms|;
    assert platforms[..n] == platforms;
    if p :| p in platforms && p in cache && c in cache[p] {
      MissedExact(cache, platforms, get, n, p);
      HitOrMissed(cache, platforms, get, n, p);
    }
    if c in Hits(cache, platforms, get, n) {
      HitsAreCached(cache, platforms, get, n, c);
    }
  }

  lemma {:induction false} NothingMissed(cache: map<string, seq<Contest>>, platforms: seq<string>, get: nat -> bool,
                                         n: nat)
    requires n <= |platforms| && (forall i :: get(i)) && forall p :: p in platforms ==> p in cache
    ensures Missed(cache, platforms, get, n) == []
  {
    if n > 0 {
      NothingMissed(cache, platforms, get, n - 1);
    }
  }

  /** Assembled again at once, with the caches serving, the same contests are considered. */
  lemma AssembleAgain(s: State, platforms: seq<string>, io: Reads, io2: Reads, c: Contest)
    requires (forall i :: io.get(i) && io.put(i)) && (forall i :: io2.get(i)) && io.query.Some?
    ensures
      var (s', first) := Assemble(s, platforms, io);
      var second := Assemble(s', platforms, io2).1;
      first.Some? && second.Some? && (c in second.value <==> c in first.value)
  {
    var n := |platforms|;
    assert platforms[..n] == platforms;
    var missed := Missed(s.cache, platforms, io.get, n);
    var cache := Assemble(s, platforms, io).0.cache;
    forall p ensures p in missed <==> p in platforms && p !in s.cache {
      MissedExact(s.cache, platforms, io.get, n, p);
    }
    forall p | p in platforms ensures p in cache && cache[p] == if p in missed then OfPlatform(io.query.value, p)
      else s.cache[p] {
      FillsExact(s, io.query.value, missed, io.put, p);
      assert p in missed ==> Written(missed, io.put, p);
    }
    NothingMissed(cache, platforms, io2.get, n);
    HitsExact(s.cache, platforms, io.get, c);
    HitsExact(cache, platforms, io2.get, c);
    GatheredExact(io.query.value, missed, c);
    forall p ensures c in OfPlatform(io.query.value, p) <==> c in io.query.value && c.platform == p {
      OfPlatformExact(io.query.value, p, c);
    }
  }

  // ---------- Runs ----------

  /** PruneOldData on the contests: past ones go. */
  function PruneOld(s: State, db: Db): State {
    if db.Refused? then s else s.(rows := map id | id in s.rows && s.rows[id].end >= s.now :: s.rows[id])
  }

  /** Pruning takes exactly the contests that have ended, never one that is still to come and ends after it starts. */
  lemma PruneOldTakesEnded(s: State, id: string)
    requires id in s.rows
    ensures
      var t := PruneOld(s, Done);
      && (id !in t.rows <==> s.rows[id].end < s.now) && (id in t.rows ==> t.rows[id] == s.rows[id])
      && (s.rows[id].start <= s.rows[id].end && s.rows[id].start > s.now ==> id in t.rows)
      && t.cache == s.cache && t.now == s.now
  {
  }

  /** Every statement of the system that touches contests, from any worker. DoDrop is an
      invalidation after a prune, or an expiry. */
  datatype Step =
    | DoPrune(p: string, newIds: seq<string>, db: Db)
    | DoSave(p: string, batch: seq<Contest>, db: Db, delOk: bool)
    | DoAssemble(platforms: seq<string>, io: Reads)
    | DoPruneOld(db: Db)
    | DoDrop(p: string)
    | DoTick(now: int)

  ghost predicate Enabled(s: State, step: Step) {
    match step
    case DoSave(p, batch, _, _) => BatchOf(p, batch)
    case DoAssemble(platforms, io) => Truthful(s, platforms, io)
    case DoTick(now) => s.now <= now
    case _ => true
  }

  function Apply(s: State, step: Step): State {
    match step
    case DoPrune(p, ids, db) => Prune(s, p, ids, db)
    case DoSave(p, batch, db, ok) => Save(s, p, batch, db, ok)
    case DoAssemble(platforms, io) => Assemble(s, platforms, io).0
    case DoPruneOld(db) => PruneOld(s, db)
    case DoDrop(p) => Invalidate(s, p, true)
    case DoTick(now) => s.(now := now)
  }

  ghost predicate Valid(s: State, steps: seq<Step>)
    decreases |steps|
  {
    steps != [] ==> Enabled(s, steps[0]) && Valid(Apply(s, steps[0]), steps[1..])
  }

  function Final(s: State, steps: seq<Step>): State
    decreases |steps|
  {
    if steps == [] then s else Final(Apply(s, steps[0]), steps[1..])
  }

  lemma SaveKeepsInv(s: State, p: string, batch: seq<Contest>, db: Db, delOk: bool)
    requires Inv(s) && BatchOf(p, batch)
    ensures Inv(Save(s, p, batch, db, delOk))
  {
    UpsertAllExact(s.rows, p, batch);
    var t := Save(s, p, batch, db, delOk);
    forall q | q !in t.stale ensures Covers(t, q) {
      if q in t.cache && !db.Refused? {
        assert q != p && q !in s.stale && Covers(s, q);
        forall id | id in t.rows && t.rows[id].platform == q ensures id in s.rows && t.rows[id] == s.rows[id] {
          if id in NewIds(batch) {
            LastIsInBatch(batch, id);
          }
        }
      }
      assert db.Refused? ==> Covers(s, q);
    }
  }

  lemma {:induction false} FillsKeepInv(s: State, listing: seq<Contest>, all: seq<string>, missed: seq<string>,
                                        put: nat -> bool)
    requires Inv(s) && IsListing(s, all, listing)
    requires forall p :: p in missed ==> p in all
    ensures Inv(Fills(s, listing, missed, put))
    ensures Fills(s, listing, missed, put).rows == s.rows && Fills(s, listing, missed, put).now == s.now
  {
    if missed != [] {
      var n := |missed| - 1;
      FillsKeepInv(s, listing, all, missed[..n], put);
      FillKeepsInv(s, Fills(s, listing, missed[..n], put), listing, all, missed[n]);
    }
  }

  lemma FillKeepsInv(s: State, t: State, listing: seq<Contest>, all: seq<string>, p: string)
    requires RowsEncoded(s.rows) && Inv(t) && IsListing(s, all, listing) && p in all
    requires t.rows == s.rows && t.now == s.now
    ensures Inv(t.(cache := t.cache[p := OfPlatform(listing, p)], stale := t.stale - {p}))
  {
    var u := t.(cache := t.cache[p := OfPlatform(listing, p)], stale := t.stale - {p});
    forall c ensures c in OfPlatform(listing, p) <==> c in listing && c.platform == p {
      OfPlatformExact(listing, p, c);
    }
    forall c | c in OfPlatform(listing, p) ensures Encoded(c) {
      assert Direct(s, all, c);
    }
    assert Covers(u, p);
    forall q | q !in u.stale && q != p ensures Covers(u, q) {
      assert Covers(t, q);
    }
  }

  lemma AssembleKeepsInv(s: State, platforms: seq<string>, io: Reads)
    requires Inv(s) && Truthful(s, platforms, io)
    ensures Inv(Assemble(s, platforms, io).0)
  {
    var missed := Missed(s.cache, platforms, io.get, |platforms|);
    if io.query.Some? {
      FillsKeepInv(s, io.query.value, missed, missed, io.put);
    }
  }

  /** Taking rows away or letting time pass keeps every cached list complete. */
  lemma ShrinkKeepsInv(s: State, t: State)
    requires Inv(s) && t.cache == s.cache && t.stale == s.stale && s.now <= t.now
    requires forall id :: id in t.rows ==> id in s.rows && t.rows[id] == s.rows[id]
    ensures Inv(t)
  {
    forall p | p !in t.stale ensures Covers(t, p) {
      assert Covers(s, p);
    }
  }

  lemma StepKeepsInv(s: State, step: Step)
    requires Inv(s) && Enabled(s, step)
    ensures Inv(Apply(s, step))
  {
    match step
    case DoPrune(_, _, _) => ShrinkKeepsInv(s, Apply(s, step));
    case DoSave(p, batch, db, ok) => SaveKeepsInv(s, p, batch, db, ok);
    case DoAssemble(platforms, io) => AssembleKeepsInv(s, platforms, io);
    case DoPruneOld(_) => ShrinkKeepsInv(s, Apply(s, step));
    case DoDrop(p) =>
      forall q | q !in Apply(s, step).stale ensures Covers(Apply(s, step), q) {
        assert q != p ==> Covers(s, q);
      }
    case DoTick(_) => ShrinkKeepsInv(s, Apply(s, step));
  }

  /** In every reachable state a cached list holds every stored contest of its platform
      still to come, unless a batch of that platform went without its invalidation. */
  lemma {:induction false} CachesCoverOverRuns(s: State, steps: seq<Step>)
    requires Inv(s) && Valid(s, steps)
    ensures Inv(Final(s, steps))
    decreases |steps|
  {
    if steps != [] {
      StepKeepsInv(s, steps[0]);
      CachesCoverOverRuns(Apply(s, steps[0]), steps[1..]);
    }
  }

  /** An extraction keeps the invariant whichever of its statements fail, and makes a
      platform stale only when its batch took effect without the invalidation. */
  lemma ExtractKeepsInv(s: State, p: string, fetch: Fetch, pruneDb: Db, batchDb: Db, delOk: bool)
    requires Inv(s) && (fetch.Fetched? ==> BatchOf(p, fetch.contests))
    ensures
      var t := Extract(s, p, fetch, pruneDb, batchDb, delOk).0;
      && Inv(t)
      && forall q :: q in t.stale ==> q in s.stale || (q == p && (batchDb.Lost? || (batchDb.Done? && !delOk)))
  {
    if fetch.Fetched? {
      var pruned := Prune(s, p, NewIds(fetch.contests), pruneDb);
      ShrinkKeepsInv(s, pruned);
      SaveKeepsInv(pruned, p, fetch.contests, batchDb, delOk);
    }
  }

  /** The cached list already holds every upcoming contest of the batch as the batch has it. */
  ghost predicate ListHoldsBatch(s: State, p: string, batch: seq<Contest>)
    requires p in s.cache
  {
    forall id :: id in NewIds(batch) && Upcoming(s, Last(batch, id)) ==> Selected(Last(batch, id)) in s.cache[p]
  }

  lemma KeptListCoversIff(s: State, p: string, batch: seq<Contest>, t: State)
    requires Inv(s) && BatchOf(p, batch) && p in s.cache && p !in s.stale
    requires t.cache == s.cache && t.now == s.now && t.rows == UpsertAll(s.rows, batch)
    ensures Covers(t, p) <==> ListHoldsBatch(s, p, batch)
  {
    UpsertAllExact(s.rows, p, batch);
    BatchFacts(s.rows, p, batch);
    assert Covers(s, p);
    if Covers(t, p) {
      forall id | id in NewIds(batch) && Upcoming(s, Last(batch, id)) ensures Selected(Last(batch, id)) in s.cache[p] {
        assert t.rows[id] == Last(batch, id);
      }
    }
    if ListHoldsBatch(s, p, batch) {
      forall id | id in t.rows && t.rows[id].platform == p && Upcoming(t, t.rows[id])
        ensures Selected(t.rows[id]) in t.cache[p] {
        assert t.rows[id] == if id in NewIds(batch) then Last(batch, id) else s.rows[id];
      }
    }
  }

  /** After a batch took effect the cached list is complete exactly when its invalidation happened or
      the list already held every upcoming contest of the batch as the batch has it. */
  lemma SkippedInvalidationHidesContests(s: State, p: string, batch: seq<Contest>, db: Db, delOk: bool)
    requires Inv(s) && BatchOf(p, batch) && p in s.cache && p !in s.stale && !db.Refused?
    ensures Covers(Save(s, p, batch, db, delOk), p) <==> (db.Done? && delOk) || ListHoldsBatch(s, p, batch)
  {
    if !(db.Done? && delOk) {
      KeptListCoversIff(s, p, batch, Save(s, p, batch, db, delOk));
    }
  }

  /** A contest pruned by an extraction whose batch then fails stays in the cached list without a row. */
  lemma PrunedContestStaysCached(s: State, p: string, batch: seq<Contest>, delOk: bool, id: string)
    requires Inv(s) && p in PLATFORMS && batch != [] && p in s.cache && p !in s.stale
    requires id in s.rows && s.rows[id].platform == p && Upcoming(s, s.rows[id]) && id !in NewIds(batch)
    ensures
      var t := Extract(s, p, Fetched(batch), Done, Refused, delOk).0;
      id !in t.rows && p in t.cache && p !in t.stale && Selected(s.rows[id]) in t.cache[p]
  {
    assert Covers(s, p);
  }

  // ---------- The code ----------

  ghost predicate Grouped(groups: map<string, seq<Contest>>, listing: seq<Contest>) {
    forall p :: OfPlatform(listing, p) == if p in groups then groups[p] else []
  }

  lemma GroupedSnoc(groups: map<string, seq<Contest>>, listing: seq<Contest>, c: Contest)
    requires Grouped(groups, listing)
    ensures Grouped(groups[c.platform := (if c.platform in groups then groups[c.platform]
            else []) + [c]], listing + [c])
  {
    assert (listing + [c])[..|listing|] == listing;
  }

  method EmptyGroups(missed: seq<string>) returns (groups: map<string, seq<Contest>>)
    ensures forall p :: p in missed ==> p in groups
    ensures Grouped(groups, [])
  {
    groups := map[];
    for i := 0 to |missed|
      invariant forall p :: p in groups ==> groups[p] == []
      invariant forall j :: 0 <= j < i ==> missed[j] in groups
    {
      groups := groups[missed[i] := []];
    }
  }

  /** The rows grouped by platform, starting from an empty list per missed platform. */
  method GroupByPlatform(missed: seq<string>, listing: seq<Contest>) returns (groups: map<string, seq<Contest>>)
    ensures forall p :: p in missed ==> p in groups && groups[p] == OfPlatform(listing, p)
  {
    groups := EmptyGroups(missed);
    for i := 0 to |listing|
      invariant forall p :: p in missed ==> p in groups
      invariant Grouped(groups, listing[..i])
    {
      var c := listing[i];
      GroupedSnoc(groups, listing[..i], c);
      assert listing[..i + 1] == listing[..i] + [c];
      groups := groups[c.platform := (if c.platform in groups then groups[c.platform] else []) + [c]];
    }
    assert listing[..|listing|] == listing;
  }

  method CollectIds(contests: seq<Contest>) returns (newIds: seq<string>)
    ensures newIds == NewIds(contests)
  {
    newIds := [];
    for i := 0 to |contests|
      invariant newIds == NewIds(contests[..i])
    {
      assert contests[..i + 1][..i] == contests[..i];
      newIds := newIds + [contests[i].id];
    }
    assert contests[..|contests|] == contests;
  }

  class Stores {
    var rows: map<string, Contest>
    var cache: map<string, seq<Contest>>
    var now: int
    ghost var stale: set<string>

    ghost function Value(): State
      reads this
    {
      State(rows, cache, now, stale)
    }

    method Delete(p: string, newIds: seq<string>, db: Db)
      modifies this
      ensures Value() == Prune(old(Value()), p, newIds, db)
    {
      if !db.Refused? {
        rows := map id | id in rows && !(rows[id].platform == p && rows[id].start > now
          && rows[id].id !in newIds) :: rows[id];
      }
    }

    /** The batch: one transaction, visible only when it commits. */
    method SendBatch(batch: seq<Contest>, db: Db)
      modifies this
      ensures Value() == if db.Refused? then old(Value()) else old(Value()).(rows := UpsertAll(old(rows), batch))
    {
      var transaction := rows;
      for i := 0 to |batch|
        invariant transaction == UpsertAll(rows, batch[..i])
        invariant Value() == old(Value())
      {
        assert batch[..i + 1][..i] == batch[..i];
        transaction := Upsert(transaction, batch[i]);
      }
      assert batch[..|batch|] == batch;
      if !db.Refused? {
        rows := transaction;
      }
    }

    method Del(p: string, ok: bool)
      modifies this
      ensures Value() == Invalidate(old(Value()), p, ok)
    {
      if ok {
        cache := cache - {p};
        stale := stale - {p};
      } else if p in cache {
        stale := stale + {p};
      }
    }

    method HandleExtraction(p: string, fetch: Fetch, pruneDb: Db, batchDb: Db, delOk: bool) returns (err: bool)
      requires Inv(Value()) && (fetch.Fetched? ==> BatchOf(p, fetch.contests))
      modifies this
      ensures (Value(), err) == Extract(old(Value()), p, fetch, pruneDb, batchDb, delOk)
      ensures Inv(Value())
      ensures !err && pruneDb.Done? && fetch.Fetched? && fetch.contests != [] ==>
              Extracted(old(Value()), p, fetch.contests, rows)
    {
      ghost var s := Value();
      ExtractKeepsInv(s, p, fetch, pruneDb, batchDb, delOk);
      if p !in PLATFORMS {
        return true;
      }
      match fetch
      case Failed =>
        return true;
      case Fetched(contests) =>
        if contests == [] {
          return false;
        }
        ExtractionExact(s, p, contests, delOk);
        var newIds := CollectIds(contests);
        Delete(p, newIds, pruneDb);
        SendBatch(contests, batchDb);
        if batchDb.Done? {
          Del(p, delOk);
          return false;
        }
        // The error return skips the invalidation.
        if batchDb.Lost? && p in cache {
          stale := stale + {p};
        }
        return true;
    }

    /** The cache reads of the assembly. */
    method ReadCaches(platforms: seq<string>, get: nat -> bool) returns (contests: seq<Contest>, missed: seq<string>)
      ensures contests == Hits(cache, platforms, get, |platforms|)
      ensures missed == Missed(cache, platforms, get, |platforms|)
    {
      contests, missed := [], [];
      for i := 0 to |platforms|
        invariant contests == Hits(cache, platforms, get, i)
        invariant missed == Missed(cache, platforms, get, i)
      {
        if get(i) && platforms[i] in cache {
          contests := contests + cache[platforms[i]];
        } else {
          missed := missed + [platforms[i]];
        }
      }
    }

    /** The writes of the missed platforms' lists, which also collect their contests. */
    method FillCaches(missed: seq<string>, listing: seq<Contest>, put: nat -> bool) returns (contests: seq<Contest>)
      modifies this
      ensures Value() == Fills(old(Value()), listing, missed, put)
      ensures contests == Gathered(listing, missed)
    {
      ghost var s := Value();
      var groups := GroupByPlatform(missed, listing);
      contests := [];
      for i := 0 to |missed|
        invariant Value() == Fills(s, listing, missed[..i], put)
        invariant contests == Gathered(listing, missed[..i])
      {
        assert missed[..i + 1][..i] == missed[..i];
        var p := missed[i];
        if put(i) {
          cache := cache[p := groups[p]];
          stale := stale - {p};
        }
        contests := contests + groups[p];
      }
      assert missed[..|missed|] == missed;
    }
  }
}
