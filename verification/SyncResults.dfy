/** What any sequence of synchronization runs keeps: each record tried once ever, honest counts, a cursor
    that never goes back. */
module SyncResults {
  import opened Strings
  import opened Domain
  import opened StoreModel
  import opened Ingest
  import opened Sync
  import opened IngestSafety

  // -------------------------------------------------------- records, once each

  /** The records of a batch that enter the retry loop, in order. */
  function Tried(up: Upstream, b: Batch, items: seq<LyRecord>, max: int): seq<string> {
    if items == [] then []
    else
      var rest, last := items[..|items| - 1], items[|items| - 1];
      Tried(up, b, rest, max) + (if RecordID(last) in SyncAll(up, b, rest, max).st.pushed then [] else [RecordID(last)])
  }

  /** Attempts lie between 1 and min(2, max); only a limit of one attempt leaves a failure, and a second
      attempt leaves no event. A limit below one records a failure nobody counts. */
  predicate RecordOk(pe: PushedEvent, max: int) {
    if max <= 0 then pe.attempts == 0 && pe.status == "FAILED" && !pe.failed && pe.deepID == NO_ID
    else
      && 1 <= pe.attempts <= 2 && pe.attempts <= max
      && (pe.status == "SUCCESS" || pe.status == "FAILED")
      && (pe.failed <==> pe.status == "FAILED")
      && (pe.failed ==> max == 1)
      && (pe.attempts == 2 ==> pe.deepID == NO_ID)
  }

  function Successes(ids: seq<string>, pushed: map<string, PushedEvent>): nat {
    if ids == [] then 0
    else
      var id := ids[|ids| - 1];
      Successes(ids[..|ids| - 1], pushed) + (if id in pushed && pushed[id].status == "SUCCESS" then 1 else 0)
  }

  lemma {:induction false} SuccessesStay(ids: seq<string>, pushed: map<string, PushedEvent>, pe: PushedEvent)
    requires pe.recordID !in ids
    ensures Successes(ids, pushed[pe.recordID := pe]) == Successes(ids, pushed)
  {
    if ids != [] { SuccessesStay(ids[..|ids| - 1], pushed, pe); }
  }

  lemma RetriedRecord(up: Upstream, st: Store, asked: nat, ly: LyRecord, max: int)
    ensures var (st', asked', pe) := Retry(up, st, asked, ly, NewRecord(ly), 0, max);
            RecordOk(pe, max) && pe.recordID == RecordID(ly) && st'.pushed == st.pushed && st'.cursors == st.cursors
  {
    RetryEnds(up, st, asked, ly, max);
    RetryKeeps(up, st, asked, ly, max);
    hide Process, Retry, RecordID;
  }

  ghost predicate BatchOk(b: Batch, b': Batch, tried: seq<string>, max: int) {
    && Distinct(tried) && (forall id :: id in tried ==> id !in b.st.pushed)
    && (forall id :: id in b'.st.pushed <==> id in b.st.pushed || id in tried)
    && (forall id :: id in b.st.pushed ==> b'.st.pushed[id] == b.st.pushed[id])
    && (forall id :: id in tried ==> RecordOk(b'.st.pushed[id], max))
    && b'.st.cursors == b.st.cursors
    && b'.pushed == b.pushed + (if max <= 0 then |tried| else Successes(tried, b'.st.pushed))
    && b'.pushed + b'.failed == b.pushed + b.failed + |tried|
  }

  lemma {:induction false} OneMoreSuccess(ids: seq<string>, pushed: map<string, PushedEvent>, pe: PushedEvent)
    requires pe.recordID !in ids
    ensures Successes(ids + [pe.recordID], pushed[pe.recordID := pe]) == Successes(ids, pushed) + (if pe.status == "SUCCESS" then 1 else 0)
  {
    SuccessesStay(ids, pushed, pe);
    assert (ids + [pe.recordID])[..|ids|] == ids;
  }

  lemma {:induction false} DistinctSnoc<T>(s: seq<T>, x: T)
    requires Distinct(s) && x !in s
    ensures Distinct(s + [x])
  {
  }

  lemma {:induction false} OneMoreTried(b: Batch, b': Batch, b'': Batch, tried: seq<string>, pe: PushedEvent, max: int)
    requires BatchOk(b, b', tried, max) && pe.recordID !in b'.st.pushed && RecordOk(pe, max)
    requires b''.st.pushed == b'.st.pushed[pe.recordID := pe] && b''.st.cursors == b'.st.cursors
    requires b''.pushed == b'.pushed + (if pe.failed then 0 else 1) && b''.failed == b'.failed + (if pe.failed then 1 else 0)
    ensures BatchOk(b, b'', tried + [pe.recordID], max)
  {
    assert max >= 1 ==> (pe.failed <==> pe.status != "SUCCESS");
    assert max <= 0 ==> !pe.failed;
    hide RecordOk, Successes, Distinct;
    OneMoreSuccess(tried, b'.st.pushed, pe);
    DistinctSnoc(tried, pe.recordID);
  }

  lemma {:induction false} SyncOneKeeps(up: Upstream, b: Batch, b': Batch, tried: seq<string>, ly: LyRecord, max: int)
    requires BatchOk(b, b', tried, max)
    ensures BatchOk(b, SyncOne(up, b', ly, max), tried + (if RecordID(ly) in b'.st.pushed then [] else [RecordID(ly)]), max)
  {
    RetriedRecord(up, b'.st, b'.asked, ly, max);
    hide Retry, RecordID, RecordOk, Less;
    if RecordID(ly) in b'.st.pushed {
      assert tried + [] == tried;
    } else {
      OneMoreTried(b, b', SyncOne(up, b', ly, max), tried, Retry(up, b'.st, b'.asked, ly, NewRecord(ly), 0, max).2, max);
      hide BatchOk;
    }
  }

  /** Over a batch: every record not seen before enters the retry loop once, nothing recorded earlier
      changes, and the counts are those of the records saved. */
  lemma {:induction false} BatchKeeps(up: Upstream, b: Batch, items: seq<LyRecord>, max: int)
    ensures BatchOk(b, SyncAll(up, b, items, max), Tried(up, b, items, max), max)
  {
    if items != [] {
      var rest, last := items[..|items| - 1], items[|items| - 1];
      BatchKeeps(up, b, rest, max);
      SyncOneKeeps(up, b, SyncAll(up, b, rest, max), Tried(up, b, rest, max), last, max);
      hide SyncOne, BatchOk, RecordID;
    }
  }

  /** fetched = pushed + failed + skipped. */
  lemma {:induction false} EveryItemCounted(up: Upstream, b: Batch, items: seq<LyRecord>, max: int)
    ensures var b' := SyncAll(up, b, items, max);
            b'.pushed + b'.failed + b'.skipped == b.pushed + b.failed + b.skipped + |items|
  {
    hide Retry, RecordID;
    if items != [] { EveryItemCounted(up, b, items[..|items| - 1], max); }
  }

  /** With two attempts nothing is ever counted as failed. */
  lemma {:induction false} NothingFailsTwice(up: Upstream, b: Batch, items: seq<LyRecord>, max: int)
    requires max >= 2
    ensures SyncAll(up, b, items, max).failed == b.failed
  {
    if items != [] {
      var rest, last := items[..|items| - 1], items[|items| - 1];
      NothingFailsTwice(up, b, rest, max);
      var b1 := SyncAll(up, b, rest, max);
      RetriedRecord(up, b1.st, b1.asked, last, max);
      hide Retry, RecordID;
    }
  }

  // ------------------------------------------------------------------- the cursor

  /** `newest` is the greatest of `since` and the times of the items that have one. */
  ghost predicate Newest(since: string, items: seq<LyRecord>, newest: string) {
    && !Less(newest, since)
    && (forall i :: 0 <= i < |items| && items[i].time != "" ==> !Less(newest, items[i].time))
    && (newest == since || exists i :: 0 <= i < |items| && items[i].time == newest)
  }

  lemma {:induction false} NewestGrows(since: string, rest: seq<LyRecord>, newest: string, ly: LyRecord)
    requires Newest(since, rest, newest)
    ensures Newest(since, rest + [ly], if ly.time != "" && Less(newest, ly.time) then ly.time else newest)
  {
    var all := rest + [ly];
    assert all[|rest|] == ly;
    if ly.time != "" && Less(newest, ly.time) {
      LessTotal(newest, ly.time);
      NotLessTransitive(ly.time, newest, since);
      forall i | 0 <= i < |all| && all[i].time != "" ensures !Less(ly.time, all[i].time) {
        if i < |rest| { NotLessTransitive(ly.time, newest, rest[i].time); } else { LessTotal(ly.time, ly.time); }
      }
    } else {
      hide Less;
      forall i | 0 <= i < |all| && all[i].time != "" ensures !Less(newest, all[i].time) {
        if i < |rest| { assert all[i] == rest[i]; }
      }
      if newest != since {
        var i :| 0 <= i < |rest| && rest[i].time == newest;
        assert all[i].time == newest;
      }
    }
  }

  lemma NotLessTransitive(s: string, t: string, u: string)
    requires !Less(s, t) && !Less(t, u)
    ensures !Less(s, u)
  {
    LessTotal(s, t);
    LessTotal(t, u);
    LessTotal(s, u);
    hide Less;
    if Less(s, u) && Less(t, s) { LessTransitive(t, s, u); }
  }

  lemma {:induction false} NewestIsGreatest(up: Upstream, b: Batch, items: seq<LyRecord>, max: int)
    ensures Newest(b.newest, items, SyncAll(up, b, items, max).newest)
  {
    hide Retry, RecordID, Less, Newest;
    if items == [] {
      NewestStarts(b.newest);
    } else {
      var rest, last := items[..|items| - 1], items[|items| - 1];
      NewestIsGreatest(up, b, rest, max);
      NewestGrows(b.newest, rest, SyncAll(up, b, rest, max).newest, last);
      assert rest + [last] == items;
    }
  }

  lemma NewestStarts(since: string)
    ensures Newest(since, [], since)
  {
    LessTotal(since, since);
  }

  /** A failed fetch changes nothing; a run that fetched leaves the cursor at the greatest time. */
  lemma {:induction false} RunMovesCursor(up: Upstream, st: Store, asked: nat, round: Round)
    ensures var st' := OneRun(up, st, asked, round).st;
            && (round.fetched.None? ==> st' == st)
            && (round.fetched.Some? ==> Newest(Since(st, round.lookback), round.fetched.value, GetCursor(st', CURSOR)))
  {
    hide Newest;
    match round.fetched
    case None =>
    case Some(items) => NewestIsGreatest(up, Batch(st, asked, 0, 0, 0, Since(st, round.lookback)), items, round.max);
  }

  /** The cursor never goes back, whatever the runs. */
  lemma {:induction false} CursorNeverGoesBack(up: Upstream, st: Store, asked: nat, rounds: seq<Round>)
    ensures !Less(GetCursor(Runs(up, st, asked, rounds).0, CURSOR), GetCursor(st, CURSOR))
  {
    hide OneRun;
    if rounds == [] {
      LessTotal(GetCursor(st, CURSOR), GetCursor(st, CURSOR));
    } else {
      var (st1, asked1) := Runs(up, st, asked, rounds[..|rounds| - 1]);
      var round := rounds[|rounds| - 1];
      CursorNeverGoesBack(up, st, asked, rounds[..|rounds| - 1]);
      RunMovesCursor(up, st1, asked1, round);
      var cursor, cursor', since := GetCursor(st1, CURSOR), GetCursor(OneRun(up, st1, asked1, round).st, CURSOR), Since(st1, round.lookback);
      assert !Less(since, cursor) by { LessTotal(since, cursor); }
      if round.fetched.Some? { NotLessTransitive(cursor', since, cursor); }
      NotLessTransitive(cursor', cursor, GetCursor(st, CURSOR));
    }
  }

  // ------------------------------------------------------------------ all the runs

  /** The record identifiers that entered the retry loop in run i. */
  function TriedIn(up: Upstream, st: Store, asked: nat, rounds: seq<Round>, i: nat): seq<string>
    requires i < |rounds|
  {
    var (st', asked') := Runs(up, st, asked, rounds[..i]);
    match rounds[i].fetched
    case None => []
    case Some(items) => Tried(up, Batch(st', asked', 0, 0, 0, Since(st', rounds[i].lookback)), items, rounds[i].max)
  }

  /** Every record identifier that entered the retry loop, over all runs. */
  function TriedEver(up: Upstream, st: Store, asked: nat, rounds: seq<Round>): seq<string> {
    if rounds == [] then []
    else TriedEver(up, st, asked, rounds[..|rounds| - 1]) + TriedIn(up, st, asked, rounds, |rounds| - 1)
  }

  lemma {:induction false} DistinctConcat<T>(s: seq<T>, t: seq<T>)
    requires Distinct(s) && Distinct(t) && forall x :: x in t ==> x !in s
    ensures Distinct(s + t)
  {
    forall i, j | 0 <= i < j < |s + t| ensures (s + t)[i] != (s + t)[j] {
      if i < |s| <= j { assert (s + t)[j] in t && (s + t)[i] in s; }
    }
  }

  lemma {:induction false} TriedInFront(up: Upstream, st: Store, asked: nat, rounds: seq<Round>, i: nat)
    requires i < |rounds| - 1
    ensures TriedIn(up, st, asked, rounds, i) == TriedIn(up, st, asked, rounds[..|rounds| - 1], i)
  {
    hide Tried, Runs;
    assert rounds[..|rounds| - 1][..i] == rounds[..i];
  }

  /** What one more run adds to the saved records. */
  lemma {:induction false} RunAdds(up: Upstream, st: Store, asked: nat, rounds: seq<Round>)
    requires rounds != []
    ensures var n := |rounds| - 1;
            var (st1, st', tried) := (Runs(up, st, asked, rounds[..n]).0, Runs(up, st, asked, rounds).0, TriedIn(up, st, asked, rounds, n));
            && Distinct(tried) && (forall id :: id in tried ==> id !in st1.pushed)
            && (forall id :: id in st'.pushed <==> id in st1.pushed || id in tried)
            && (forall id :: id in st1.pushed ==> st'.pushed[id] == st1.pushed[id])
            && (forall id :: id in tried ==> RecordOk(st'.pushed[id], rounds[n].max))
  {
    hide SyncAll, RecordOk, Successes, Tried;
    var n := |rounds| - 1;
    var (st1, asked1) := Runs(up, st, asked, rounds[..n]);
    if rounds[n].fetched.Some? {
      BatchKeeps(up, Batch(st1, asked1, 0, 0, 0, Since(st1, rounds[n].lookback)), rounds[n].fetched.value, rounds[n].max);
    }
  }

  lemma {:induction false} TriedInIsTried(up: Upstream, st: Store, asked: nat, rounds: seq<Round>, i: nat, id: string)
    requires i < |rounds| && id in TriedIn(up, st, asked, rounds, i)
    ensures id in TriedEver(up, st, asked, rounds)
  {
    hide TriedIn;
    if i < |rounds| - 1 {
      TriedInFront(up, st, asked, rounds, i);
      TriedInIsTried(up, st, asked, rounds[..|rounds| - 1], i, id);
    }
  }

  /** Over any sequence of runs a record enters the retry loop at most once, and what was recorded of it
      never changes again. */
  lemma {:induction false} TriedOnceEver(up: Upstream, st: Store, asked: nat, rounds: seq<Round>)
    ensures var st' := Runs(up, st, asked, rounds).0;
            var ids := TriedEver(up, st, asked, rounds);
            && Distinct(ids)
            && (forall id :: id in ids ==> id !in st.pushed)
            && (forall id :: id in st'.pushed <==> id in st.pushed || id in ids)
            && (forall id :: id in st.pushed ==> st'.pushed[id] == st.pushed[id])
  {
    if rounds != [] {
      TriedOnceEver(up, st, asked, rounds[..|rounds| - 1]);
      RunAdds(up, st, asked, rounds);
      DistinctConcat(TriedEver(up, st, asked, rounds[..|rounds| - 1]), TriedIn(up, st, asked, rounds, |rounds| - 1));
      hide Distinct, RecordOk, TriedIn, Runs;
    }
  }

  /** The record of an identifier is forever what the run that tried it saved, with that run's limit. */
  lemma {:induction false} RecordedByItsRun(up: Upstream, st: Store, asked: nat, rounds: seq<Round>, i: nat, id: string)
    requires i < |rounds| && id in TriedIn(up, st, asked, rounds, i)
    ensures var (after, now) := (Runs(up, st, asked, rounds[..i + 1]).0, Runs(up, st, asked, rounds).0);
            id in after.pushed && id in now.pushed && now.pushed[id] == after.pushed[id] && RecordOk(now.pushed[id], rounds[i].max)
  {
    var n := |rounds| - 1;
    RunAdds(up, st, asked, rounds);
    if i < n {
      TriedInFront(up, st, asked, rounds, i);
      RecordedByItsRun(up, st, asked, rounds[..n], i, id);
      assert rounds[..n][..i + 1] == rounds[..i + 1];
    } else {
      assert rounds[..i + 1] == rounds;
    }
    hide RecordOk, Distinct, TriedIn, Runs;
  }

  lemma {:induction false} NoSuccess(ids: seq<string>, pushed: map<string, PushedEvent>)
    requires forall id :: id in ids ==> id in pushed && pushed[id].status == "FAILED"
    ensures Successes(ids, pushed) == 0
  {
    if ids != [] { NoSuccess(ids[..|ids| - 1], pushed); }
  }

  /** The report of a run: every item is counted once, skipped are those seen before, and `pushed` is the
      number of records saved as successes, except that a limit below one counts its failures as pushed. */
  lemma {:induction false} ReportIsHonest(up: Upstream, st: Store, asked: nat, round: Round)
    requires round.fetched.Some?
    ensures var b' := OneRun(up, st, asked, round);
            var tried := Tried(up, Batch(st, asked, 0, 0, 0, Since(st, round.lookback)), round.fetched.value, round.max);
            && b'.pushed + b'.failed + b'.skipped == |round.fetched.value|
            && b'.pushed + b'.failed == |tried|
            && (b'.pushed == Successes(tried, b'.st.pushed) <==> round.max >= 1 || tried == [])
            && (round.max >= 2 ==> b'.failed == 0)
  {
    var b := Batch(st, asked, 0, 0, 0, Since(st, round.lookback));
    EveryItemCounted(up, b, round.fetched.value, round.max);
    BatchKeeps(up, b, round.fetched.value, round.max);
    if round.max >= 2 { NothingFailsTwice(up, b, round.fetched.value, round.max); }
    if round.max <= 0 {
      NoSuccess(Tried(up, b, round.fetched.value, round.max), SyncAll(up, b, round.fetched.value, round.max).st.pushed);
    }
    hide SyncAll, Tried, Successes;
  }

  // -------------------------------------------------------- which records are one

  /** What a record is saved under: its own event identifier or, without one, its key, marked. */
  predicate SavedAs(st: Store, ly: LyRecord) {
    if ly.eventID != "" then ly.eventID in st.pushed else "noid:" + ly.key in st.pushed
  }

  /** Two records the synchronization takes for one, told from their fields: the same event identifier; the same
      key, without identifiers; or an identifier that spells out the other's marked key. */
  predicate SameRecord(a: LyRecord, b: LyRecord) {
    || (a.eventID != "" && a.eventID == b.eventID)
    || (a.eventID == "" && b.eventID == "" && a.key == b.key)
    || (a.eventID == "" && b.eventID == "noid:" + a.key)
    || (b.eventID == "" && a.eventID == "noid:" + b.key)
  }

  lemma SameRecordExact(a: LyRecord, b: LyRecord)
    ensures SameRecord(a, b) <==> RecordID(a) == RecordID(b)
  {
    assert ("noid:" + a.key)[5..] == a.key && ("noid:" + b.key)[5..] == b.key;
    assert |"noid:"| == 5;
  }

  lemma SavedAsExact(st: Store, ly: LyRecord)
    ensures SavedAs(st, ly) <==> RecordID(ly) in st.pushed
  {
  }

  ghost predicate Among(items: seq<LyRecord>, id: string) { exists i :: 0 <= i < |items| && RecordID(items[i]) == id }

  lemma {:induction false} AmongSnoc(items: seq<LyRecord>, id: string)
    requires items != []
    ensures Among(items, id) <==> Among(items[..|items| - 1], id) || RecordID(items[|items| - 1]) == id
  {
    hide RecordID;
    var rest := items[..|items| - 1];
    if Among(items, id) {
      var i :| 0 <= i < |items| && RecordID(items[i]) == id;
      if i < |rest| { assert RecordID(rest[i]) == id; }
    }
    if Among(rest, id) {
      var i :| 0 <= i < |rest| && RecordID(rest[i]) == id;
      assert RecordID(items[i]) == id;
    }
  }

  lemma SyncOneSaves(up: Upstream, b: Batch, ly: LyRecord, max: int)
    ensures var b' := SyncOne(up, b, ly, max);
            && (RecordID(ly) in b.st.pushed ==> b' == b.(newest := b'.newest, skipped := b.skipped + 1))
            && (RecordID(ly) !in b.st.pushed ==>
                  && b'.skipped == b.skipped && b'.st.pushed.Keys == b.st.pushed.Keys + {RecordID(ly)}
                  && b'.st.pushed[RecordID(ly)].recordID == RecordID(ly) && b'.st.pushed[RecordID(ly)].key == ly.key)
  {
    RetriedRecord(up, b.st, b.asked, ly, max);
    RetryEnds(up, b.st, b.asked, ly, max);
    hide Retry, RecordID, RecordOk, Less, Process;
  }

  lemma {:induction false} SavedKeys(up: Upstream, b: Batch, items: seq<LyRecord>, max: int, id: string)
    ensures id in SyncAll(up, b, items, max).st.pushed <==> id in b.st.pushed || Among(items, id)
  {
    if items != [] {
      var n := |items| - 1;
      SavedKeys(up, b, items[..n], max, id);
      AmongSnoc(items, id);
      SyncOneSaves(up, SyncAll(up, b, items[..n], max), items[n], max);
      hide SyncOne, RecordID, Among;
    }
  }

  lemma {:induction false} AmongIsSame(items: seq<LyRecord>, j: nat)
    requires j < |items|
    ensures Among(items[..j], RecordID(items[j])) <==> exists i :: 0 <= i < j && SameRecord(items[i], items[j])
  {
    hide RecordID, SameRecord;
    forall i | 0 <= i < j ensures SameRecord(items[i], items[j]) <==> RecordID(items[i]) == RecordID(items[j]) {
      SameRecordExact(items[i], items[j]);
    }
    if Among(items[..j], RecordID(items[j])) {
      var i :| 0 <= i < j && RecordID(items[..j][i]) == RecordID(items[j]);
      assert SameRecord(items[i], items[j]);
    }
    if i :| 0 <= i < j && SameRecord(items[i], items[j]) { assert RecordID(items[..j][i]) == RecordID(items[j]); }
  }

  /** An item of a batch is skipped exactly when it was saved before the batch or an earlier item is the same
      record; then nothing changes but the count and the cursor. Otherwise it is pushed or fails, and is saved
      under its own identifier with its key. */
  lemma {:induction false} SkippedExactly(up: Upstream, b: Batch, items: seq<LyRecord>, max: int, j: nat)
    requires j < |items|
    ensures var (before, after) := (SyncAll(up, b, items[..j], max), SyncAll(up, b, items[..j + 1], max));
            if SavedAs(b.st, items[j]) || (exists i :: 0 <= i < j && SameRecord(items[i], items[j]))
            then after == before.(newest := after.newest, skipped := before.skipped + 1)
            else
              var id := if items[j].eventID != "" then items[j].eventID else "noid:" + items[j].key;
              && after.skipped == before.skipped && id !in before.st.pushed && id in after.st.pushed
              && after.st.pushed[id].recordID == id && after.st.pushed[id].key == items[j].key
  {
    var before := SyncAll(up, b, items[..j], max);
    assert items[..j + 1][..j] == items[..j];
    SavedKeys(up, b, items[..j], max, RecordID(items[j]));
    AmongIsSame(items, j);
    SavedAsExact(b.st, items[j]);
    SyncOneSaves(up, before, items[j], max);
    hide SyncOne, Among, SameRecord, SavedAs;
  }

  /** A record with this identity was fetched in one of the runs. */
  ghost predicate Fetched(rounds: seq<Round>, id: string) {
    exists n :: 0 <= n < |rounds| && rounds[n].fetched.Some? && Among(rounds[n].fetched.value, id)
  }

  lemma {:induction false} FetchedSnoc(rounds: seq<Round>, id: string)
    requires rounds != []
    ensures var last := rounds[|rounds| - 1];
            Fetched(rounds, id) <==> Fetched(rounds[..|rounds| - 1], id) || (last.fetched.Some? && Among(last.fetched.value, id))
  {
    hide Among;
    var rest := rounds[..|rounds| - 1];
    if Fetched(rounds, id) {
      var n :| 0 <= n < |rounds| && rounds[n].fetched.Some? && Among(rounds[n].fetched.value, id);
      if n < |rest| { assert rest[n].fetched.Some? && Among(rest[n].fetched.value, id); }
    }
    if Fetched(rest, id) {
      var n :| 0 <= n < |rest| && rest[n].fetched.Some? && Among(rest[n].fetched.value, id);
      assert rounds[n].fetched.Some? && Among(rounds[n].fetched.value, id);
    }
  }

  lemma {:induction false} RunsSave(up: Upstream, st: Store, asked: nat, rounds: seq<Round>, id: string)
    ensures id in Runs(up, st, asked, rounds).0.pushed <==> id in st.pushed || Fetched(rounds, id)
  {
    if rounds != [] {
      var n := |rounds| - 1;
      RunsSave(up, st, asked, rounds[..n], id);
      FetchedSnoc(rounds, id);
      var (st1, asked1) := Runs(up, st, asked, rounds[..n]);
      if rounds[n].fetched.Some? {
        SavedKeys(up, Batch(st1, asked1, 0, 0, 0, Since(st1, rounds[n].lookback)), rounds[n].fetched.value, rounds[n].max, id);
      }
      hide SyncAll, Fetched, Among;
    }
  }

  /** An earlier run fetched the same record. */
  ghost predicate FetchedBefore(rounds: seq<Round>, ly: LyRecord) {
    exists n, i :: 0 <= n < |rounds| && rounds[n].fetched.Some? && 0 <= i < |rounds[n].fetched.value| && SameRecord(rounds[n].fetched.value[i], ly)
  }

  lemma {:induction false} FetchedIsSame(rounds: seq<Round>, ly: LyRecord)
    ensures Fetched(rounds, RecordID(ly)) <==> FetchedBefore(rounds, ly)
  {
    hide RecordID, SameRecord;
    forall x: LyRecord ensures SameRecord(x, ly) <==> RecordID(x) == RecordID(ly) { SameRecordExact(x, ly); }
    if Fetched(rounds, RecordID(ly)) {
      var n :| 0 <= n < |rounds| && rounds[n].fetched.Some? && Among(rounds[n].fetched.value, RecordID(ly));
      var i :| 0 <= i < |rounds[n].fetched.value| && RecordID(rounds[n].fetched.value[i]) == RecordID(ly);
      assert SameRecord(rounds[n].fetched.value[i], ly);
    }
    if FetchedBefore(rounds, ly) {
      var n, i :| 0 <= n < |rounds| && rounds[n].fetched.Some? && 0 <= i < |rounds[n].fetched.value| && SameRecord(rounds[n].fetched.value[i], ly);
      assert Among(rounds[n].fetched.value, RecordID(ly));
    }
  }

  /** Over any runs: whether a record is taken for one saved already is decided by the records fetched before, in
      this run or an earlier one, and by what was saved at the start, whatever became of them. */
  lemma {:induction false} KnownExactly(up: Upstream, st: Store, asked: nat, rounds: seq<Round>, ly: LyRecord)
    ensures SavedAs(Runs(up, st, asked, rounds).0, ly) <==> SavedAs(st, ly) || FetchedBefore(rounds, ly)
  {
    RunsSave(up, st, asked, rounds, RecordID(ly));
    FetchedIsSame(rounds, ly);
    SavedAsExact(st, ly);
    SavedAsExact(Runs(up, st, asked, rounds).0, ly);
    hide Runs, SavedAs, Fetched, FetchedBefore, RecordID;
  }

  /** The cursor a run saves, by name; no other cursor is touched. */
  lemma {:induction false} OneCursor(up: Upstream, st: Store, asked: nat, round: Round)
    ensures var b := OneRun(up, st, asked, round);
            b.st.cursors == if round.fetched.Some? then st.cursors["flowshadow_events" := b.newest] else st.cursors
  {
    if round.fetched.Some? {
      BatchKeeps(up, Batch(st, asked, 0, 0, 0, Since(st, round.lookback)), round.fetched.value, round.max);
    }
    hide SyncAll, Tried, RecordOk, Successes;
  }

  // ------------------------------------------------------- a success with no event

  /** Every binding that is not empty names an event, as IngestSafety proves of every reachable store. */
  ghost predicate Bindings(st: Store) {
    NO_ID !in st.events && forall fp :: BoundID(st, fp) != NO_ID ==> BoundID(st, fp) in st.events
  }

  lemma {:induction false} ReachableBindings(w: World, labels: seq<Label>)
    requires Ingest.Initial(w)
    ensures Bindings(Ingest.Execute(false, w, labels).st)
  {
    hide Ingest.Execute, IngestSafety.TriedOnce, IngestSafety.AnswersOk;
    IngestSafety.ReachableInv(false, w, labels);
    forall fp | BoundID(Ingest.Execute(false, w, labels).st, fp) != NO_ID
      ensures BoundID(Ingest.Execute(false, w, labels).st, fp) in Ingest.Execute(false, w, labels).st.events
    {
      BindingsNameEvents(w, labels, fp);
    }
  }

  /** Whether a record saved as a success has an event is decided beforehand, whatever the retry limit: by the
      binding if its fingerprint is known, and otherwise by whether its identifier is free. */
  lemma SuccessHasEvent(st: Store, asked: nat, ly: LyRecord, max: int)
    requires Bindings(st)
    ensures var (st', _, pe) := Retry(Off, st, asked, ly, NewRecord(ly), 0, max);
            var free := LocalEvent(ly).eventID !in st.events;
            && (pe.status == "SUCCESS" <==> max >= 2 || (max == 1 && (ly.fp in st.eventMaps || free)))
            && (pe.status == "SUCCESS" ==>
                  (pe.deepID in st'.events <==> if ly.fp in st.eventMaps then BoundID(st, ly.fp) != NO_ID else free))
  {
    RetryEnds(Off, st, asked, ly, max);
    ProcessEnds(Off, st, asked, ly);
    LocalEventIsNamed(ly);
    hide Retry, Process, LocalEvent, MessageRow, Notification, RecordID, Drew;
    var e := LocalEvent(ly);
    if ly.fp !in st.eventMaps && e.eventID !in st.events {
      assert e.eventID in CreateEvent(ReserveFingerprint(st, ly.fp), e).events;
      hide EventRow, CreateEvent;
    }
  }

  /** A record whose identifier is taken: the first attempt fails after reserving, the second is told
      "duplicate", and the record counts as pushed although nothing was created for it. */
  lemma SuccessWithoutEvent(ly: LyRecord, other: Event)
    requires ly.eventID != "" && other.eventID == Text(ly.eventID)
    ensures var st := CreateEvent(EMPTY_STORE, other);
            var (st', _, pe) := Retry(Off, st, 0, ly, NewRecord(ly), 0, 2);
            && pe.status == "SUCCESS" && pe.attempts == 2 && pe.deepID == NO_ID
            && st'.events == st.events && BoundID(st', ly.fp) == NO_ID
  {
    var st := CreateEvent(EMPTY_STORE, other);
    assert Text(ly.eventID) in st.events;
    RetryEnds(Off, st, 0, ly, 2);
    ProcessEnds(Off, st, 0, ly);
    hide Retry, Process, MessageRow, Notification, RecordID, Drew, CreateEvent, EventRow;
    assert LocalEvent(ly).eventID == Text(ly.eventID);
    assert ly.fp !in st.eventMaps;
  }
}
