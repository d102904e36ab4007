/** What the append-only trigger lets through: the first attempt at a package none of which is stored yet. */
module ActivityTrigger {
  import opened Common
  import opened ActivityChain
  import opened ActivityStorage
  import opened ActivityLog
  import opened ActivityLogSafety
  import opened ActivitySchedule

  /** No other traffic, and every call answered. */
  function Quiet(): Schedule {
    (attempt, call) => Moment([], Answered)
  }

  /** From item n on, every item can be built, none is stored, and no two are the same row. */
  ghost predicate ItemsFresh(db: Db, job: Job, n: nat) {
    && (forall i :: n <= i < |job.items| ==> job.items[i].buildable && ItemKey(0, 1, job, i) !in db.related)
    && (forall i, j :: n <= i < j < |job.items| ==> ItemKey(0, 1, job, i) != ItemKey(0, 1, job, j))
  }

  /** Nothing of the package is stored, and all of it can be. */
  ghost predicate FreshPackage(lib: Library, db: Db, job: Job) {
    && (job.interaction.Some? ==> job.interaction.value.id !in db.interactions)
    && Insertable(lib, job.record) && !IdStored(lib, db.rows, job.record)
    && ItemsFresh(db, job, 0)
  }

  /** A doomed writer is never accepted on its own either. */
  lemma DoomedAlone(lib: Library, db: Db, writer: Writer)
    requires TableOk(db.rows) && Doomed(lib, db, writer) && (writer.phase.Ensuring? || writer.phase.Rejected?)
    ensures !Drive(lib, true, Quiet(), db, writer).1.phase.Accepted?
  {
    var s := State(db, [writer], {});
    var events := DriveIsRun(lib, true, Quiet(), s);
    TriggerDefeatsRetry(lib, s, events, 0);
  }

  lemma ItemsFreshUnfolds(db: Db, job: Job, n: nat)
    requires n < |job.items|
    ensures var key := ItemKey(0, 1, job, n);
      ItemsFresh(db, job, n) <==>
        && job.items[n].buildable && key !in db.related
        && ItemsFresh(db.(related := db.related[key := job.items[n].content]), job, n + 1)
  {
    var key := ItemKey(0, 1, job, n);
    var later := db.(related := db.related[key := job.items[n].content]);
    if job.items[n].buildable && key !in db.related && ItemsFresh(later, job, n + 1) {
      forall i | n <= i < |job.items|
        ensures job.items[i].buildable && ItemKey(0, 1, job, i) !in db.related
      {
        if i > n {
          assert ItemKey(0, 1, job, i) !in later.related;
        }
      }
      forall i, j | n <= i < j < |job.items|
        ensures ItemKey(0, 1, job, i) != ItemKey(0, 1, job, j)
      {
        if i == n {
          assert ItemKey(0, 1, job, j) !in later.related;
        }
      }
    }
  }

  /** One item, undisturbed: stored if it can be built and its key is new; otherwise the attempt fails. */
  lemma ItemAlone(lib: Library, db: Db, job: Job, n: nat)
    requires n < |job.items|
    ensures var item, key := job.items[n], ItemKey(0, 1, job, n);
      Drive(lib, true, Quiet(), db, Related(job, 1, n))
        == if item.buildable && key !in db.related
           then Drive(lib, true, Quiet(), db.(related := db.related[key := item.content]), Related(job, 1, n + 1))
           else Drive(lib, true, Quiet(), db, Failed(job, 1))
  {
    if job.items[n].buildable {
      WriteTurn(lib, true, Quiet(), db, Related(job, 1, n),
        RelatedWrite(ItemKey(0, 1, job, n), job.items[n].content));
    } else {
      QuietTurns(lib, true, Quiet(), db, job, 1);
    }
  }

  /** Past its row, the package is accepted exactly when the rest of its items is fresh. */
  lemma {:induction false} ItemsIff(lib: Library, db: Db, job: Job, n: nat)
    requires TableOk(db.rows) && IdStored(lib, db.rows, job.record) && n <= |job.items|
    ensures Drive(lib, true, Quiet(), db, Related(job, 1, n)).1.phase.Accepted? <==> ItemsFresh(db, job, n)
    decreases |job.items| - n
  {
    if n < |job.items| {
      ItemsFreshUnfolds(db, job, n);
      ItemAlone(lib, db, job, n);
      DoomedAlone(lib, db, Failed(job, 1));
      var key := ItemKey(0, 1, job, n);
      if job.items[n].buildable && key !in db.related {
        ItemsIff(lib, db.(related := db.related[key := job.items[n].content]), job, n + 1);
      }
    }
  }

  /** With the activity absent and insertable, a quiet attempt stores it and goes on to its items. */
  lemma InsertAlone(lib: Library, db: Db, job: Job) returns (after: Db)
    requires TableOk(db.rows) && Insertable(lib, job.record) && !IdStored(lib, db.rows, job.record)
    ensures TableOk(after.rows) && IdStored(lib, after.rows, job.record) && after.related == db.related
    ensures Drive(lib, true, Quiet(), db, Writer(job, ReadingHead, 1))
      == Drive(lib, true, Quiet(), after, Related(job, 1, 0))
  {
    var row := Chained(lib, job.record, HeadOf(db.rows, ChainKeyFor(job.record)));
    ChainedIsPending(lib, db.rows, job.record);
    FreeMeansNext(db.rows, row);
    FindIsMember(db.rows, Get(StoredRecord(lib, job.record), ActivityId));
    InsertKeeps(lib, true, db.rows, row);
    var stored := StoredRow(lib, row);
    after := db.(rows := db.rows + [stored]);
    assert after.rows[|db.rows|] == stored && stored in after.rows;
    HeadTurn(lib, true, Quiet(), db, job, 1);
    WriteTurn(lib, true, Quiet(), db, Writer(job, Inserting(row), 1), ActivityWrite(row));
  }

  /** The interaction is stored if there is one; the rest of the database is as before. */
  lemma EnsureAlone(lib: Library, db: Db, job: Job) returns (after: Db)
    requires job.interaction.Some? ==> job.interaction.value.id !in db.interactions
    ensures after == db.(interactions := after.interactions)
    ensures Drive(lib, true, Quiet(), db, Writer(job, Ensuring, 1))
      == Drive(lib, true, Quiet(), after, Writer(job, ReadingHead, 1))
  {
    after := db;
    QuietTurns(lib, true, Quiet(), db, job, 1);
    if job.interaction.Some? {
      var interaction := job.interaction.value;
      after := db.(interactions := db.interactions[interaction.id := interaction.content]);
      WriteTurn(lib, true, Quiet(), db, Writer(job, Ensuring, 1), InteractionWrite(interaction));
    }
  }

  /**
    With the trigger on and nothing going wrong, a package is accepted if and only if none of it was stored
    before: not its interaction, not its activity id, not one of its items.
   */
  lemma TriggerAcceptsFresh(lib: Library, db: Db, job: Job)
    requires TableOk(db.rows)
    ensures Drive(lib, true, Quiet(), db, Writer(job, Ensuring, 1)).1.phase.Accepted? <==> FreshPackage(lib, db, job)
  {
    var writer := Writer(job, Ensuring, 1);
    if Doomed(lib, db, writer) {
      DoomedAlone(lib, db, writer);
    } else {
      var ensured := EnsureAlone(lib, db, job);
      var inserted := InsertAlone(lib, ensured, job);
      ItemsIff(lib, inserted, job, 0);
    }
  }
}
