/** A race with the append-only trigger on: the bound holds up to the activity's first commit. */
module ActivityTriggerRace {
  import opened Common
  import opened ActivityChain
  import opened ActivityStorage
  import opened ActivityLog
  import opened ActivityLogSafety
  import opened ActivityLogContention

  /** A writer with no interaction row to rewrite, whose activity nobody has stored yet. */
  ghost predicate Unhindered(lib: Library, db: Db, writer: Writer) {
    writer.job.interaction.None? && !IdStored(lib, db.rows, writer.job.record)
  }

  /** So far it has only failed by losing a call, or by a row that was committed to its chain meanwhile. */
  ghost predicate Charged(lib: Library, s0: State, db: Db, writer: Writer, losses: nat) {
    var key := ChainKeyFor(writer.job.record);
    && (Unhindered(lib, db, writer)
      ==> Failures(writer) + |ChainRows(s0.db.rows, key)| <= losses + Seen(db.rows, writer))
    && (writer.phase.Rejected? ==> writer.attempt >= writer.job.maxAttempts)
  }

  lemma GrowthKeepsCharge(lib: Library, s0: State, a: Db, b: Db, writer: Writer, losses: nat)
    requires Grows(a, b) && Charged(lib, s0, a, writer, losses)
    ensures Charged(lib, s0, b, writer, losses)
  {
    ChainRowsGrow(a.rows, b.rows, ChainKeyFor(writer.job.record));
    if IdStored(lib, a.rows, writer.job.record) {
      IdStaysStored(lib, a.rows, b.rows, writer.job.record);
    }
  }

  /** While its activity is not stored, a writer is not past its insert, and its rows are new to the database. */
  lemma UnhinderedPhase(lib: Library, db: Db, w: nat, writer: Writer)
    requires WriterOk(lib, db, w, writer) && Unhindered(lib, db, writer)
    ensures !writer.phase.Relating? && !writer.phase.Accepted?
    ensures NextWrite(w, writer).Some? <==> writer.phase.Inserting?
  {
    if RecordStored(lib, db.rows, writer.job.record) {
      StoredHasId(lib, db.rows, writer.job.record);
    }
  }

  /** A new id is inserted, unless its position is taken, and then the chain has outgrown what was seen. */
  lemma InsertCharged(lib: Library, want: Wanted, s0: State, db: Db, w: nat, writer: Writer, losses: nat)
    requires TableOk(db.rows) && WriterOk(lib, db, w, writer) && JobAgrees(lib, want, w, writer.job)
    requires Charged(lib, s0, db, writer, losses) && Unhindered(lib, db, writer) && writer.phase.Inserting?
    ensures var effect := Stepped(lib, true, db, w, writer, Acknowledged);
      Charged(lib, s0, effect.db, effect.writer, losses)
  {
    var row := writer.phase.row;
    FindIsMember(db.rows, Get(StoredRecord(lib, row.record), ActivityId));
    FreeMeansNext(db.rows, row);
    var effect := Stepped(lib, true, db, w, writer, Acknowledged);
    if !Occupied(db.rows, row.chainKey, row.chainSeq) {
      assert effect.db.rows == db.rows + [StoredRow(lib, row)];
      assert effect.db.rows[|db.rows|] in effect.db.rows && IdStored(lib, effect.db.rows, writer.job.record);
    }
  }

  /** The moving writer: a lost call is charged to its losses, a taken position to another commit. */
  lemma StepperCharged(lib: Library, want: Wanted, s0: State, db: Db, w: nat, writer: Writer, fate: Fate, losses: nat)
    requires TableOk(db.rows) && WriterOk(lib, db, w, writer) && JobAgrees(lib, want, w, writer.job)
    requires Charged(lib, s0, db, writer, losses)
    ensures var effect := Stepped(lib, true, db, w, writer, fate);
      Charged(lib, s0, effect.db, effect.writer, losses + if fate == Lost then 1 else 0)
  {
    var effect := Stepped(lib, true, db, w, writer, fate);
    EffectOk(lib, true, db, w, writer, fate);
    SteppedJob(lib, true, db, w, writer, fate);
    if !Unhindered(lib, db, writer) {
      if IdStored(lib, db.rows, writer.job.record) {
        IdStaysStored(lib, db.rows, effect.db.rows, writer.job.record);
      }
    } else {
      UnhinderedPhase(lib, db, w, writer);
      if writer.phase.Inserting? && fate == Acknowledged {
        InsertCharged(lib, want, s0, db, w, writer, losses);
      } else {
        WaitingCharged(lib, s0, db, w, writer, fate, losses);
      }
    }
  }

  lemma WaitingCharged(lib: Library, s0: State, db: Db, w: nat, writer: Writer, fate: Fate, losses: nat)
    requires TableOk(db.rows) && WriterOk(lib, db, w, writer) && Unhindered(lib, db, writer)
    requires Charged(lib, s0, db, writer, losses) && !(writer.phase.Inserting? && fate == Acknowledged)
    ensures var effect := Stepped(lib, true, db, w, writer, fate);
      effect.db == db && Charged(lib, s0, db, effect.writer, losses + if fate == Lost then 1 else 0)
  {
    UnhinderedPhase(lib, db, w, writer);
    if writer.phase.Inserting? {
      assert Seen(db.rows, AfterFailure(writer)) == |ChainRows(db.rows, ChainKeyFor(writer.job.record))|;
    } else if writer.phase.ReadingHead? {
      ChainedIsPending(lib, db.rows, writer.job.record);
    }
  }

  ghost predicate TriggerRaceOk(lib: Library, want: Wanted, s0: State, s: State, events: seq<Event>) {
    && RaceDb(lib, want, s0, s)
    && (forall w :: 0 <= w < |s.writers| ==> Charged(lib, s0, s.db, s.writers[w], Losses(events, w)))
    && (forall w :: 0 <= w < |s.writers| ==> Paced(s.writers[w], StepsOf(events, w)))
  }

  lemma TriggerRaceStep(lib: Library, want: Wanted, s0: State, s: State, events: seq<Event>, w: nat)
    requires NoConflicts(lib, want, s0) && events != []
    requires TriggerRaceOk(lib, want, s0, s, events[..|events| - 1]) && w < |s.writers|
    ensures var t := Step(lib, true, s, events[|events| - 1]);
      Charged(lib, s0, t.db, t.writers[w], Losses(events, w)) && Paced(t.writers[w], StepsOf(events, w))
  {
    var e, before := events[|events| - 1], events[..|events| - 1];
    assert Charged(lib, s0, s.db, s.writers[w], Losses(before, w)) && Paced(s.writers[w], StepsOf(before, w));
    if e.Advance? && e.writer == w {
      assert JobAgrees(lib, want, w, s.writers[w].job);
      StepperCharged(lib, want, s0, s.db, w, s.writers[w], e.fate, Losses(before, w));
      StepperPaced(lib, true, s.db, w, s.writers[w], e.fate, StepsOf(before, w));
    } else {
      StepKeeps(lib, true, s, e);
      GrowthKeepsCharge(lib, s0, s.db, Step(lib, true, s, e).db, s.writers[w], Losses(before, w));
    }
  }

  lemma {:induction false} TriggerRace(lib: Library, want: Wanted, s0: State, events: seq<Event>)
    requires Initial(s0) && NoConflicts(lib, want, s0)
    ensures TriggerRaceOk(lib, want, s0, Run(lib, true, s0, events), events)
  {
    if events == [] {
      RaceStarts(lib, want, s0);
    } else {
      var n := |events| - 1;
      var s := Run(lib, true, s0, events[..n]);
      TriggerRace(lib, want, s0, events[..n]);
      RaceStepDb(lib, true, want, s0, s, events[n]);
      var t := Run(lib, true, s0, events);
      forall w | 0 <= w < |t.writers|
        ensures Charged(lib, s0, t.db, t.writers[w], Losses(events, w))
        ensures Paced(t.writers[w], StepsOf(events, w))
      {
        TriggerRaceStep(lib, want, s0, s, events, w);
      }
    }
  }

  lemma TriggerRaceReaches(lib: Library, want: Wanted, s0: State, events: seq<Event>, t: State, w: nat)
    requires Initial(s0) && NoConflicts(lib, want, s0)
    requires t == Run(lib, true, s0, events) && w < |t.writers|
    ensures RaceDb(lib, want, s0, t) && WriterOk(lib, t.db, w, t.writers[w])
    ensures Charged(lib, s0, t.db, t.writers[w], Losses(events, w)) && Paced(t.writers[w], StepsOf(events, w))
  {
    TriggerRace(lib, want, s0, events);
  }

  /**
    With the trigger on, a writer without an interaction row keeps the bound of a race without trigger until its
    activity is stored; with that many attempts allowed it is not rejected before, and after that many attempts'
    worth of calls it is stored. From then on it is a matter of the answer to that one call (TriggerDefeatsRetry).
   */
  lemma TriggerContentionBound(lib: Library, want: Wanted, s0: State, events: seq<Event>, t: State, w: nat)
    requires Initial(s0) && NoConflicts(lib, want, s0)
    requires t == Run(lib, true, s0, events) && w < |t.writers| && Unhindered(lib, t.db, t.writers[w])
    ensures var allowance := |Contenders(lib, s0, ChainKeyFor(t.writers[w].job.record))| + Losses(events, w);
      && t.writers[w].attempt <= allowance
      && (t.writers[w].job.maxAttempts >= allowance ==>
            !t.writers[w].phase.Rejected? && StepsOf(events, w) < allowance * Calls(t.writers[w].job))
  {
    TriggerRaceReaches(lib, want, s0, events, t, w);
    MissingContenderBounds(lib, want, s0, t.db, w);
    UnhinderedSettles(lib, s0, t.db, w, t.writers[w], Losses(events, w), StepsOf(events, w));
  }

  lemma UnhinderedSettles(lib: Library, s0: State, db: Db, w: nat, writer: Writer, losses: nat, steps: nat)
    requires TableOk(db.rows) && WriterOk(lib, db, w, writer) && Unhindered(lib, db, writer)
    requires Charged(lib, s0, db, writer, losses) && Paced(writer, steps)
    requires var key := ChainKeyFor(writer.job.record);
      |ChainRows(db.rows, key)| < |ChainRows(s0.db.rows, key)| + |Contenders(lib, s0, key)|
    ensures var allowance := |Contenders(lib, s0, ChainKeyFor(writer.job.record))| + losses;
      && writer.attempt <= allowance
      && (writer.job.maxAttempts >= allowance ==> !writer.phase.Rejected? && steps < allowance * Calls(writer.job))
  {
    UnhinderedPhase(lib, db, w, writer);
    SeenIsThere(lib, db, w, writer);
    PhaseFits(lib, db, w, writer);
    Settles(writer, |Contenders(lib, s0, ChainKeyFor(writer.job.record))| + losses, steps);
  }

  /** An attempt never looked further than the chain reaches now. */
  lemma SeenIsThere(lib: Library, db: Db, w: nat, writer: Writer)
    requires TableOk(db.rows) && WriterOk(lib, db, w, writer)
    ensures Seen(db.rows, writer) <= |ChainRows(db.rows, ChainKeyFor(writer.job.record))|
  {}
}
