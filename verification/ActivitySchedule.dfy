/** One recorder among arbitrary other traffic, determined by a schedule of writes and faults; a run of the log. */
module ActivitySchedule {
  import opened Common
  import opened ActivityChain
  import opened ActivityStorage
  import opened ActivityLog

  /** What becomes of one storage call. */
  datatype CallFate = Answered | LostAfterCommit | LostBeforeCommit

  /** The foreign writes that reach the database before the call, and the fate of the call itself. */
  datatype Moment = Moment(arrivals: seq<Write>, fate: CallFate)

  /** By attempt, and by call within the attempt. */
  type Schedule = (nat, nat) -> Moment

  /** Foreign writes in order; an activity row whose position no reader of this log could have computed is left out. */
  function Arrived(lib: Library, trigger: bool, db: Db, arrivals: seq<Write>): Db {
    if arrivals == [] then db
    else
      var before := Arrived(lib, trigger, db, arrivals[..|arrivals| - 1]);
      var last := arrivals[|arrivals| - 1];
      if WriteOk(before.rows, last) then Perform(lib, trigger, before, last).0 else before
  }

  /** The database after one awaited write, and whether its caller saw it succeed. */
  function Called(lib: Library, trigger: bool, db: Db, write: Write, m: Moment): (Db, bool) {
    var before := Arrived(lib, trigger, db, m.arrivals);
    var (after, outcome) := Perform(lib, trigger, before, write);
    (if m.fate == LostBeforeCommit then before else after, m.fate == Answered && outcome.Succeeded())
  }

  /** One step of the recorder: nothing is awaited without an interaction, or for an item that cannot be built. */
  function Turn(lib: Library, trigger: bool, db: Db, writer: Writer, m: Moment): (Db, Writer) {
    if writer.phase.ReadingHead? then
      var before := Arrived(lib, trigger, db, m.arrivals);
      (before, Stepped(lib, trigger, before, 0, writer, if m.fate == Answered then Acknowledged else Lost).writer)
    else match NextWrite(0, writer)
      case None => (db, Stepped(lib, trigger, db, 0, writer, Acknowledged).writer)
      case Some(write) =>
        var (after, ok) := Called(lib, trigger, db, write, m);
        (after, if ok then AfterSuccess(writer) else AfterFailure(writer))
  }

  /** How much of an attempt is left. */
  function Remaining(writer: Writer): nat {
    if !Active(writer) then 0
    else if PhaseIndex(writer) < 3 + |writer.job.items| then 4 + |writer.job.items| - PhaseIndex(writer)
    else 1
  }

  function AttemptsLeft(writer: Writer): nat {
    if writer.attempt <= writer.job.maxAttempts then writer.job.maxAttempts - writer.attempt else 0
  }

  lemma TurnProgresses(lib: Library, trigger: bool, db: Db, writer: Writer, m: Moment)
    requires Active(writer)
    ensures var after := Turn(lib, trigger, db, writer, m).1;
      AttemptsLeft(after) < AttemptsLeft(writer)
      || (AttemptsLeft(after) == AttemptsLeft(writer) && Remaining(after) < Remaining(writer))
  {}

  /** The recorder from any point on, until it accepts or gives up. */
  function Drive(lib: Library, trigger: bool, schedule: Schedule, db: Db, writer: Writer): (Db, Writer)
    decreases AttemptsLeft(writer), Remaining(writer)
  {
    if !Active(writer) then (db, writer)
    else
      var m := schedule(writer.attempt, PhaseIndex(writer));
      TurnProgresses(lib, trigger, db, writer, m);
      var (after, next) := Turn(lib, trigger, db, writer, m);
      Drive(lib, trigger, schedule, after, next)
  }

  /** A writer that has stored its row and its first n related rows. */
  function Related(job: Job, attempt: nat, n: nat): Writer {
    Writer(job, if n >= |job.items| then Accepted else Relating(n), attempt)
  }

  /** A writer whose attempt just failed. */
  function Failed(job: Job, attempt: nat): Writer {
    AfterFailure(Writer(job, Ensuring, attempt))
  }

  /** A course goes on where the next call leaves it. */
  lemma WriteTurn(lib: Library, trigger: bool, schedule: Schedule, db: Db, writer: Writer, write: Write)
    requires Active(writer) && NextWrite(0, writer) == Some(write)
    ensures var (after, ok) := Called(lib, trigger, db, write, schedule(writer.attempt, PhaseIndex(writer)));
      Drive(lib, trigger, schedule, db, writer)
        == Drive(lib, trigger, schedule, after, if ok then AfterSuccess(writer) else AfterFailure(writer))
  {}

  lemma HeadTurn(lib: Library, trigger: bool, schedule: Schedule, db: Db, job: Job, attempt: nat)
    ensures var before := Arrived(lib, trigger, db, schedule(attempt, 1).arrivals);
      Drive(lib, trigger, schedule, db, Writer(job, ReadingHead, attempt))
        == Drive(lib, trigger, schedule, before,
             if schedule(attempt, 1).fate == Answered
             then
               Writer(job, Inserting(Chained(lib, job.record, HeadOf(before.rows, ChainKeyFor(job.record)))), attempt)
             else Failed(job, attempt))
  {
    var writer, m := Writer(job, ReadingHead, attempt), schedule(attempt, 1);
    assert Active(writer) && PhaseIndex(writer) == 1;
    assert Failed(job, attempt) == AfterFailure(writer);
    assert Drive(lib, trigger, schedule, db, writer)
      == Drive(lib, trigger, schedule, Turn(lib, trigger, db, writer, m).0, Turn(lib, trigger, db, writer, m).1);
  }

  lemma QuietTurns(lib: Library, trigger: bool, schedule: Schedule, db: Db, job: Job, attempt: nat)
    ensures job.interaction.None? ==>
      Drive(lib, trigger, schedule, db, Writer(job, Ensuring, attempt))
        == Drive(lib, trigger, schedule, db, Writer(job, ReadingHead, attempt))
    ensures forall i: nat :: i < |job.items| && !job.items[i].buildable ==>
      Drive(lib, trigger, schedule, db, Writer(job, Relating(i), attempt))
        == Drive(lib, trigger, schedule, db, Failed(job, attempt))
  {}

  // ---- Every schedule is a run ----

  ghost predicate Draws(schedule: Schedule, foreign: set<Write>) {
    forall attempt, call :: forall write :: write in schedule(attempt, call).arrivals ==> write in foreign
  }

  lemma RunConcat(lib: Library, trigger: bool, s: State, a: seq<Event>, b: seq<Event>)
    ensures Run(lib, trigger, s, a + b) == Run(lib, trigger, Run(lib, trigger, s, a), b)
    decreases |b|
  {
    if b == [] {
      assert a + b == a;
    } else {
      var n := |b| - 1;
      RunConcat(lib, trigger, s, a, b[..n]);
      assert (a + b)[..|a + b| - 1] == a + b[..n];
    }
  }

  lemma RunOne(lib: Library, trigger: bool, s: State, e: Event)
    ensures Run(lib, trigger, s, [e]) == Step(lib, trigger, s, e)
  {
    assert [e][..0] == [];
    assert Run(lib, trigger, s, [e][..0]) == s;
  }

  lemma {:induction false} ArrivalsAreEvents(lib: Library, trigger: bool, s: State, arrivals: seq<Write>)
    returns (events: seq<Event>)
    requires forall write :: write in arrivals ==> write in s.abandoned
    ensures Run(lib, trigger, s, events) == s.(db := Arrived(lib, trigger, s.db, arrivals))
    decreases |arrivals|
  {
    events := [];
    if arrivals != [] {
      var n := |arrivals| - 1;
      var last, before := arrivals[n], Arrived(lib, trigger, s.db, arrivals[..n]);
      events := ArrivalsAreEvents(lib, trigger, s, arrivals[..n]);
      if WriteOk(before.rows, last) {
        RunConcat(lib, trigger, s, events, [Arrive(last)]);
        RunOne(lib, trigger, s.(db := before), Arrive(last));
        events := events + [Arrive(last)];
      }
    }
  }

  /** A step that awaits nothing. */
  lemma QuietTurn(lib: Library, trigger: bool, s: State, m: Moment)
    requires |s.writers| == 1 && Active(s.writers[0])
    requires NextWrite(0, s.writers[0]).None? && !s.writers[0].phase.ReadingHead?
    ensures TurnTaken(lib, trigger, s, m, [Advance(0, Acknowledged)])
  {
    var events := [Advance(0, Acknowledged)];
    assert events[..0] == [];
    assert Run(lib, trigger, s, events) == Step(lib, trigger, s, events[0]);
  }

  ghost predicate TurnTaken(lib: Library, trigger: bool, s: State, m: Moment, events: seq<Event>)
    requires |s.writers| == 1
  {
    var t := Run(lib, trigger, s, events);
    && (t.db, t.writers[0]) == Turn(lib, trigger, s.db, s.writers[0], m)
    && s.abandoned <= t.abandoned
  }

  /** The writes that may still arrive from outside are never used up. */
  lemma TurnIsRun(lib: Library, trigger: bool, s: State, m: Moment) returns (events: seq<Event>)
    requires |s.writers| == 1 && Active(s.writers[0])
    requires forall write :: write in m.arrivals ==> write in s.abandoned
    ensures TurnTaken(lib, trigger, s, m, events)
  {
    var writer, next := s.writers[0], NextWrite(0, s.writers[0]);
    if next.None? && !writer.phase.ReadingHead? {
      QuietTurn(lib, trigger, s, m);
      return [Advance(0, Acknowledged)];
    }
    var before := ArrivalsAreEvents(lib, trigger, s, m.arrivals);
    var own := OwnEvents(next, m);
    events := before + own;
    RunConcat(lib, trigger, s, before, own);
    var waiting := s.(db := Arrived(lib, trigger, s.db, m.arrivals));
    OwnCall(lib, trigger, waiting, m, own);
    TurnAfterArrivals(lib, trigger, s.db, writer, m);
  }

  function OwnEvents(next: Option<Write>, m: Moment): seq<Event> {
    [Advance(0, if m.fate == Answered then Acknowledged else Lost)]
    + if m.fate == LostAfterCommit && next.Some? then [Arrive(next.value)] else []
  }

  /** Arrivals come first; what follows sees only the database they leave. */
  lemma TurnAfterArrivals(lib: Library, trigger: bool, db: Db, writer: Writer, m: Moment)
    requires NextWrite(0, writer).Some? || writer.phase.ReadingHead?
    ensures Turn(lib, trigger, db, writer, m)
      == Turn(lib, trigger, Arrived(lib, trigger, db, m.arrivals), writer, m.(arrivals := []))
  {}

  lemma OwnCall(lib: Library, trigger: bool, s: State, m: Moment, own: seq<Event>)
    requires |s.writers| == 1 && Active(s.writers[0])
    requires NextWrite(0, s.writers[0]).Some? || s.writers[0].phase.ReadingHead?
    requires own == OwnEvents(NextWrite(0, s.writers[0]), m)
    ensures TurnTaken(lib, trigger, s, m.(arrivals := []), own)
  {
    var first := Step(lib, trigger, s, own[0]);
    assert Run(lib, trigger, s, own[..1]) == first by {
      assert own[..1][..0] == [];
    }
    if |own| == 2 {
      assert own[..2] == own;
    } else {
      assert own[..1] == own;
    }
  }

  /**
    Whatever the schedule, the recorder's course from any point on is a run of the transition system in
    which it is the only writer and the schedule's foreign writes are waiting to arrive.
   */
  lemma {:induction false} DriveIsRun(lib: Library, trigger: bool, schedule: Schedule, s: State)
    returns (events: seq<Event>)
    requires |s.writers| == 1 && Draws(schedule, s.abandoned)
    ensures var t := Run(lib, trigger, s, events);
      (t.db, t.writers[0]) == Drive(lib, trigger, schedule, s.db, s.writers[0])
    decreases AttemptsLeft(s.writers[0]), Remaining(s.writers[0])
  {
    events := [];
    var writer := s.writers[0];
    if Active(writer) {
      var m := schedule(writer.attempt, PhaseIndex(writer));
      var first := TurnIsRun(lib, trigger, s, m);
      TurnProgresses(lib, trigger, s.db, writer, m);
      var rest := DriveIsRun(lib, trigger, schedule, Run(lib, trigger, s, first));
      RunConcat(lib, trigger, s, first, rest);
      events := first + rest;
    }
  }
}
