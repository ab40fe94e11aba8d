/**
 The credential file and the lock directory beside it. Every process runs the same protocol, one file-system
 call at a time: see that the file exists, make the lock directory, read, perhaps rewrite, remove the directory.
 An interleaving of any number of processes is a sequence of actions; time passes only in `Tick`.
 */
module AuthLock {
  import opened Options
  import opened OrderedMaps

  const LOCK_MAX_ATTEMPTS := 10
  const LOCK_STALE := 30000

  type Pid = nat
  type Key = string
  type Value = string

  /** The parsed file: an object whose keys keep their order. */
  type Credentials = Entries<Value>

  datatype File = Absent | Blank | Doc(entries: Credentials) | Malformed

  datatype Op =
    | Modify(provider: Key, change: Option<Value> -> Option<Value>)
    | Delete(provider: Key)
    | Reload

  datatype Answer =
    | Got(result: Option<Value>, snapshot: Credentials)
    | Refused               // the file does not parse
    | Locked(attempts: nat)

  datatype Pc =
    | Checking                                    // does the file exist?
    | Seeding                                     // it did not: truncate it
    | SeedFilling                                 // and write the empty object
    | Trying(attempt: nat)                        // make the lock directory
    | Judging(attempt: nat)                       // somebody has it: how old is it?
    | Breaking(attempt: nat)                      // too old: remove it
    | Reading                                     // the lock is held from here ...
    | Truncating(next: Credentials, answer: Answer)
    | Filling(next: Credentials, answer: Answer)
    | Releasing(answer: Answer)                   // ... to here
    | Ended(answer: Answer)

  datatype Process = Process(op: Op, pc: Pc)

  /** `maker` is not on disk; it records whose `mkdir` succeeded. */
  datatype Lock = Lock(created: nat, maker: Pid)

  datatype Commit = Commit(pid: Pid, op: Op)

  /** `history` records, in order, the operations that decided under the lock. */
  datatype System = System(processes: map<Pid, Process>, file: File, lock: Option<Lock>, clock: nat,
                           history: seq<Commit>)

  datatype Action = Call(pid: Pid, op: Op) | Step(pid: Pid) | Tick(ms: nat)

  // ---------------------------------------------------------------- the operations

  function Effect(op: Op, e: Credentials): Credentials {
    match op
    case Modify(provider, change) =>
      (match change(Lookup(e, provider)) case None => e case Some(v) => Put(e, provider, v))
    case Delete(provider) => Without(e, {provider})
    case Reload => e
  }

  predicate Writes(op: Op, e: Credentials) {
    match op
    case Modify(provider, change) => change(Lookup(e, provider)).Some?
    case Delete(_) => true
    case Reload => false
  }

  function AnswerTo(op: Op, e: Credentials): (r: Answer)
    ensures r.Got?
  {
    match op
    case Modify(provider, change) =>
      Got(if Writes(op, e) then change(Lookup(e, provider)) else Lookup(e, provider), Effect(op, e))
    case _ => Got(None, Effect(op, e))
  }

  function ApplyAll(e: Credentials, history: seq<Commit>): Credentials
    decreases |history|
  {
    if history == [] then e
    else Effect(history[|history| - 1].op, ApplyAll(e, history[..|history| - 1]))
  }

  function Parse(file: File): Option<Credentials> {
    match file
    case Absent => Some([])
    case Blank => Some([])
    case Doc(e) => Some(e)
    case Malformed => None
  }

  // ---------------------------------------------------------------- the protocol

  function Start(file: File): System {
    System(map[], file, None, 0, [])
  }

  predicate Stale(s: System) {
    s.lock.Some? && s.clock - s.lock.value.created > LOCK_STALE
  }

  function Goto(s: System, p: Pid, pc: Pc): System
    requires p in s.processes
  {
    s.(processes := s.processes[p := Process(s.processes[p].op, pc)])
  }

  /** What a caller does when the directory was there: give up after the last attempt. */
  function AfterFailure(attempt: nat): Pc {
    if attempt < LOCK_MAX_ATTEMPTS then Trying(attempt + 1) else Ended(Locked(attempt))
  }

  function Do(s: System, a: Action): System {
    match a
    case Tick(ms) => s.(clock := s.clock + ms)
    case Call(p, op) =>
      if p in s.processes then s else s.(processes := s.processes[p := Process(op, Checking)])
    case Step(p) =>
      if p in s.processes then Progress(s, p, s.processes[p].pc) else s
  }

  function Progress(s: System, p: Pid, pc: Pc): System
    requires p in s.processes
  {
    match pc
    case Checking => Goto(s, p, if s.file == Absent then Seeding else Trying(1))
    case Seeding => Goto(s, p, SeedFilling).(file := Blank)
    case SeedFilling => Goto(s, p, Trying(1)).(file := Doc([]))
    case Trying(k) =>
      if s.lock == None then Goto(s, p, Reading).(lock := Some(Lock(s.clock, p))) else Goto(s, p, Judging(k))
    case Judging(k) => Goto(s, p, if Stale(s) then Breaking(k) else AfterFailure(k))
    case Breaking(k) => Goto(s, p, AfterFailure(k)).(lock := None)
    case Reading => Decide(s, p, s.processes[p].op)
    case Truncating(next, answer) => Goto(s, p, Filling(next, answer)).(file := Blank)
    case Filling(next, answer) =>
      Goto(s, p, Releasing(answer)).(file := Doc(next), history := s.history + [Commit(p, s.processes[p].op)])
    case Releasing(answer) => Goto(s, p, Ended(answer)).(lock := None)
    case Ended(_) => s
  }

  /** The closure that runs under the lock. */
  function Decide(s: System, p: Pid, op: Op): System
    requires p in s.processes
  {
    match Parse(s.file)
    case None => Goto(s, p, Releasing(Refused))
    case Some(e) =>
      if Writes(op, e) then Goto(s, p, Truncating(Effect(op, e), AnswerTo(op, e)))
      else Goto(s, p, Releasing(AnswerTo(op, e))).(history := s.history + [Commit(p, op)])
  }

  function RunAll(s: System, actions: seq<Action>): System
    decreases |actions|
  {
    if actions == [] then s else Do(RunAll(s, actions[..|actions| - 1]), actions[|actions| - 1])
  }

  // ---------------------------------------------------------------- the invariant

  predicate Critical(pc: Pc) {
    pc.Reading? || pc.Truncating? || pc.Filling? || pc.Releasing?
  }

  /** One process is between making the lock directory and removing it exactly when the directory is its own. */
  ghost predicate Exclusive(s: System) {
    && (forall p <- s.processes :: Critical(s.processes[p].pc) <==> s.lock.Some? && s.lock.value.maker == p)
    && (s.lock.Some? ==> s.lock.value.maker in s.processes)
  }

  ghost predicate Paced(s: System) {
    forall p <- s.processes ::
      var pc := s.processes[p].pc;
      && !pc.Seeding? && !pc.SeedFilling? && !pc.Breaking?
      && (pc.Trying? || pc.Judging? ==> 1 <= pc.attempt <= LOCK_MAX_ATTEMPTS)
      && (pc.Ended? && pc.answer.Locked? ==> pc.answer.attempts == LOCK_MAX_ATTEMPTS)
      && ((pc.Releasing? || pc.Truncating? || pc.Filling?) ==> !pc.answer.Locked?)
  }

  /** What is on disk, and what the writer of the moment is about to put there. */
  ghost predicate Faithful(s: System, initial: File) {
    match Parse(initial)
    case None =>
      && s.history == [] && s.file == initial
      && (forall p <- s.processes :: !s.processes[p].pc.Truncating? && !s.processes[p].pc.Filling?)
    case Some(e) =>
      var now := ApplyAll(e, s.history);
      && s.file != Absent
      && (if s.lock.Some? && s.lock.value.maker in s.processes && s.processes[s.lock.value.maker].pc.Filling?
          then s.file == Blank else Parse(s.file) == Some(now))
      && (forall p <- s.processes ::
            var pc := s.processes[p].pc;
            pc.Truncating? || pc.Filling? ==>
              pc.next == Effect(s.processes[p].op, now) && pc.answer == AnswerTo(s.processes[p].op, now))
  }

  predicate Decided(pc: Pc) {
    (pc.Releasing? || pc.Ended?) && pc.answer.Got?
  }

  /** The answers handed out are those of the operations run one at a time in the order of `history`. */
  ghost predicate Linear(s: System, initial: File) {
    && (forall i | 0 <= i < |s.history| :: CommittedAt(s, initial, i))
    && (forall i, j | 0 <= i < j < |s.history| :: s.history[i].pid != s.history[j].pid)
    && (forall p <- s.processes ::
          Decided(s.processes[p].pc) <==> exists i | 0 <= i < |s.history| :: s.history[i].pid == p)
  }

  ghost predicate CommittedAt(s: System, initial: File, i: nat)
    requires i < |s.history|
  {
    var c := s.history[i];
    && Parse(initial).Some?
    && c.pid in s.processes && s.processes[c.pid].op == c.op
    && Decided(s.processes[c.pid].pc)
    && s.processes[c.pid].pc.answer == AnswerTo(c.op, ApplyAll(Parse(initial).value, s.history[..i]))
  }

  ghost predicate Sound(s: System, initial: File) {
    Exclusive(s) && Paced(s) && Faithful(s, initial) && Linear(s, initial)
  }

  lemma ProgressExclusive(s: System, p: Pid)
    requires p in s.processes && Exclusive(s) && Paced(s)
    ensures Exclusive(Progress(s, p, s.processes[p].pc))
  {
    hide Effect, Writes, AnswerTo, Parse;
  }

  lemma ProgressPaced(s: System, p: Pid)
    requires p in s.processes && Paced(s) && s.file != Absent && !Stale(s)
    ensures Paced(Progress(s, p, s.processes[p].pc))
  {
    hide Effect, Writes, Parse;
  }

  lemma ApplyOne(e: Credentials, history: seq<Commit>, c: Commit)
    ensures ApplyAll(e, history + [c]) == Effect(c.op, ApplyAll(e, history))
  {
    assert (history + [c])[..|history|] == history;
  }

  lemma SilentOp(op: Op, e: Credentials)
    ensures !Writes(op, e) ==> Effect(op, e) == e
  {
  }

  lemma ReadingFaithful(s: System, p: Pid, initial: File)
    requires p in s.processes && s.processes[p].pc.Reading? && Exclusive(s) && Faithful(s, initial)
    ensures Faithful(Decide(s, p, s.processes[p].op), initial)
  {
    hide Effect, Writes, AnswerTo, ApplyAll;
    var op := s.processes[p].op;
    if Parse(initial).Some? {
      var e := Parse(initial).value;
      ApplyOne(e, s.history, Commit(p, op));
      SilentOp(op, ApplyAll(e, s.history));
      assert Parse(s.file) == Some(ApplyAll(e, s.history));
      assert forall q <- s.processes | q != p :: !Critical(s.processes[q].pc);
    }
  }

  lemma FillingFaithful(s: System, p: Pid, initial: File)
    requires p in s.processes && s.processes[p].pc.Filling? && Exclusive(s) && Faithful(s, initial)
    requires Parse(initial).Some?
    ensures Faithful(Progress(s, p, s.processes[p].pc), initial)
  {
    hide Effect, Writes, AnswerTo, ApplyAll, Decide;
    var e := Parse(initial).value;
    ApplyOne(e, s.history, Commit(p, s.processes[p].op));
    var t := Progress(s, p, s.processes[p].pc);
    assert t.file == Doc(ApplyAll(e, t.history));
    assert !t.processes[p].pc.Filling? && t.lock.value.maker == p;
    assert forall q <- t.processes :: !t.processes[q].pc.Truncating? && !t.processes[q].pc.Filling? by {
      assert forall q <- s.processes | q != p :: !Critical(s.processes[q].pc);
    }
  }

  lemma ProgressFaithful(s: System, p: Pid, initial: File)
    requires p in s.processes && Exclusive(s) && Paced(s) && Faithful(s, initial)
    ensures Faithful(Progress(s, p, s.processes[p].pc), initial)
  {
    hide Effect, Writes, AnswerTo, ApplyAll, Decide;
    if s.processes[p].pc.Reading? {
      ReadingFaithful(s, p, initial);
    } else if s.processes[p].pc.Filling? && Parse(initial).Some? {
      FillingFaithful(s, p, initial);
    }
  }

  /** A step that commits: the new last entry of the history is `p`'s, with the answer of its operation. */
  lemma CommitLinear(s: System, t: System, p: Pid, initial: File)
    requires p in s.processes && Linear(s, initial) && !Decided(s.processes[p].pc) && Parse(initial).Some?
    requires t.history == s.history + [Commit(p, s.processes[p].op)]
    requires p in t.processes && t.processes == s.processes[p := t.processes[p]]
             && t.processes[p].op == s.processes[p].op
    requires Decided(t.processes[p].pc)
    requires t.processes[p].pc.answer == AnswerTo(s.processes[p].op, ApplyAll(Parse(initial).value, s.history))
    ensures Linear(t, initial)
  {
    hide Decided, AnswerTo, ApplyAll, Parse;
    assert t.history[..|s.history|] == s.history;
    forall i | 0 <= i < |t.history| ensures CommittedAt(t, initial, i) {
      if i < |s.history| {
        assert CommittedAt(s, initial, i);
        assert t.history[..i] == s.history[..i];
      }
    }
    forall q <- t.processes
      ensures Decided(t.processes[q].pc) <==> exists i | 0 <= i < |t.history| :: t.history[i].pid == q
    {
      assert t.history[|s.history|].pid == p;
      if q != p && Decided(t.processes[q].pc) {
        var i :| 0 <= i < |s.history| && s.history[i].pid == q;
        assert t.history[i].pid == q;
      }
    }
  }

  /** A step that commits nothing and leaves every answer alone. */
  lemma QuietLinear(s: System, t: System, initial: File)
    requires Linear(s, initial) && t.history == s.history && s.processes.Keys <= t.processes.Keys
    requires forall q <- t.processes :: q !in s.processes ==> !Decided(t.processes[q].pc)
    requires forall q <- s.processes ::
      && t.processes[q].op == s.processes[q].op
      && Decided(t.processes[q].pc) == Decided(s.processes[q].pc)
      && (Decided(s.processes[q].pc) ==> t.processes[q].pc.answer == s.processes[q].pc.answer)
    ensures Linear(t, initial)
  {
    hide AnswerTo, ApplyAll, Parse, Decided;
    forall i | 0 <= i < |t.history| ensures CommittedAt(t, initial, i) {
      assert CommittedAt(s, initial, i);
    }
    forall q <- t.processes
      ensures Decided(t.processes[q].pc) <==> exists i | 0 <= i < |t.history| :: t.history[i].pid == q
    {
      if q !in s.processes && exists i | 0 <= i < |t.history| :: t.history[i].pid == q {
        var i :| 0 <= i < |t.history| && t.history[i].pid == q;
        assert CommittedAt(s, initial, i);
      }
    }
  }

  lemma CommittingLinear(s: System, p: Pid, initial: File)
    requires p in s.processes && Exclusive(s) && Faithful(s, initial) && Linear(s, initial)
    requires s.processes[p].pc.Reading? || s.processes[p].pc.Filling?
    ensures Linear(Progress(s, p, s.processes[p].pc), initial)
  {
    hide Effect, Writes, ApplyAll, Linear, AnswerTo;
    var t := Progress(s, p, s.processes[p].pc);
    if t.history == s.history {
      QuietLinear(s, t, initial);
    } else {
      CommitLinear(s, t, p, initial);
    }
  }

  lemma ProgressLinear(s: System, p: Pid, initial: File)
    requires p in s.processes && Exclusive(s) && Paced(s) && Faithful(s, initial) && Linear(s, initial)
    ensures Linear(Progress(s, p, s.processes[p].pc), initial)
  {
    hide Linear, Faithful, Exclusive, Decide, Stale;
    var t := Progress(s, p, s.processes[p].pc);
    if s.processes[p].pc.Reading? || s.processes[p].pc.Filling? {
      CommittingLinear(s, p, initial);
    } else {
      QuietLinear(s, t, initial);
    }
  }

  lemma StepSound(s: System, a: Action, initial: File)
    requires Sound(s, initial) && initial != Absent && !Stale(s)
    ensures Sound(Do(s, a), initial)
  {
    hide Linear, Effect, Writes, ApplyAll, AnswerTo, Progress;
    if a.Step? && a.pid in s.processes {
      ProgressExclusive(s, a.pid);
      ProgressPaced(s, a.pid);
      ProgressFaithful(s, a.pid, initial);
      ProgressLinear(s, a.pid, initial);
    } else {
      QuietLinear(s, Do(s, a), initial);
    }
  }

  /** At no moment of the run has a lock directory outlived LOCK_STALE. */
  ghost predicate NeverStale(initial: File, actions: seq<Action>) {
    forall n | 0 <= n < |actions| :: !Stale(RunAll(Start(initial), actions[..n]))
  }

  lemma {:induction false} AlwaysSound(initial: File, actions: seq<Action>)
    requires initial != Absent && NeverStale(initial, actions)
    ensures Sound(RunAll(Start(initial), actions), initial)
  {
    hide Effect, Writes, Do, AnswerTo;
    if actions != [] {
      var before := actions[..|actions| - 1];
      assert forall n | 0 <= n < |before| :: before[..n] == actions[..n];
      assert !Stale(RunAll(Start(initial), before));
      AlwaysSound(initial, before);
      StepSound(RunAll(Start(initial), before), actions[|actions| - 1], initial);
    } else {
      assert Start(initial).history == [];
    }
  }

  // ---------------------------------------------------------------- what callers get out of it

  /** At most one process is in the critical section. */
  lemma MutualExclusion(initial: File, actions: seq<Action>, p: Pid, q: Pid)
    requires initial != Absent && NeverStale(initial, actions)
    ensures var s := RunAll(Start(initial), actions);
      p in s.processes && q in s.processes && Critical(s.processes[p].pc) && Critical(s.processes[q].pc) ==> p == q
  {
    AlwaysSound(initial, actions);
  }

  /**
   No update is lost: whenever nobody is inside a rewrite, the file is the initial one with the committed
   operations applied in lock order; and a file that does not parse is never touched.
   */
  lemma NoLostUpdates(initial: File, actions: seq<Action>)
    requires initial != Absent && NeverStale(initial, actions)
    ensures var s := RunAll(Start(initial), actions);
      && (forall e :: Parse(initial) == Some(e) && (forall p <- s.processes :: !s.processes[p].pc.Filling?) ==>
            Parse(s.file) == Some(ApplyAll(e, s.history)))
      && (initial == Malformed ==> s.file == Malformed && s.history == [])
  {
    AlwaysSound(initial, actions);
  }

  /**
   Every call that got an answer committed exactly once, and was answered as if the operations had run one at a
   time in the order of the history; a call that ended in `Locked` made ten attempts and committed nothing.
   */
  lemma AnswersAreLinear(initial: File, actions: seq<Action>, p: Pid)
    requires initial != Absent && NeverStale(initial, actions)
    requires var s := RunAll(Start(initial), actions); p in s.processes && s.processes[p].pc.Ended?
    ensures var s := RunAll(Start(initial), actions);
      match s.processes[p].pc.answer
      case Got(_, _) =>
        && Parse(initial).Some?
        && exists i | 0 <= i < |s.history| ::
             && s.history[i] == Commit(p, s.processes[p].op)
             && s.processes[p].pc.answer == AnswerTo(s.processes[p].op, ApplyAll(Parse(initial).value, s.history[..i]))
             && forall j | 0 <= j < |s.history| && j != i :: s.history[j].pid != p
      case Locked(attempts) =>
        attempts == LOCK_MAX_ATTEMPTS && forall i | 0 <= i < |s.history| :: s.history[i].pid != p
      case Refused => forall i | 0 <= i < |s.history| :: s.history[i].pid != p
  {
    AlwaysSound(initial, actions);
    hide ApplyAll, AnswerTo, NeverStale, RunAll;
    var s := RunAll(Start(initial), actions);
    assert Linear(s, initial) && Paced(s);
    if s.processes[p].pc.answer.Got? {
      var i :| 0 <= i < |s.history| && s.history[i].pid == p;
      assert CommittedAt(s, initial, i);
      assert s.history[i] == Commit(p, s.processes[p].op);
    }
  }

  /** What was committed stays committed, so a call that ended before another began comes before it. */
  lemma {:induction false} HistoryGrows(s: System, actions: seq<Action>)
    ensures s.history <= RunAll(s, actions).history
  {
    hide Effect, Writes, AnswerTo, Parse;
    if actions != [] {
      HistoryGrows(s, actions[..|actions| - 1]);
    }
  }

  function Provider(op: Op): set<Key> {
    match op
    case Modify(provider, _) => {provider}
    case Delete(provider) => {provider}
    case Reload => {}
  }

  /** Credentials nobody addressed keep their values and their relative order. */
  lemma {:induction false} UntouchedEntriesStay(e: Credentials, history: seq<Commit>, keys: set<Key>)
    requires forall i | 0 <= i < |history| :: Provider(history[i].op) <= keys
    ensures Without(ApplyAll(e, history), keys) == Without(e, keys)
  {
    if history != [] {
      var before := history[..|history| - 1];
      UntouchedEntriesStay(e, before, keys);
      var op := history[|history| - 1].op;
      var now := ApplyAll(e, before);
      assert Provider(op) <= keys;
      match op
      case Modify(provider, change) =>
        if change(Lookup(now, provider)).Some? {
          PutElsewhere(now, provider, change(Lookup(now, provider)).value, keys);
        }
      case Delete(provider) => WithoutTwice(now, {provider}, keys);
      case Reload =>
    }
  }

  // ---------------------------------------------------------------- the two hypotheses are needed

  /** Runs compose, so a concrete run can be followed from state to state. */
  lemma {:induction false} RunOn(s: System, before: seq<Action>, after: seq<Action>)
    ensures RunAll(s, before + after) == RunAll(RunAll(s, before), after)
  {
    hide Do;
    if after == [] {
      assert before + after == before;
    } else {
      assert (before + after)[..|before + after| - 1] == before + after[..|after| - 1];
      RunOn(s, before, after[..|after| - 1]);
    }
  }

  lemma RunTwo(s: System, a: Action, b: Action)
    ensures RunAll(s, [a, b]) == Do(Do(s, a), b)
  {
    hide Do;
    assert [a][..0] == [] && [a, b][..1] == [a];
    assert RunAll(s, [a]) == Do(RunAll(s, []), a);
    assert RunAll(s, [a, b]) == Do(RunAll(s, [a]), b);
  }

  lemma RunFour(s: System, a: Action, b: Action, c: Action, d: Action)
    ensures RunAll(s, [a, b, c, d]) == Do(Do(Do(Do(s, a), b), c), d)
  {
    hide Do;
    RunTwo(s, a, b);
    RunTwo(RunAll(s, [a, b]), c, d);
    RunOn(s, [a, b], [c, d]);
    assert [a, b] + [c, d] == [a, b, c, d];
  }

  lemma {:induction false} WithoutTicksNothingAges(initial: File, actions: seq<Action>)
    requires forall k | 0 <= k < |actions| :: !actions[k].Tick?
    ensures RunAll(Start(initial), actions).clock == 0 && !Stale(RunAll(Start(initial), actions))
  {
    hide Effect, Writes, AnswerTo, Parse;
    if actions != [] {
      WithoutTicksNothingAges(initial, actions[..|actions| - 1]);
    }
  }

  const ADD := Modify("a", _ => Some("1"))

  const OPENING := [Call(0, ADD), Call(1, Reload), Step(0), Step(1)]
  const FAST := [Step(0), Step(0), Step(0), Step(0)]
  const CLOSING := [Step(0), Step(0), Step(1), Step(1)]
  const ADDED := Got(Some("1"), [("a", "1")])

  lemma AbsentFileSteps()
    ensures RunAll(Start(Absent), OPENING) ==
            System(map[0 := Process(ADD, Seeding), 1 := Process(Reload, Seeding)], Absent, None, 0, [])
  {
    RunFour(Start(Absent), OPENING[0], OPENING[1], OPENING[2], OPENING[3]);
  }

  lemma AbsentFileFast(s: System)
    requires s == System(map[0 := Process(ADD, Seeding), 1 := Process(Reload, Seeding)], Absent, None, 0, [])
    ensures var t := RunAll(s, FAST);
      && t.processes == map[0 := Process(ADD, Truncating([("a", "1")], ADDED)), 1 := Process(Reload, Seeding)]
      && t.lock.Some? && t.history == []
  {
    var s1 := Do(s, Step(0));
    var s2 := Do(s1, Step(0));
    assert s2.processes[0].pc == Trying(1) && s2.file == Doc([]);
    var s3 := Do(s2, Step(0));
    assert s3.processes[0] == Process(ADD, Reading) && s3.file == Doc([]);
    assert ADD.change(Lookup([], "a")) == Some("1") && Put([], "a", "1") == [("a", "1")];
    assert Do(s3, Step(0)).processes[0] == Process(ADD, Truncating([("a", "1")], ADDED));
    RunFour(s, Step(0), Step(0), Step(0), Step(0));
  }

  lemma AbsentFileClosing(s: System)
    requires s.processes == map[0 := Process(ADD, Truncating([("a", "1")], ADDED)), 1 := Process(Reload, Seeding)]
    requires s.lock.Some? && s.history == []
    ensures RunAll(s, CLOSING).history == [Commit(0, ADD)] && RunAll(s, CLOSING).file == Doc([])
  {
    RunFour(s, CLOSING[0], CLOSING[1], CLOSING[2], CLOSING[3]);
  }

  /**
   Both processes saw no file. The slower one seeds it after the faster one has committed, and wipes the commit
   out: no lock was ever stale, yet the file is not what the history says.
   */
  lemma AbsentFileLosesUpdate() returns (actions: seq<Action>)
    ensures NeverStale(Absent, actions)
    ensures var s := RunAll(Start(Absent), actions);
      s.history == [Commit(0, ADD)] && s.file == Doc([]) && ApplyAll([], s.history) == [("a", "1")]
  {
    hide RunAll, Do, ApplyAll, Stale;
    actions := OPENING + (FAST + CLOSING);
    NothingAges(Absent, actions);
    AbsentFileSteps();
    var s := RunAll(Start(Absent), OPENING);
    AbsentFileFast(s);
    AbsentFileClosing(RunAll(s, FAST));
    RunOn(s, FAST, CLOSING);
    RunOn(Start(Absent), OPENING, FAST + CLOSING);
    AddedAlone();
  }

  lemma NothingAges(initial: File, actions: seq<Action>)
    requires forall k | 0 <= k < |actions| :: !actions[k].Tick?
    ensures NeverStale(initial, actions)
  {
    hide RunAll;
    forall n | 0 <= n < |actions| ensures !Stale(RunAll(Start(initial), actions[..n])) {
      WithoutTicksNothingAges(initial, actions[..n]);
    }
  }

  lemma AddedAlone()
    ensures ApplyAll([], [Commit(0, ADD)]) == [("a", "1")]
  {
    ApplyOne([], [], Commit(0, ADD));
    assert [] + [Commit(0, ADD)] == [Commit(0, ADD)];
    assert ADD.change(Lookup([], "a")) == Some("1") && Put([], "a", "1") == [("a", "1")];
  }

  const DIE := [Call(0, Reload), Step(0), Step(0), Tick(LOCK_STALE + 1)]
  const JUDGE_ONE := [Call(1, Reload), Step(1), Step(1), Step(1)]
  const JUDGE_TWO := [Call(2, Reload), Step(2), Step(2), Step(2)]
  const STEAL := [Step(1), Step(1), Step(2), Step(2)]

  lemma HolderDies()
    ensures RunAll(Start(Doc([])), DIE) ==
            System(map[0 := Process(Reload, Reading)], Doc([]), Some(Lock(0, 0)), LOCK_STALE + 1, [])
  {
    RunFour(Start(Doc([])), DIE[0], DIE[1], DIE[2], DIE[3]);
  }

  /** A newcomer that finds an overdue lock is about to remove it after four steps. */
  lemma Judges(s: System, p: Pid)
    requires p !in s.processes && s.file == Doc([]) && Stale(s)
    ensures RunAll(s, [Call(p, Reload), Step(p), Step(p), Step(p)]) ==
            s.(processes := s.processes[p := Process(Reload, Breaking(1))])
  {
    RunFour(s, Call(p, Reload), Step(p), Step(p), Step(p));
    var s1 := s.(processes := s.processes[p := Process(Reload, Checking)]);
    var s2 := s.(processes := s.processes[p := Process(Reload, Trying(1))]);
    var s3 := s.(processes := s.processes[p := Process(Reload, Judging(1))]);
    assert Do(s, Call(p, Reload)) == s1;
    assert Do(s1, Step(p)) == s2;
    assert Do(s2, Step(p)) == s3;
  }

  lemma BothJudge(s: System)
    requires s == System(map[0 := Process(Reload, Reading)], Doc([]), Some(Lock(0, 0)), LOCK_STALE + 1, [])
    ensures RunAll(RunAll(s, JUDGE_ONE), JUDGE_TWO) ==
            s.(processes := s.processes[1 := Process(Reload, Breaking(1))][2 := Process(Reload, Breaking(1))])
  {
    hide RunAll;
    Judges(s, 1);
    Judges(s.(processes := s.processes[1 := Process(Reload, Breaking(1))]), 2);
  }

  lemma BothSteal(s: System)
    requires 1 in s.processes && 2 in s.processes
    requires s.processes[1].pc == Breaking(1) && s.processes[2].pc == Breaking(1)
    ensures var t := RunAll(s, STEAL);
      1 in t.processes && 2 in t.processes && t.processes[1].pc == Reading && t.processes[2].pc == Reading && !Stale(t)
  {
    RunFour(s, STEAL[0], STEAL[1], STEAL[2], STEAL[3]);
  }

  /**
   The holder died. Two processes judge its lock stale before either removes it; the second removal takes away
   the first one's fresh lock, and both are in the critical section.
   */
  lemma StaleLockBreaksExclusion() returns (actions: seq<Action>)
    ensures var s := RunAll(Start(Doc([])), actions);
      && 1 in s.processes && 2 in s.processes && Critical(s.processes[1].pc) && Critical(s.processes[2].pc)
      && !Stale(s)
  {
    hide RunAll, Do;
    actions := DIE + (JUDGE_ONE + (JUDGE_TWO + STEAL));
    var s0 := Start(Doc([]));
    HolderDies();
    var s1 := RunAll(s0, DIE);
    BothJudge(s1);
    var s2 := RunAll(s1, JUDGE_ONE);
    BothSteal(RunAll(s2, JUDGE_TWO));
    RunOn(s2, JUDGE_TWO, STEAL);
    RunOn(s1, JUDGE_ONE, JUDGE_TWO + STEAL);
    RunOn(s0, DIE, JUDGE_ONE + (JUDGE_TWO + STEAL));
  }
}
