/** What the three stores hold after any number of ingests, arrivals and crashes. */
module IntakeSafety {
  import opened Wrappers
  import opened Intake

  ghost predicate Persists(j: Journal, at: nat, task: Task) {
    exists i :: 0 <= i < |j.lines| && j.lines[i] == Persisted(at, task)
  }

  /** Every task and journal line is of a message of the room, and no identifier has two lines. */
  ghost predicate Faithful(s: Store, room: Room) {
    && (forall at | at in s.tasks :: 1 <= at <= |room| && s.tasks[at].payload.at == at && s.tasks[at].payload.message == room[at - 1])
    && (forall i | 0 <= i < |s.journal.lines| && s.journal.lines[i].Persisted? ::
          s.journal.lines[i].at in s.tasks && s.tasks[s.journal.lines[i].at] == s.journal.lines[i].task)
    && (forall i, j | 0 <= i < j < |s.journal.lines| :: !SameId(s.journal.lines[i], s.journal.lines[j]))
  }

  /** Everything up to the cursor has its task and its line. */
  ghost predicate Covered(s: Store, upTo: nat) {
    forall at | 1 <= at <= upTo :: at in s.tasks && Persists(s.journal, at, s.tasks[at])
  }

  ghost predicate Inv(s: Store, room: Room) {
    Faithful(s, room) && s.cursor <= |room| && Covered(s, s.cursor)
  }

  /** Nothing already stored is lost or changed, and the cursor does not go back. */
  ghost predicate Grows(s: Store, t: Store) {
    && (forall at | at in s.tasks :: at in t.tasks && t.tasks[at] == s.tasks[at])
    && (forall at, task | Persists(s.journal, at, task) :: Persists(t.journal, at, task))
    && s.cursor <= t.cursor
  }

  /** The states of one ingest before its cursor moves. */
  ghost predicate Sound(s: Store, room: Room, states: seq<Store>) {
    forall k | 0 <= k < |states| ::
      Faithful(states[k], room) && Grows(s, states[k]) && states[k].cursor == s.cursor && !states[k].journal.tail.Unended?
  }

  lemma GrowsJoins(a: Store, b: Store, c: Store)
    requires Grows(a, b) && Grows(b, c)
    ensures Grows(a, c)
  {
  }

  lemma SoundJoins(s: Store, room: Room, a: seq<Store>, b: seq<Store>)
    requires Sound(s, room, a) && Sound(Last(s, a), room, b)
    ensures Sound(s, room, a + b)
  {
    hide Faithful;
    forall k | 0 <= k < |a + b|
      ensures Faithful((a + b)[k], room) && Grows(s, (a + b)[k]) && (a + b)[k].cursor == s.cursor && !(a + b)[k].journal.tail.Unended?
    {
      if k >= |a| {
        assert (a + b)[k] == b[k - |a|];
        if a != [] {
          GrowsJoins(s, Last(s, a), b[k - |a|]);
        }
      }
    }
  }

  /** Exactly when an append keeps what was there and adds its own: the file ends in a newline. */
  lemma AppendKeepsLinesIff(j: Journal, e: Entry)
    requires Append(j, e).Some? && Append(j, e).value.0 && (j.tail.Unended? ==> j.lines != [])
    ensures var k := Append(j, e).value.1;
      (forall x | x in j.lines :: x in k.lines) && e in k.lines <==> j.tail.Clean?
  {
    forall i | 0 <= i < |j.lines|
      ensures j.lines[i] != e
    {
      assert !SameId(j.lines[i], e) && SameId(e, e);
    }
  }

  lemma AppendKeeps(s: Store, room: Room, e: Entry)
    requires Faithful(s, room) && !s.journal.tail.Unended?
    requires e.Persisted? ==> e.at in s.tasks && s.tasks[e.at] == e.task
    ensures var t := Journaled(s, e);
      && Sound(s, room, t.states) && (t.result.Ok? <==> s.journal.tail.Clean?)
      && Last(s, t.states).journal.tail == s.journal.tail
      && (t.result.Ok? && e.Persisted? ==> Persists(Last(s, t.states).journal, e.at, e.task))
  {
    var t := Last(s, Journaled(s, e).states);
    if HasEntry(s.journal, e) {
      var i :| 0 <= i < |s.journal.lines| && SameId(s.journal.lines[i], e);
    } else if s.journal.tail.Clean? {
      AppendKeepsLinesIff(s.journal, e);
      forall at, task | Persists(s.journal, at, task)
        ensures Persists(t.journal, at, task)
      {
        assert Persisted(at, task) in s.journal.lines;
      }
    }
  }

  lemma EnqueueKeeps(s: Store, room: Room, at: nat, o: Options)
    requires Faithful(s, room) && 1 <= at <= |room| && !s.journal.tail.Unended?
    ensures var t := Enqueued(s, at, TaskOf(room, at, o));
      && Sound(s, room, t.states) && Last(s, t.states).journal == s.journal
      && (t.result.Ok? ==> Faithful(Last(s, t.states), room) && at in Last(s, t.states).tasks && Last(s, t.states).tasks[at] == TaskOf(room, at, o))
      && (t.result.Ok? <==> (at in s.tasks ==> s.tasks[at] == TaskOf(room, at, o)))
      && (t.result.Err? ==> t.states == [])
  {
  }

  /** Whether one more message can be taken in: the journal can be read, and its task is new or the same. */
  predicate Takes(s: Store, room: Room, at: nat, o: Options)
    requires 1 <= at <= |room|
  {
    s.journal.tail.Clean? && (at in s.tasks ==> s.tasks[at] == TaskOf(room, at, o))
  }

  lemma PersistOneKeeps(s: Store, room: Room, at: nat, o: Options)
    requires Faithful(s, room) && 1 <= at <= |room| && !s.journal.tail.Unended?
    ensures var t := PersistOne(s, room, at, o); var e := Last(s, t.states);
      && Sound(s, room, t.states) && Faithful(e, room) && e.journal.tail == s.journal.tail
      && (t.result.Ok? <==> Takes(s, room, at, o))
      && (t.result.Ok? ==> at in e.tasks && e.tasks[at] == TaskOf(room, at, o) && Persists(e.journal, at, e.tasks[at]))
  {
    hide Faithful, Journaled, Enqueued, TaskOf, Grows;
    EnqueueKeeps(s, room, at, o);
    var task := TaskOf(room, at, o);
    var queued := Enqueued(s, at, task);
    if queued.result.Ok? {
      var m := Last(s, queued.states);
      AppendKeeps(m, room, Persisted(at, task));
      SoundJoins(s, room, queued.states, Journaled(m, Persisted(at, task)).states);
      SoundIsFaithful(m, room, Journaled(m, Persisted(at, task)).states);
      LaterHasTask(m, room, Journaled(m, Persisted(at, task)).states, at);
    }
  }

  ghost predicate AllPersisted(s: Store, seqs: seq<nat>) {
    forall i | 0 <= i < |seqs| :: seqs[i] in s.tasks && Persists(s.journal, seqs[i], s.tasks[seqs[i]])
  }

  lemma {:induction false} PersistAllKeeps(s: Store, room: Room, seqs: seq<nat>, o: Options)
    requires Faithful(s, room) && !s.journal.tail.Unended?
    requires forall i | 0 <= i < |seqs| :: 1 <= seqs[i] <= |room|
    ensures var t := PersistAll(s, room, seqs, o); var e := Last(s, t.states);
      && Sound(s, room, t.states) && Faithful(e, room) && e.journal.tail == s.journal.tail
      && (t.result.Ok? ==> AllPersisted(e, seqs))
    decreases |seqs|
  {
    hide Faithful, PersistOne, TaskOf, Grows, Takes;
    if seqs != [] {
      var front, last := seqs[..|seqs| - 1], seqs[|seqs| - 1];
      PersistAllKeeps(s, room, front, o);
      var before := PersistAll(s, room, front, o);
      if before.result.Ok? {
        var m := Last(s, before.states);
        PersistOneKeeps(m, room, last, o);
        var one := PersistOne(m, room, last, o);
        SoundJoins(s, room, before.states, one.states);
        StillPersisted(m, room, one.states, front);
      }
    }
  }

  lemma StillPersisted(s: Store, room: Room, states: seq<Store>, seqs: seq<nat>)
    requires Sound(s, room, states) && AllPersisted(s, seqs)
    ensures AllPersisted(Last(s, states), seqs)
  {
    hide Faithful;
    if states != [] {
      assert Grows(s, states[|states| - 1]);
    }
  }

  lemma SoundIsFaithful(s: Store, room: Room, states: seq<Store>)
    requires Faithful(s, room) && Sound(s, room, states)
    ensures Faithful(Last(s, states), room)
  {
    hide Faithful, Grows;
  }

  lemma LaterHasTask(s: Store, room: Room, states: seq<Store>, at: nat)
    requires Sound(s, room, states) && at in s.tasks
    ensures at in Last(s, states).tasks && Last(s, states).tasks[at] == s.tasks[at]
  {
    hide Faithful;
  }

  // ------------------------------------------------------------------ one whole ingest

  /** The window is contiguous up to its last message, and holds everything unread unless it overflowed. */
  lemma ReadShape(room: Room, since: nat)
    ensures var v := Read(room, since);
      && (forall i | 0 <= i < |v.seqs| :: v.seqs[i] == v.seqs[0] + i) && |v.seqs| <= WINDOW
      && (v.first.Some? <==> v.seqs != []) && (v.first.Some? ==> v.first.value == v.seqs[0] && v.last == v.seqs[0] + |v.seqs| - 1 == |room|)
      && (v.first.None? ==> v.last == since >= |room|)
      && (v.first.Some? ==> v.first.value == if |room| > since + WINDOW then |room| - WINDOW + 1 else since + 1)
  {
  }

  lemma {:induction false} HighestIsLast(cursor: nat, seqs: seq<nat>)
    requires forall i | 0 <= i < |seqs| :: seqs[i] == seqs[0] + i
    ensures Highest(cursor, seqs) == if seqs == [] || seqs[|seqs| - 1] <= cursor then cursor else seqs[|seqs| - 1]
    decreases |seqs|
  {
    if seqs != [] {
      var front := seqs[..|seqs| - 1];
      assert forall i | 0 <= i < |front| :: front[i] == seqs[i];
      HighestIsLast(cursor, front);
    }
  }

  ghost predicate Ends(s: Store, room: Room, states: seq<Store>) {
    forall k | 0 <= k < |states| :: Inv(states[k], room) && Grows(s, states[k]) && !states[k].journal.tail.Unended?
  }

  lemma SoundEnds(s: Store, room: Room, states: seq<Store>)
    requires Inv(s, room) && Sound(s, room, states)
    ensures Ends(s, room, states)
  {
    hide Faithful;
    forall k | 0 <= k < |states|
      ensures Covered(states[k], states[k].cursor)
    {
      assert Grows(s, states[k]);
    }
  }

  lemma CursorMoveEnds(s: Store, room: Room, states: seq<Store>, seqs: seq<nat>, top: nat)
    requires Inv(s, room) && Sound(s, room, states) && !s.journal.tail.Unended? && AllPersisted(Last(s, states), seqs)
    requires s.cursor < top <= |room| && forall at | s.cursor < at <= top :: at in seqs
    ensures var done := Last(s, states); Ends(s, room, states + [done.(cursor := Max(done.cursor, top))])
  {
    hide Faithful;
    SoundEnds(s, room, states);
    var done := Last(s, states);
    var t := done.(cursor := Max(done.cursor, top));
    assert Grows(s, done) && done.cursor == s.cursor && Faithful(done, room);
    CursorIsApart(done, room, t.cursor);
    forall at | 1 <= at <= top
      ensures at in t.tasks && Persists(t.journal, at, t.tasks[at])
    {
      if at > s.cursor {
        assert at in seqs;
        var i :| 0 <= i < |seqs| && seqs[i] == at;
      }
    }
  }

  lemma CursorIsApart(s: Store, room: Room, cursor: nat)
    requires Faithful(s, room)
    ensures Faithful(s.(cursor := cursor), room)
  {
  }

  /** Every state of an ingest keeps the invariant, as long as the journal does not end in a line without newline. */
  lemma IngestEnds(s: Store, room: Room, o: Options)
    requires Inv(s, room) && !s.journal.tail.Unended?
    ensures Ends(s, room, Ingest(s, room, o).states)
  {
    hide Faithful, Covered, PersistAll, Highest, Read, Grows, Journaled;
    var since := if o.since.Some? then o.since.value else s.cursor;
    var view := Read(room, since);
    ReadShape(room, since);
    ReadIsInRoom(room, since);
    if view.last >= s.cursor {
      if view.first.Some? && view.first.value > s.cursor + 1 {
        AppendKeeps(s, room, RetentionGap(o.session, view.first.value));
        SoundEnds(s, room, Journaled(s, RetentionGap(o.session, view.first.value)).states);
      } else {
        PersistAllKeeps(s, room, view.seqs, o);
        var persisted := PersistAll(s, room, view.seqs, o);
        SoundEnds(s, room, persisted.states);
        HighestIsLast(s.cursor, view.seqs);
        var top := Highest(s.cursor, view.seqs);
        if persisted.result.Ok? && top > s.cursor {
          forall at | s.cursor < at <= top
            ensures at in view.seqs
          {
            assert view.seqs[at - view.seqs[0]] == at;
          }
          CursorMoveEnds(s, room, persisted.states, view.seqs, top);
        }
      }
    }
  }

  // ------------------------------------------------------------- one write at a time

  function Before(s: Store, states: seq<Store>, k: nat): Store
    requires k < |states|
  {
    if k == 0 then s else states[k - 1]
  }

  /** A write of the journal is a write of nothing else, and after a newline it adds a line. */
  ghost predicate Single(s: Store, states: seq<Store>) {
    forall k | 0 <= k < |states| :: Follows(Before(s, states, k), states[k])
  }

  ghost predicate Follows(s: Store, t: Store) {
    t.journal != s.journal ==>
      t == s.(journal := t.journal) && (!s.journal.tail.Unended? ==> t.journal.lines != [])
  }

  lemma SingleJoins(s: Store, a: seq<Store>, b: seq<Store>)
    requires Single(s, a) && Single(Last(s, a), b)
    ensures Single(s, a + b)
  {
    forall k | 0 <= k < |a + b|
      ensures Follows(Before(s, a + b, k), (a + b)[k])
    {
      if k < |a| {
        assert Before(s, a + b, k) == Before(s, a, k);
      } else {
        assert Before(s, a + b, k) == Before(Last(s, a), b, k - |a|);
      }
    }
  }

  lemma PersistOneSingle(s: Store, room: Room, at: nat, o: Options)
    requires 1 <= at <= |room|
    ensures Single(s, PersistOne(s, room, at, o).states)
  {
    hide TaskOf, HasEntry;
    var task := TaskOf(room, at, o);
    var queued := Enqueued(s, at, task);
    SingleJoins(s, queued.states, Journaled(Last(s, queued.states), Persisted(at, task)).states);
  }

  lemma {:induction false} PersistAllSingle(s: Store, room: Room, seqs: seq<nat>, o: Options)
    requires forall i | 0 <= i < |seqs| :: 1 <= seqs[i] <= |room|
    ensures Single(s, PersistAll(s, room, seqs, o).states)
    decreases |seqs|
  {
    hide PersistOne;
    if seqs != [] {
      var before := PersistAll(s, room, seqs[..|seqs| - 1], o);
      PersistAllSingle(s, room, seqs[..|seqs| - 1], o);
      PersistOneSingle(Last(s, before.states), room, seqs[|seqs| - 1], o);
      SingleJoins(s, before.states, PersistOne(Last(s, before.states), room, seqs[|seqs| - 1], o).states);
    }
  }

  lemma IngestSingle(s: Store, room: Room, o: Options)
    ensures Single(s, Ingest(s, room, o).states)
  {
    hide PersistAll, Highest, HasEntry, Read;
    var since := if o.since.Some? then o.since.value else s.cursor;
    var view := Read(room, since);
    ReadIsInRoom(room, since);
    PersistAllSingle(s, room, view.seqs, o);
    var persisted := PersistAll(s, room, view.seqs, o);
    var done := Last(s, persisted.states);
    SingleJoins(s, persisted.states, [done.(cursor := Max(done.cursor, Highest(s.cursor, view.seqs)))]);
  }

  // ------------------------------------------------- ingests on a line without its newline

  predicate HasLine(j: Journal, at: nat) {
    exists i :: 0 <= i < |j.lines| && j.lines[i].Persisted? && j.lines[i].at == at
  }

  /** The message's task is new, or the one it would get again. */
  predicate Agrees(s: Store, room: Room, at: nat, o: Options)
    requires 1 <= at <= |room|
  {
    at in s.tasks ==> s.tasks[at] == TaskOf(room, at, o)
  }

  predicate AllAgree(s: Store, room: Room, seqs: seq<nat>, o: Options)
    requires forall i | 0 <= i < |seqs| :: 1 <= seqs[i] <= |room|
  {
    forall i | 0 <= i < |seqs| :: Agrees(s, room, seqs[i], o)
  }

  /** The first of these messages without a line, unless a changed task stops the ingest before it. */
  function NextMessage(s: Store, room: Room, seqs: seq<nat>, o: Options): Option<Entry>
    requires forall i | 0 <= i < |seqs| :: 1 <= seqs[i] <= |room|
  {
    if seqs == [] then None
    else
      var at := seqs[|seqs| - 1];
      var before := NextMessage(s, room, seqs[..|seqs| - 1], o);
      if before.Some? || !AllAgree(s, room, seqs, o) || HasLine(s.journal, at) then before
      else Some(Persisted(at, TaskOf(room, at, o)))
  }

  /** The first line an ingest has to write, if any. */
  function NextLine(s: Store, room: Room, o: Options): Option<Entry> {
    var view := Read(room, if o.since.Some? then o.since.value else s.cursor);
    if view.last < s.cursor then None
    else if view.first.Some? && view.first.value > s.cursor + 1 then
      var gap := RetentionGap(o.session, view.first.value);
      if HasEntry(s.journal, gap) then None else Some(gap)
    else if !o.valid then None
    else
      ReadIsInRoom(room, if o.since.Some? then o.since.value else s.cursor);
      NextMessage(s, room, view.seqs, o)
  }

  /** How many writes come before that line: its task, when that is new. */
  function Delay(s: Store, e: Entry): nat {
    if e.Persisted? && e.at !in s.tasks then 1 else 0
  }

  /** The last line in the file is of a message the cursor has passed. */
  predicate LastIsAcknowledged(s: Store) {
    s.journal.lines != [] && var e := s.journal.lines[|s.journal.lines| - 1]; e.Persisted? && e.at <= s.cursor
  }

  /** With this line written, nothing is left to do but to move the cursor. */
  predicate IsLastStep(room: Room, o: Options, e: Entry) {
    e.Persisted? && e.at == |room| && o.afterPersist
  }

  /** The states of an ingest that writes `e` over the last line. */
  ghost predicate Overwrites(s: Store, room: Room, e: Entry, states: seq<Store>) {
    && |states| > Delay(s, e)
    && forall k | 0 <= k < |states| ::
         && Faithful(states[k], room) && states[k].cursor == s.cursor
         && states[k].journal == if k < Delay(s, e) then s.journal else Appended(s.journal, e)
  }

  /** With faithful stores, what is covered is a matter of lines. */
  lemma CoveredIsLines(s: Store, room: Room, upTo: nat)
    requires Faithful(s, room)
    ensures Covered(s, upTo) <==> forall at | 1 <= at <= upTo :: HasLine(s.journal, at)
  {
    forall at | HasLine(s.journal, at)
      ensures at in s.tasks && Persists(s.journal, at, s.tasks[at])
    {
      var i :| 0 <= i < |s.journal.lines| && s.journal.lines[i].Persisted? && s.journal.lines[i].at == at;
      assert s.journal.lines[i] == Persisted(at, s.tasks[at]);
    }
    forall at | at in s.tasks && Persists(s.journal, at, s.tasks[at])
      ensures HasLine(s.journal, at)
    {
      var i :| 0 <= i < |s.journal.lines| && s.journal.lines[i] == Persisted(at, s.tasks[at]);
    }
  }

  lemma LineIsEntry(j: Journal, at: nat, task: Task)
    ensures HasEntry(j, Persisted(at, task)) <==> HasLine(j, at)
  {
    if HasLine(j, at) {
      var i :| 0 <= i < |j.lines| && j.lines[i].Persisted? && j.lines[i].at == at;
      assert SameId(j.lines[i], Persisted(at, task));
    }
  }

  /** Writing over the last line loses it and the new one, and no other. */
  lemma OverwritingLoses(s: Store, room: Room, e: Entry, at: nat)
    requires Faithful(s, room) && s.journal.tail.Unended? && s.journal.lines != [] && !HasEntry(s.journal, e)
    ensures var last := s.journal.lines[|s.journal.lines| - 1];
      HasLine(Appended(s.journal, e), at) <==> HasLine(s.journal, at) && !(last.Persisted? && last.at == at)
    ensures Appended(s.journal, e).tail.Unreadable? && (e.Persisted? ==> !HasLine(Appended(s.journal, e), e.at))
  {
    var lines := s.journal.lines;
    var n := |lines| - 1;
    if e.Persisted? {
      LineIsEntry(s.journal, e.at, e.task);
    }
    if HasLine(s.journal, at) && !(lines[n].Persisted? && lines[n].at == at) {
      var i :| 0 <= i < |lines| && lines[i].Persisted? && lines[i].at == at;
      assert Appended(s.journal, e).lines[i] == lines[i];
    }
    if HasLine(Appended(s.journal, e), at) {
      var i :| 0 <= i < n && Appended(s.journal, e).lines[i].Persisted? && Appended(s.journal, e).lines[i].at == at;
      assert lines[i].Persisted? && lines[i].at == at && !SameId(lines[i], lines[n]);
    }
  }

  lemma ShorterIsFaithful(s: Store, room: Room, e: Entry)
    requires Faithful(s, room) && !s.journal.tail.Clean?
    ensures Faithful(s.(journal := Appended(s.journal, e)), room)
  {
  }

  lemma PersistOneUnended(s: Store, room: Room, at: nat, o: Options)
    requires Faithful(s, room) && s.journal.tail.Unended? && 1 <= at <= |room|
    ensures var t := PersistOne(s, room, at, o); var e := Persisted(at, TaskOf(room, at, o));
      && (!Agrees(s, room, at, o) ==> t.states == [] && t.result.Err?)
      && (Agrees(s, room, at, o) && HasLine(s.journal, at) ==> t.states == [] && t.result.Ok?)
      && (Agrees(s, room, at, o) && !HasLine(s.journal, at) ==>
            t.result.Ok? && Overwrites(s, room, e, t.states) && |t.states| == Delay(s, e) + 1)
  {
    hide Appended, HasEntry, HasLine;
    var task := TaskOf(room, at, o);
    LineIsEntry(s.journal, at, task);
    CoveredIsLines(s, room, at);
    var m := s.(tasks := s.tasks[at := task]);
    if HasLine(s.journal, at) {
      LineHasTask(s, room, at);
    } else if Agrees(s, room, at, o) {
      assert Faithful(m, room);
      ShorterIsFaithful(m, room, Persisted(at, task));
      assert at in s.tasks ==> m == s;
    }
  }

  lemma LineHasTask(s: Store, room: Room, at: nat)
    requires Faithful(s, room) && HasLine(s.journal, at)
    ensures at in s.tasks
  {
  }

  /** Nothing is appended to a file that cannot be read, and no cursor moves over it. */
  lemma PersistOneUnreadable(s: Store, room: Room, at: nat, o: Options)
    requires Faithful(s, room) && s.journal.tail.Unreadable? && 1 <= at <= |room|
    ensures var t := PersistOne(s, room, at, o);
      && t.result.Err?
      && forall k | 0 <= k < |t.states| ::
           Faithful(t.states[k], room) && t.states[k].journal == s.journal && t.states[k].cursor == s.cursor
  {
  }

  lemma {:induction false} PersistAllUnended(s: Store, room: Room, seqs: seq<nat>, o: Options)
    requires Faithful(s, room) && s.journal.tail.Unended?
    requires forall i | 0 <= i < |seqs| :: 1 <= seqs[i] <= |room|
    requires forall i, j | 0 <= i < j < |seqs| :: seqs[i] < seqs[j]
    ensures var t := PersistAll(s, room, seqs, o); var e := NextMessage(s, room, seqs, o);
      && (e.None? ==>
            && t.states == [] && (t.result.Ok? <==> AllAgree(s, room, seqs, o))
            && (t.result.Ok? ==> forall i | 0 <= i < |seqs| :: HasLine(s.journal, seqs[i])))
      && (e.Some? ==>
            && e.value.Persisted? && e.value.at in seqs && !HasEntry(s.journal, e.value) && !HasLine(s.journal, e.value.at)
            && Overwrites(s, room, e.value, t.states) && (t.result.Ok? <==> e.value.at == seqs[|seqs| - 1])
            && (t.result.Ok? ==> |t.states| == Delay(s, e.value) + 1 && AllAgree(s, room, seqs, o)
                                 && forall i | 0 <= i < |seqs| - 1 :: HasLine(s.journal, seqs[i])))
    decreases |seqs|
  {
    hide Faithful, PersistOne, TaskOf, HasLine, Delay, Appended, Agrees, HasEntry;
    if seqs != [] {
      var front, last := seqs[..|seqs| - 1], seqs[|seqs| - 1];
      assert forall i | 0 <= i < |front| :: front[i] == seqs[i];
      PersistAllUnended(s, room, front, o);
      var before := PersistAll(s, room, front, o);
      var e := NextMessage(s, room, front, o);
      assert AllAgree(s, room, seqs, o) <==> AllAgree(s, room, front, o) && Agrees(s, room, last, o);
      if e.None? {
        PersistOneUnended(s, room, last, o);
        LineIsEntry(s.journal, last, TaskOf(room, last, o));
      } else {
        assert e.value.at != last;
        if before.result.Ok? {
          AppendedIsUnreadable(s.journal, e.value);
          PersistOneUnreadable(Last(s, before.states), room, last, o);
        }
      }
    }
  }

  lemma AppendedIsUnreadable(j: Journal, e: Entry)
    requires !j.tail.Clean?
    ensures Appended(j, e).tail.Unreadable?
  {
  }

  lemma {:induction false} PersistAllUnreadable(s: Store, room: Room, seqs: seq<nat>, o: Options)
    requires Faithful(s, room) && s.journal.tail.Unreadable?
    requires forall i | 0 <= i < |seqs| :: 1 <= seqs[i] <= |room|
    ensures var t := PersistAll(s, room, seqs, o);
      && (t.result.Ok? <==> seqs == [])
      && forall k | 0 <= k < |t.states| ::
           Faithful(t.states[k], room) && t.states[k].journal == s.journal && t.states[k].cursor == s.cursor
    decreases |seqs|
  {
    hide Faithful, PersistOne, TaskOf;
    if seqs != [] {
      var front := seqs[..|seqs| - 1];
      PersistAllUnreadable(s, room, front, o);
      if front == [] {
        assert PersistAll(s, room, front, o).states == [];
        PersistOneUnreadable(s, room, seqs[|seqs| - 1], o);
      }
    }
  }

  /** What an ingest does to a journal that cannot be read: nothing, and the cursor stays. */
  lemma IngestUnreadable(s: Store, room: Room, o: Options)
    requires Faithful(s, room) && s.journal.tail.Unreadable?
    ensures forall k | 0 <= k < |Ingest(s, room, o).states| :: var x := Ingest(s, room, o).states[k];
      Faithful(x, room) && x.journal == s.journal && x.cursor == s.cursor
  {
    hide Faithful, PersistAll, Highest, Read;
    var since := if o.since.Some? then o.since.value else s.cursor;
    ReadShape(room, since);
    ReadIsInRoom(room, since);
    PersistAllUnreadable(s, room, Read(room, since).seqs, o);
    HighestIsLast(s.cursor, Read(room, since).seqs);
  }

  /** An ingest with no line to write leaves the journal alone, and acknowledges only what has its line. */
  lemma IngestQuiet(s: Store, room: Room, o: Options)
    requires Inv(s, room) && s.journal.tail.Unended? && NextLine(s, room, o).None?
    ensures forall k | 0 <= k < |Ingest(s, room, o).states| :: var x := Ingest(s, room, o).states[k];
      Inv(x, room) && x.journal == s.journal
  {
    hide Faithful, Covered, PersistAll, NextMessage, Highest, Read, HasLine;
    var since := if o.since.Some? then o.since.value else s.cursor;
    var view := Read(room, since);
    ReadShape(room, since);
    ReadIsInRoom(room, since);
    PersistAllUnended(s, room, view.seqs, o);
    HighestIsLast(s.cursor, view.seqs);
    var top := Highest(s.cursor, view.seqs);
    if view.last >= s.cursor && o.valid && PersistAll(s, room, view.seqs, o).result.Ok? && s.cursor < top <= |room| {
      CursorIsApart(s, room, top);
      CoveredIsLines(s, room, s.cursor);
      CoveredIsLines(s.(cursor := top), room, top);
      forall at | s.cursor < at <= top && view.first.Some? && view.first.value <= s.cursor + 1
        ensures HasLine(s.journal, at)
      {
        assert view.seqs[at - view.seqs[0]] == at;
      }
    }
  }

  /** An ingest with a line to write puts it over the last one, and then stops or acknowledges. */
  lemma IngestOverwrites(s: Store, room: Room, o: Options)
    requires Inv(s, room) && s.journal.tail.Unended? && NextLine(s, room, o).Some?
    ensures var e := NextLine(s, room, o).value; var d := Delay(s, e); var states := Ingest(s, room, o).states;
      && !HasEntry(s.journal, e) && |states| > d && (IsLastStep(room, o, e) ==> |states| == d + 2 && s.cursor < |room|)
      && forall k | 0 <= k < |states| ::
           && Faithful(states[k], room)
           && states[k].journal == (if k < d then s.journal else Appended(s.journal, e))
           && states[k].cursor == if k > d && IsLastStep(room, o, e) then |room| else s.cursor
  {
    hide Faithful, Covered, PersistAll, NextMessage, Highest, Read, HasLine, Appended, HasEntry;
    var since := if o.since.Some? then o.since.value else s.cursor;
    var view := Read(room, since);
    ReadShape(room, since);
    ReadIsInRoom(room, since);
    var e := NextLine(s, room, o).value;
    if view.first.Some? && view.first.value > s.cursor + 1 {
      ShorterIsFaithful(s, room, e);
    } else {
      PersistAllUnended(s, room, view.seqs, o);
      HighestIsLast(s.cursor, view.seqs);
      CoveredIsLines(s, room, s.cursor);
      var persisted := PersistAll(s, room, view.seqs, o);
      assert s.cursor < e.at <= |room|;
      if persisted.result.Ok? {
        CursorIsApart(Last(s, persisted.states), room, |room|);
      }
    }
  }

  // ------------------------------------------------------------------- theorems

  lemma RoomGrows(s: Store, room: Room, more: seq<Message>)
    requires Faithful(s, room)
    ensures Faithful(s, room + more)
  {
  }

  /** How the journal file ends is no concern of the invariant. */
  lemma TailIsApart(s: Store, room: Room, tail: Tail)
    requires Inv(s, room)
    ensures Inv(s.(journal := s.journal.(tail := tail)), room)
  {
    assert forall at, task :: Persists(s.journal.(tail := tail), at, task) == Persists(s.journal, at, task);
  }

  /** Faithful stores; an unended line is there. */
  ghost predicate Good(w: World) {
    && Faithful(w.store, w.room) && w.store.cursor <= |w.room|
    && (w.store.journal.tail.Unended? ==> w.store.journal.lines != [])
  }

  /** The attempt gets as far as its write number `k`, counted from zero; over an unended line even a torn write destroys. */
  predicate Reaches(a: Attempt, k: nat) {
    a.cut > k || (a.cut == k && !a.tear.Whole?)
  }

  /**
   An attempt is safe when the journal ends in a newline (or cannot be read, so that nothing is appended);
   or no line is to be written; or it stops before that line; or it stops before its cursor moves, and the
   line it wrote over was not acknowledged.
   */
  predicate Safe(w: World, a: Attempt) {
    var s, room, o := w.store, w.room + a.arrivals, a.options;
    s.journal.tail.Unended? ==>
      var e := NextLine(s, room, o);
      || e.None? || !Reaches(a, Delay(s, e.value))
      || (!LastIsAcknowledged(s) && !(IsLastStep(room, o, e.value) && a.cut >= Delay(s, e.value) + 2))
  }

  lemma AfterReadable(w: World, a: Attempt)
    requires Good(w) && Covered(w.store, w.store.cursor) && !w.store.journal.tail.Unended?
    ensures Good(After(w, a)) && Covered(After(w, a).store, After(w, a).store.cursor)
  {
    hide Faithful, Covered, Ingest, Grows;
    var room := w.room + a.arrivals;
    RoomGrows(w.store, w.room, a.arrivals);
    IngestEnds(w.store, room, a.options);
    IngestSingle(w.store, room, a.options);
    var states := Ingest(w.store, room, a.options).states;
    if a.cut < |states| {
      var s := Last(w.store, states[..a.cut]);
      assert s == Before(w.store, states, a.cut);
      TailIsApart(s, room, Unreadable);
      TailIsApart(states[a.cut], room, Unended);
    }
  }

  /** Once acknowledged messages have lost their lines they never get them back. */
  lemma AfterUnreadable(w: World, a: Attempt)
    requires Good(w) && w.store.journal.tail.Unreadable?
    ensures var v := After(w, a); Good(v) && v.store.journal == w.store.journal && v.store.cursor == w.store.cursor
  {
    hide Faithful, Ingest;
    var room := w.room + a.arrivals;
    RoomGrows(w.store, w.room, a.arrivals);
    IngestUnreadable(w.store, room, a.options);
  }

  /** Where an attempt that has a line to write over the last one is left by its crash. */
  lemma AttemptOverwrites(w: World, a: Attempt, e: Entry)
    requires Good(w) && Covered(w.store, w.store.cursor) && w.store.journal.tail.Unended?
    requires NextLine(w.store, w.room + a.arrivals, a.options) == Some(e)
    ensures var s, room, t, d := w.store, w.room + a.arrivals, After(w, a).store, Delay(w.store, e);
      && Faithful(t, room) && !HasEntry(s.journal, e)
      && t.journal == (if Reaches(a, d) then Appended(s.journal, e) else s.journal)
      && t.cursor == (if IsLastStep(room, a.options, e) && a.cut >= d + 2 then |room| else s.cursor)
      && (IsLastStep(room, a.options, e) ==> s.cursor < |room|)
  {
    hide Faithful, Covered, Ingest, NextLine, HasEntry;
    var s, room, d := w.store, w.room + a.arrivals, Delay(w.store, e);
    RoomGrows(s, w.room, a.arrivals);
    IngestOverwrites(s, room, a.options);
    var states := Ingest(s, room, a.options).states;
    assert Appended(s.journal, e) != s.journal;
    if a.cut < |states| {
      assert Last(s, states[..a.cut]) == Before(s, states, a.cut);
    }
  }

  /** An attempt on an unended line keeps what was acknowledged exactly when it is safe. */
  lemma AfterUnended(w: World, a: Attempt)
    requires Good(w) && Covered(w.store, w.store.cursor) && w.store.journal.tail.Unended?
    ensures var s := After(w, a).store;
      Good(After(w, a)) && (Covered(s, s.cursor) <==> Safe(w, a)) && (!Covered(s, s.cursor) ==> s.journal.tail.Unreadable?)
  {
    hide Faithful, Covered, Ingest, NextLine, Appended, HasLine, HasEntry;
    var s, room, o := w.store, w.room + a.arrivals, a.options;
    RoomGrows(s, w.room, a.arrivals);
    var t := After(w, a).store;
    CoveredIsLines(s, room, s.cursor);
    if NextLine(s, room, o).None? {
      IngestQuiet(s, room, o);
    } else {
      var e := NextLine(s, room, o).value;
      IngestOverwrites(s, room, o);
      AppendedIsUnreadable(s.journal, e);
      IngestSingle(s, room, o);
      AttemptOverwrites(w, a, e);
      CoveredIsLines(t, room, t.cursor);
      var last := s.journal.lines[|s.journal.lines| - 1];
      if Reaches(a, Delay(s, e)) {
        forall at
          ensures HasLine(t.journal, at) <==> HasLine(s.journal, at) && !(last.Persisted? && last.at == at)
        {
          OverwritingLoses(s, room, e, at);
        }
        LastIsPlaced(s, room);
        if t.cursor != s.cursor {
          OverwritingLoses(s, room, e, |room|);
          assert !HasLine(t.journal, |room|);
        } else if LastIsAcknowledged(s) {
          assert !HasLine(t.journal, last.at);
        }
      }
    }
  }

  lemma LastIsPlaced(s: Store, room: Room)
    requires Faithful(s, room) && s.journal.lines != []
    ensures var last := s.journal.lines[|s.journal.lines| - 1]; last.Persisted? ==> 1 <= last.at <= |room|
  {
  }

  ghost predicate AllSafe(runs: seq<Attempt>) {
    forall k | 0 <= k < |runs| :: Safe(AfterAll(runs[..k]), runs[k])
  }

  lemma {:induction false} CoveredAfterAll(runs: seq<Attempt>)
    ensures var w := AfterAll(runs); var covered := Covered(w.store, w.store.cursor);
      Good(w) && (covered <==> AllSafe(runs)) && (!covered ==> w.store.journal.tail.Unreadable?)
    decreases |runs|
  {
    hide Faithful, After, Covered, Safe;
    if runs == [] {
      EmptyIsGood();
    } else {
      var front, a := runs[..|runs| - 1], runs[|runs| - 1];
      var w := AfterAll(front);
      CoveredAfterAll(front);
      assert forall k | 0 <= k < |front| :: front[..k] == runs[..k];
      assert AllSafe(runs) <==> AllSafe(front) && Safe(w, a);
      if w.store.journal.tail.Unended? {
        AfterUnended(w, a);
      } else {
        EndedIsSafe(w, a);
        if Covered(w.store, w.store.cursor) {
          AfterReadable(w, a);
        } else {
          AfterUnreadable(w, a);
          StillUncovered(w, After(w, a));
        }
      }
    }
  }

  lemma EmptyIsGood()
    ensures Good(Empty) && Covered(Empty.store, Empty.store.cursor)
  {
  }

  lemma EndedIsSafe(w: World, a: Attempt)
    requires !w.store.journal.tail.Unended?
    ensures Safe(w, a)
  {
  }

  lemma StillUncovered(w: World, v: World)
    requires Good(w) && Good(v) && v.store.journal == w.store.journal && v.store.cursor == w.store.cursor
    ensures Covered(v.store, v.store.cursor) <==> Covered(w.store, w.store.cursor)
  {
    hide Faithful, Covered;
    CoveredIsLines(w.store, w.room, w.store.cursor);
    CoveredIsLines(v.store, v.room, v.store.cursor);
  }

  /** The message has its one task and its one journal line, and both are of that message. */
  ghost predicate IsKept(w: World, at: nat) {
    && 1 <= at <= |w.room| && at in w.store.tasks
    && w.store.tasks[at].payload.at == at && w.store.tasks[at].payload.message == w.room[at - 1]
    && exists i :: 0 <= i < |w.store.journal.lines| && w.store.journal.lines[i] == Persisted(at, w.store.tasks[at])
         && forall j | 0 <= j < |w.store.journal.lines| && j != i ::
              !SameId(w.store.journal.lines[j], Persisted(at, w.store.tasks[at]))
  }

  lemma KeptIsCovered(w: World)
    requires Good(w)
    ensures Covered(w.store, w.store.cursor) <==> forall at | 1 <= at <= w.store.cursor :: IsKept(w, at)
  {
    var lines := w.store.journal.lines;
    if Covered(w.store, w.store.cursor) {
      forall at | 1 <= at <= w.store.cursor
        ensures IsKept(w, at)
      {
        assert Persists(w.store.journal, at, w.store.tasks[at]);
        var i :| 0 <= i < |lines| && lines[i] == Persisted(at, w.store.tasks[at]);
        forall j | 0 <= j < |lines| && j != i
          ensures !SameId(lines[j], Persisted(at, w.store.tasks[at]))
        {
          assert !SameId(lines[if i < j then i else j], lines[if i < j then j else i]);
        }
      }
    }
    if forall at | 1 <= at <= w.store.cursor :: IsKept(w, at) {
      forall at | 1 <= at <= w.store.cursor
        ensures at in w.store.tasks && Persists(w.store.journal, at, w.store.tasks[at])
      {
        assert IsKept(w, at);
      }
    }
  }

  /**
   Whatever the order of arrivals, crashes and repeated ingests: every message up to the cursor has its one
   task and its one journal line, both of that message, exactly when every attempt was safe.
   */
  lemma {:induction false} EveryAcknowledgedMessageIsKept(runs: seq<Attempt>)
    ensures var w := AfterAll(runs);
      (forall at | 1 <= at <= w.store.cursor :: IsKept(w, at)) <==> AllSafe(runs)
  {
    hide AfterAll, AllSafe, Good, Covered, IsKept;
    CoveredAfterAll(runs);
    KeptIsCovered(AfterAll(runs));
  }

  /** Safe or not: every task and every readable line is of its message, and no message has two of either. */
  lemma {:induction false} NothingIsForged(runs: seq<Attempt>)
    ensures var w := AfterAll(runs);
      && Faithful(w.store, w.room) && w.store.cursor <= |w.room|
  {
    hide AfterAll, AllSafe, Faithful, Covered;
    CoveredAfterAll(runs);
  }

  /**
   A completed ingest keeps every acknowledged message exactly when its journal did not end in a line without
   newline, or no message it read was still without a line.
   */
  lemma IngestKeepsIff(s: Store, room: Room, o: Options)
    requires Inv(s, room) && Ingest(s, room, o).result.Ok?
    requires s.journal.tail.Unended? ==> s.journal.lines != []
    ensures var view := Read(room, if o.since.Some? then o.since.value else s.cursor);
      Inv(Last(s, Ingest(s, room, o).states), room) <==>
        (s.journal.tail.Unended? ==> forall i | 0 <= i < |view.seqs| :: HasLine(s.journal, view.seqs[i]))
  {
    hide Faithful, Covered, Read, HasLine, HasEntry, NextMessage, Appended;
    var states := Ingest(s, room, o).states;
    if !s.journal.tail.Unended? {
      IngestEnds(s, room, o);
    } else {
      NextLineOfRead(s, room, o);
      var e := NextLine(s, room, o);
      if e.None? {
        IngestQuiet(s, room, o);
      } else {
        IngestOverwrites(s, room, o);
        OverwritingLoses(s, room, e.value, |room|);
        CoveredIsLines(Last(s, states), room, |room|);
      }
    }
  }

  /** Of an ingest that succeeds on an unended line, the line to write is of the last message. */
  lemma NextLineOfRead(s: Store, room: Room, o: Options)
    requires Inv(s, room) && s.journal.tail.Unended? && Ingest(s, room, o).result.Ok?
    ensures var view := Read(room, if o.since.Some? then o.since.value else s.cursor); var e := NextLine(s, room, o);
      && (e.None? <==> forall i | 0 <= i < |view.seqs| :: HasLine(s.journal, view.seqs[i]))
      && (e.Some? ==> IsLastStep(room, o, e.value))
  {
    hide Faithful, Covered, PersistAll, NextMessage, Read, HasLine, Highest;
    var since := if o.since.Some? then o.since.value else s.cursor;
    ReadShape(room, since);
    ReadIsInRoom(room, since);
    PersistAllUnended(s, room, Read(room, since).seqs, o);
  }

  /** What goes wrong otherwise: the line and the next one run together, and the cursor passes both. */
  lemma CutNewlineLosesLines()
    ensures var o := Options(None, "s", _ => None, None, true, true);
      var m := Message("did", "text", 1);
      var runs := [Attempt([m], o, 1, CutNewline), Attempt([m], o, 9, Whole)];
      var s := AfterAll(runs).store;
      s.cursor == 2 && s.journal.tail.Unreadable? && forall task :: !Persists(s.journal, 1, task) && !Persists(s.journal, 2, task)
  {
    var o := Options(None, "s", _ => None, None, true, true);
    var m := Message("did", "text", 1);
    var a1, a2 := Attempt([m], o, 1, CutNewline), Attempt([m], o, 9, Whole);
    var runs := [a1, a2];
    assert runs[..1] == [a1] && [a1][..0] == [];
    var t1, t2 := Task(Inbound, Payload(1, m, None)), Task(Inbound, Payload(2, m, None));
    var s1 := Store(map[1 := t1], Journal([Persisted(1, t1)], Unended), 0);
    FirstRun(o, m);
    assert AfterAll([a1]) == World([m], s1);
    SecondRun(o, m);
  }

  lemma FirstIngest(o: Options, m: Message)
    requires o == Options(None, "s", o.contact, None, true, true) && forall x :: o.contact(x) == None
    ensures var t1 := Task(Inbound, Payload(1, m, None));
      var s1 := Empty.store.(tasks := map[1 := t1]);
      var s2 := s1.(journal := Journal([Persisted(1, t1)], Clean));
      Ingest(Empty.store, [m], o).states == [s1, s2, s2.(cursor := 1)]
  {
    var room, t1 := [m], Task(Inbound, Payload(1, m, None));
    var s0 := Empty.store;
    var s1 := s0.(tasks := map[1 := t1]);
    var s2 := s1.(journal := Journal([Persisted(1, t1)], Clean));
    assert Read(room, 0).seqs == [1] && [1][..0] == [];
    assert s0.tasks[1 := t1] == map[1 := t1] && [] + [Persisted(1, t1)] == [Persisted(1, t1)];
    FirstMessage(o, m);
    assert PersistAll(s0, room, [1], o).states == [s1, s2];
    assert Highest(0, [1]) == 1;
  }

  lemma FirstMessage(o: Options, m: Message)
    requires o == Options(None, "s", o.contact, None, true, true) && forall x :: o.contact(x) == None
    ensures var t1 := Task(Inbound, Payload(1, m, None));
      var s1 := Empty.store.(tasks := map[1 := t1]);
      PersistOne(Empty.store, [m], 1, o) == Trace([s1, s1.(journal := Journal([Persisted(1, t1)], Clean))], Ok(()))
  {
    var t1 := Task(Inbound, Payload(1, m, None));
    assert TaskOf([m], 1, o) == t1 && Empty.store.tasks[1 := t1] == map[1 := t1];
    assert [] + [Persisted(1, t1)] == [Persisted(1, t1)];
    var s1 := Empty.store.(tasks := map[1 := t1]);
    var s2 := s1.(journal := Journal([Persisted(1, t1)], Clean));
    assert Journaled(s1, Persisted(1, t1)).states == [s2];
    assert PersistOne(Empty.store, [m], 1, o).states == [s1, s2];
  }

  lemma FirstRun(o: Options, m: Message)
    requires o == Options(None, "s", o.contact, None, true, true) && forall x :: o.contact(x) == None
    ensures var t1 := Task(Inbound, Payload(1, m, None));
      After(Empty, Attempt([m], o, 1, CutNewline)) == World([m], Store(map[1 := t1], Journal([Persisted(1, t1)], Unended), 0))
  {
    hide Ingest;
    FirstIngest(o, m);
    assert [] + [m] == [m];
  }

  lemma SecondMessages(o: Options, m: Message)
    requires o == Options(None, "s", o.contact, None, true, true) && forall x :: o.contact(x) == None
    ensures var t1, t2 := Task(Inbound, Payload(1, m, None)), Task(Inbound, Payload(2, m, None));
      var s1 := Store(map[1 := t1], Journal([Persisted(1, t1)], Unended), 0);
      var s2 := s1.(tasks := s1.tasks[2 := t2]);
      && PersistOne(s1, [m, m], 1, o) == Trace([], Ok(()))
      && PersistOne(s1, [m, m], 2, o) == Trace([s2, s2.(journal := Journal([], Unreadable))], Ok(()))
  {
    var t1, t2 := Task(Inbound, Payload(1, m, None)), Task(Inbound, Payload(2, m, None));
    var s1 := Store(map[1 := t1], Journal([Persisted(1, t1)], Unended), 0);
    var room := [m, m];
    assert TaskOf(room, 1, o) == t1 && TaskOf(room, 2, o) == t2 && SameId(s1.journal.lines[0], Persisted(1, t1));
    var s2 := s1.(tasks := s1.tasks[2 := t2]);
    assert PersistOne(s1, room, 2, o).states == [s2, s2.(journal := Journal([], Unreadable))];
  }

  lemma SecondIngest(o: Options, m: Message)
    requires o == Options(None, "s", o.contact, None, true, true) && forall x :: o.contact(x) == None
    ensures var t1, t2 := Task(Inbound, Payload(1, m, None)), Task(Inbound, Payload(2, m, None));
      var s1 := Store(map[1 := t1], Journal([Persisted(1, t1)], Unended), 0);
      var s2 := s1.(tasks := s1.tasks[2 := t2]);
      var s3 := s2.(journal := Journal([], Unreadable));
      Ingest(s1, [m, m], o).states == [s2, s3, s3.(cursor := 2)]
  {
    var t1, t2 := Task(Inbound, Payload(1, m, None)), Task(Inbound, Payload(2, m, None));
    var s1 := Store(map[1 := t1], Journal([Persisted(1, t1)], Unended), 0);
    var room := [m, m];
    SecondMessages(o, m);
    assert Read(room, 0).seqs == [1, 2];
    hide PersistOne, Read;
    assert [1, 2][..1] == [1] && [1][..0] == [];
    assert PersistAll(s1, room, [], o) == Trace([], Ok(()));
    assert PersistAll(s1, room, [1], o) == Trace([], Ok(()));
    assert Highest(0, [1]) == 1 && Highest(0, [1, 2]) == 2;
    ReadShape(room, 0);
  }

  lemma SecondRun(o: Options, m: Message)
    requires o == Options(None, "s", o.contact, None, true, true) && forall x :: o.contact(x) == None
    ensures var t1, t2 := Task(Inbound, Payload(1, m, None)), Task(Inbound, Payload(2, m, None));
      var s1 := Store(map[1 := t1], Journal([Persisted(1, t1)], Unended), 0);
      After(World([m], s1), Attempt([m], o, 9, Whole)).store == Store(map[1 := t1, 2 := t2], Journal([], Unreadable), 2)
  {
    hide Ingest;
    SecondIngest(o, m);
    assert [m] + [m] == [m, m];
  }

  /** A backlog larger than the window leaves the cursor where it is, in every state, and is reported. */
  lemma OverflowLeavesTheCursor(s: Store, room: Room, o: Options)
    requires o.since.None? && |room| > s.cursor + WINDOW
    ensures Ingest(s, room, o).result.Err?
    ensures forall x | x in Ingest(s, room, o).states :: x.cursor == s.cursor && x.tasks == s.tasks
  {
    ReadShape(room, s.cursor);
    hide Read;
  }

  // ---------------------------------------------------------------------- progress

  /** Taking in one message says nothing about the tasks of others. */
  lemma PersistOneOnly(s: Store, room: Room, at: nat, o: Options, other: nat)
    requires 1 <= at <= |room| && other != at
    ensures var e := Last(s, PersistOne(s, room, at, o).states);
      (other in e.tasks <==> other in s.tasks) && (other in s.tasks ==> e.tasks[other] == s.tasks[other])
  {
    hide TaskOf, Append;
  }

  lemma {:induction false} PersistAllOnly(s: Store, room: Room, seqs: seq<nat>, o: Options, other: nat)
    requires (forall i | 0 <= i < |seqs| :: 1 <= seqs[i] <= |room|) && other !in seqs
    ensures var e := Last(s, PersistAll(s, room, seqs, o).states);
      (other in e.tasks <==> other in s.tasks) && (other in s.tasks ==> e.tasks[other] == s.tasks[other])
    decreases |seqs|
  {
    hide PersistOne;
    if seqs != [] {
      PersistAllOnly(s, room, seqs[..|seqs| - 1], o, other);
      PersistOneOnly(Last(s, PersistAll(s, room, seqs[..|seqs| - 1], o).states), room, seqs[|seqs| - 1], o, other);
    }
  }

  lemma {:induction false} PersistAllSucceeds(s: Store, room: Room, seqs: seq<nat>, o: Options)
    requires Faithful(s, room) && s.journal.tail.Clean?
    requires forall i | 0 <= i < |seqs| :: 1 <= seqs[i] <= |room|
    requires forall i, j | 0 <= i < j < |seqs| :: seqs[i] < seqs[j]
    ensures PersistAll(s, room, seqs, o).result.Ok? <==> forall i | 0 <= i < |seqs| :: Agrees(s, room, seqs[i], o)
    decreases |seqs|
  {
    hide Faithful, PersistOne, TaskOf, Sound;
    if seqs != [] {
      var front, last := seqs[..|seqs| - 1], seqs[|seqs| - 1];
      var before := PersistAll(s, room, front, o);
      PersistAllSucceeds(s, room, front, o);
      PersistAllKeeps(s, room, front, o);
      PersistOneKeeps(Last(s, before.states), room, last, o);
      PersistAllOnly(s, room, front, o, last);
      assert forall i | 0 <= i < |front| :: front[i] == seqs[i];
      assert Agrees(Last(s, before.states), room, last, o) <==> Agrees(s, room, last, o);
    }
  }

  /** What the end of the journal file lets an ingest write: anything, one last line, or nothing. */
  ghost predicate JournalAdmits(s: Store, room: Room) {
    match s.journal.tail
    case Clean => true
    case Unended => forall at | s.cursor < at < |room| :: HasLine(s.journal, at)
    case Unreadable => s.cursor == |room|
  }

  /**
   An uninterrupted ingest succeeds exactly when the backlog fits the window, the host accepts it, no message
   already has a different task, and the journal admits its lines; and then the cursor is at the end of the room.
   */
  lemma IngestCatchesUp(s: Store, room: Room, o: Options)
    requires Inv(s, room) && o.since.None?
    ensures Ingest(s, room, o).result.Ok? <==>
      && |room| <= s.cursor + WINDOW && o.valid && o.afterPersist && JournalAdmits(s, room)
      && forall at | s.cursor < at <= |room| :: Agrees(s, room, at, o)
    ensures Ingest(s, room, o).result.Ok? ==> Last(s, Ingest(s, room, o).states).cursor == |room|
  {
    hide Faithful, Covered, PersistAll, Highest, Read, TaskOf, HasLine, NextMessage, Overwrites;
    ReadShape(room, s.cursor);
    ReadIsInRoom(room, s.cursor);
    var seqs := Read(room, s.cursor).seqs;
    if |room| <= s.cursor + WINDOW {
      PersistWindowSucceeds(s, room, o);
      HighestIsLast(s.cursor, seqs);
    }
  }

  lemma {:induction false} PersistWindowSucceeds(s: Store, room: Room, o: Options)
    requires Inv(s, room) && |room| <= s.cursor + WINDOW
    requires var seqs := Read(room, s.cursor).seqs; forall i | 0 <= i < |seqs| :: 1 <= seqs[i] <= |room|
    ensures var t := PersistAll(s, room, Read(room, s.cursor).seqs, o);
      && (t.result.Ok? <==> JournalAdmits(s, room) && forall at | s.cursor < at <= |room| :: Agrees(s, room, at, o))
      && Last(s, t.states).cursor == s.cursor
  {
    hide Faithful, Covered, PersistAll, Read, TaskOf, HasLine, NextMessage, Delay, Agrees;
    ReadShape(room, s.cursor);
    var seqs := Read(room, s.cursor).seqs;
    assert |seqs| == |room| - s.cursor && forall i | 0 <= i < |seqs| :: seqs[i] == s.cursor + 1 + i;
    if AllAgree(s, room, seqs, o) {
      forall at | s.cursor < at <= |room|
        ensures Agrees(s, room, at, o)
      {
        assert Agrees(s, room, seqs[at - s.cursor - 1], o);
      }
    }
    match s.journal.tail
    case Clean =>
      PersistAllSucceeds(s, room, seqs, o);
      PersistAllKeeps(s, room, seqs, o);
      SoundCursor(s, room, PersistAll(s, room, seqs, o).states);
    case Unended =>
      PersistAllUnended(s, room, seqs, o);
      forall at | s.cursor < at < |room| && PersistAll(s, room, seqs, o).result.Ok?
        ensures HasLine(s.journal, at)
      {
        assert HasLine(s.journal, seqs[at - s.cursor - 1]);
      }
    case Unreadable =>
      PersistAllUnreadable(s, room, seqs, o);
  }

  lemma SoundCursor(s: Store, room: Room, states: seq<Store>)
    requires Sound(s, room, states)
    ensures Last(s, states).cursor == s.cursor
  {
    hide Faithful;
  }

  // ---------------------------------------------------------------- what is made of what

  /** What a message is made into: work with the host's objective, or an inbound message with the contact known for its sender. */
  predicate MadeFrom(t: Task, room: Room, at: nat, o: Options)
    requires 1 <= at <= |room|
  {
    && t.payload.at == at && t.payload.message == room[at - 1]
    && (o.objective.None? ==> t.kind.Inbound? && t.payload.contact == o.contact(room[at - 1].from))
    && (o.objective.Some? ==> t.kind == Collaboration(o.objective.value) && t.payload.contact.None?)
  }

  /** An ingest that succeeds has made exactly that of every message it acknowledged, and of nothing else. */
  lemma IngestMakesTasks(s: Store, room: Room, o: Options)
    requires Inv(s, room) && o.since.None? && !s.journal.tail.Unended? && Ingest(s, room, o).result.Ok?
    ensures var e := Last(s, Ingest(s, room, o).states);
      && e.cursor == |room|
      && (forall at | s.cursor < at <= |room| :: at in e.tasks && MadeFrom(e.tasks[at], room, at, o) && HasLine(e.journal, at))
      && (forall at | at in e.tasks && at !in s.tasks :: s.cursor < at <= |room|)
  {
    hide Inv, Faithful, Covered, Ingest, HasLine, MadeFrom;
    IngestCatchesUp(s, room, o);
    LastInv(s, room, o);
    var e := Last(s, Ingest(s, room, o).states);
    InvGives(e, room);
    CoveredIsLines(e, room, e.cursor);
    forall at | s.cursor < at <= |room|
      ensures at in e.tasks && MadeFrom(e.tasks[at], room, at, o)
    {
      IngestedTask(s, room, o, at);
    }
    forall at | at in e.tasks && at !in s.tasks
      ensures s.cursor < at <= |room|
    {
      if !(s.cursor < at <= |room|) {
        IngestLeavesTask(s, room, o, at);
      }
    }
  }

  /** The messages that a successful ingest reads, and the tasks it ends with. */
  lemma {:induction false} IngestReads(s: Store, room: Room, o: Options)
    requires s.cursor <= |room| && o.since.None? && Ingest(s, room, o).result.Ok?
    ensures var seqs := Read(room, s.cursor).seqs;
      && |seqs| == |room| - s.cursor && (forall i | 0 <= i < |seqs| :: seqs[i] == s.cursor + 1 + i)
      && PersistAll(s, room, seqs, o).result.Ok?
      && Last(s, Ingest(s, room, o).states).tasks == Last(s, PersistAll(s, room, seqs, o).states).tasks
  {
    hide PersistAll, Highest, Read;
    ReadShape(room, s.cursor);
    ReadIsInRoom(room, s.cursor);
  }

  lemma IngestedTask(s: Store, room: Room, o: Options, at: nat)
    requires Inv(s, room) && o.since.None? && Ingest(s, room, o).result.Ok? && s.cursor < at <= |room|
    ensures var e := Last(s, Ingest(s, room, o).states); at in e.tasks && MadeFrom(e.tasks[at], room, at, o)
  {
    hide Inv, Faithful, Covered, Ingest, Read, PersistAll;
    InvGives(s, room);
    IngestReads(s, room, o);
    PersistedTask(s, room, Read(room, s.cursor).seqs, o, at - s.cursor - 1);
  }

  lemma IngestLeavesTask(s: Store, room: Room, o: Options, at: nat)
    requires Inv(s, room) && o.since.None? && Ingest(s, room, o).result.Ok? && !(s.cursor < at <= |room|)
    ensures at in Last(s, Ingest(s, room, o).states).tasks <==> at in s.tasks
  {
    hide Inv, Faithful, Covered, Ingest, Read, PersistAll;
    InvGives(s, room);
    IngestReads(s, room, o);
    PersistAllOnly(s, room, Read(room, s.cursor).seqs, o, at);
  }

  lemma InvGives(s: Store, room: Room)
    requires Inv(s, room)
    ensures Faithful(s, room) && Covered(s, s.cursor) && s.cursor <= |room|
  {
  }

  lemma LastInv(s: Store, room: Room, o: Options)
    requires Inv(s, room) && !s.journal.tail.Unended?
    ensures Inv(Last(s, Ingest(s, room, o).states), room)
  {
    hide Inv, Grows, Ingest;
    IngestEnds(s, room, o);
  }

  /** The task of each message of a window that was persisted whole. */
  lemma {:induction false} PersistedTask(s: Store, room: Room, seqs: seq<nat>, o: Options, i: nat)
    requires i < |seqs| && forall j | 0 <= j < |seqs| :: 1 <= seqs[j] <= |room|
    requires forall j, k | 0 <= j < k < |seqs| :: seqs[j] < seqs[k]
    requires PersistAll(s, room, seqs, o).result.Ok?
    ensures var e := Last(s, PersistAll(s, room, seqs, o).states);
      seqs[i] in e.tasks && e.tasks[seqs[i]] == TaskOf(room, seqs[i], o)
    decreases |seqs|
  {
    hide TaskOf, Journaled;
    var front, last := seqs[..|seqs| - 1], seqs[|seqs| - 1];
    assert forall j | 0 <= j < |front| :: front[j] == seqs[j];
    var m := Last(s, PersistAll(s, room, front, o).states);
    if i < |front| {
      PersistedTask(s, room, front, o, i);
      PersistOneOnly(m, room, last, o, seqs[i]);
    } else {
      JournalKeepsTasks(Last(m, Enqueued(m, last, TaskOf(room, last, o)).states), Persisted(last, TaskOf(room, last, o)));
    }
  }

  lemma JournalKeepsTasks(s: Store, e: Entry)
    ensures Last(s, Journaled(s, e).states).tasks == s.tasks
  {
  }

  /** Why an ingest refuses: each reason exactly when it is the first that applies, and a gap is noted in the journal. */
  lemma IngestRefuses(s: Store, room: Room, o: Options)
    requires Inv(s, room)
    ensures var t := Ingest(s, room, o); var view := Read(room, if o.since.Some? then o.since.value else s.cursor);
      var back := view.last < s.cursor;
      var gap := !back && view.first.Some? && view.first.value > s.cursor + 1;
      && (t.result == Err(EpochChanged) <==> back)
      && (t.result == Err(Gap) <==> gap && !s.journal.tail.Unreadable?)
      && (t.result == Err(Gap) && s.journal.tail.Clean? ==>
            HasEntry(Last(s, t.states).journal, RetentionGap(o.session, view.first.value)))
      && (gap && s.journal.tail.Unreadable? ==> t == Trace([], Err(JournalInvalid)))
      && (!back && !gap && !o.valid ==> t == Trace([], Err(Refused)))
      && (t.result == Err(KeyReused) ==> exists i :: 0 <= i < |view.seqs| && 1 <= view.seqs[i] <= |room| && !Agrees(s, room, view.seqs[i], o))
  {
    var since := if o.since.Some? then o.since.value else s.cursor;
    var view := Read(room, since);
    ReadShape(room, since);
    ReadIsInRoom(room, since);
    if view.first.Some? {
      NotedGap(s, RetentionGap(o.session, view.first.value));
    }
    hide Inv, Read, Append;
    if !(view.last < s.cursor) && !(view.first.Some? && view.first.value > s.cursor + 1) {
      PersistFails(s, room, view.seqs, o);
    }
  }

  lemma NotedGap(s: Store, e: Entry)
    ensures var t := Journaled(s, e);
      && (t.result.Ok? <==> !s.journal.tail.Unreadable?) && (t.result.Err? ==> t == Trace([], Err(JournalInvalid)))
      && (s.journal.tail.Clean? ==> HasEntry(Last(s, t.states).journal, e))
  {
    if s.journal.tail.Clean? && !HasEntry(s.journal, e) {
      var lines := s.journal.lines + [e];
      assert lines[|s.journal.lines|] == e && SameId(e, e);
    }
  }

  /** A window is refused for a task that a message already had, and for an unreadable journal, and for nothing else. */
  lemma {:induction false} PersistFails(s: Store, room: Room, seqs: seq<nat>, o: Options)
    requires forall j | 0 <= j < |seqs| :: 1 <= seqs[j] <= |room|
    requires forall j, k | 0 <= j < k < |seqs| :: seqs[j] < seqs[k]
    ensures var t := PersistAll(s, room, seqs, o);
      && (t.result.Err? ==> t.result.error.KeyReused? || t.result.error.JournalInvalid?)
      && (t.result == Err(KeyReused) ==> exists i :: 0 <= i < |seqs| && !Agrees(s, room, seqs[i], o))
    decreases |seqs|
  {
    hide TaskOf, Append;
    if seqs != [] {
      var front, last := seqs[..|seqs| - 1], seqs[|seqs| - 1];
      assert forall j | 0 <= j < |front| :: front[j] == seqs[j];
      PersistFails(s, room, front, o);
      var before := PersistAll(s, room, front, o);
      if before.result.Ok? {
        PersistAllOnly(s, room, front, o, last);
        if PersistAll(s, room, seqs, o).result == Err(KeyReused) {
          assert !Agrees(s, room, seqs[|front|], o);
        }
      } else if before.result == Err(KeyReused) {
        var i :| 0 <= i < |front| && !Agrees(s, room, front[i], o);
        assert !Agrees(s, room, seqs[i], o);
      }
    }
  }
}
