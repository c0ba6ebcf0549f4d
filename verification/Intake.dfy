/**
 Taking in a mailbox: a task, a journal line and then the cursor for every message, over an append-only
 room. The journal is a text file of lines; a crash may cut its last line short, or off its newline.
 */
module Intake {
  import opened Wrappers

  datatype Message = Message(from: string, text: string, nonce: nat)

  /** A room is the sequence of its messages; the first one has sequence number 1. */
  type Room = seq<Message>

  datatype Kind = Inbound | Collaboration(objective: string)
  /** What is made of a message; the contact is the one known when it is taken in. */
  datatype Payload = Payload(at: nat, message: Message, contact: Option<string>)
  datatype Task = Task(kind: Kind, payload: Payload)

  datatype Entry = Persisted(at: nat, task: Task) | RetentionGap(session: string, first: nat)

  /** How the journal file ends: after a newline, after a whole line without one, or unreadable from some line on. */
  datatype Tail = Clean | Unended | Unreadable
  datatype Journal = Journal(lines: seq<Entry>, tail: Tail)

  datatype Store = Store(tasks: map<nat, Task>, journal: Journal, cursor: nat)

  datatype Error =
    | EpochChanged | Gap | Refused | KeyReused | JournalInvalid | Stopped

  datatype Trace = Trace(states: seq<Store>, result: Result<(), Error>)

  function Last(s: Store, states: seq<Store>): Store {
    if states == [] then s else states[|states| - 1]
  }

  function Then(states: seq<Store>, rest: Trace): Trace {
    Trace(states + rest.states, rest.result)
  }

  // ------------------------------------------------------------------- reading a room

  const WINDOW: nat := 200

  datatype View = View(first: Option<nat>, last: nat, seqs: seq<nat>)

  /** The sequence numbers after `since`, the newest `WINDOW` of them. */
  function Read(room: Room, since: nat): View {
    var start := if |room| > since + WINDOW then |room| - WINDOW else since;
    var seqs := if |room| > start then seq(|room| - start, i requires 0 <= i < |room| - start => start + i + 1) else [];
    View(if seqs == [] then None else Some(seqs[0]), if seqs == [] then since else seqs[|seqs| - 1], seqs)
  }

  // --------------------------------------------------------------------- three stores

  predicate HasEntry(j: Journal, e: Entry) {
    exists i | 0 <= i < |j.lines| :: SameId(j.lines[i], e)
  }

  /** An entry's identifier: the message it persists, or the gap it reports. */
  predicate SameId(a: Entry, b: Entry) {
    match (a, b)
    case (Persisted(x, _), Persisted(y, _)) => x == y
    case (RetentionGap(s, x), RetentionGap(t, y)) => s == t && x == y
    case _ => false
  }

  /** Appending after an unended line runs the two together, and neither can be read again. */
  function Appended(j: Journal, e: Entry): Journal {
    match j.tail
    case Clean => Journal(j.lines + [e], Clean)
    case _ => Journal(if j.lines == [] then [] else j.lines[..|j.lines| - 1], Unreadable)
  }

  /** `None` when the file cannot be read; otherwise whether a line is written, and the file then. */
  function Append(j: Journal, e: Entry): Option<(bool, Journal)> {
    if j.tail.Unreadable? then None
    else if HasEntry(j, e) then Some((false, j))
    else Some((true, Appended(j, e)))
  }

  function Journaled(s: Store, e: Entry): Trace {
    var a := Append(s.journal, e);
    if a.None? then Trace([], Err(JournalInvalid))
    else if !a.value.0 then Trace([], Ok(()))
    else Trace([s.(journal := a.value.1)], Ok(()))
  }

  /** The task of a key, once: the same input again changes nothing, different input is refused. */
  function Enqueued(s: Store, at: nat, task: Task): Trace {
    if at in s.tasks then Trace([], if s.tasks[at] == task then Ok(()) else Err(KeyReused))
    else Trace([s.(tasks := s.tasks[at := task])], Ok(()))
  }

  // -------------------------------------------------------------------------- intake

  /** How an ingest is made: what the contacts say, what the host wants, and what fails outside the stores. */
  datatype Options = Options(
    since: Option<nat>, session: string, contact: string -> Option<string>, objective: Option<string>,
    valid: bool, afterPersist: bool)

  function TaskOf(room: Room, at: nat, o: Options): Task
    requires 1 <= at <= |room|
  {
    if o.objective.Some? then Task(Collaboration(o.objective.value), Payload(at, room[at - 1], None))
    else Task(Inbound, Payload(at, room[at - 1], o.contact(room[at - 1].from)))
  }

  /** One message: its task, then its journal line. */
  function PersistOne(s: Store, room: Room, at: nat, o: Options): Trace
    requires 1 <= at <= |room|
  {
    var task := TaskOf(room, at, o);
    var queued := Enqueued(s, at, task);
    if queued.result.Err? then queued
    else Then(queued.states, Journaled(Last(s, queued.states), Persisted(at, task)))
  }

  function PersistAll(s: Store, room: Room, seqs: seq<nat>, o: Options): Trace
    requires forall i | 0 <= i < |seqs| :: 1 <= seqs[i] <= |room|
  {
    if seqs == [] then Trace([], Ok(()))
    else
      var before := PersistAll(s, room, seqs[..|seqs| - 1], o);
      if before.result.Err? then before
      else Then(before.states, PersistOne(Last(s, before.states), room, seqs[|seqs| - 1], o))
  }

  function Highest(cursor: nat, seqs: seq<nat>): nat {
    if seqs == [] then cursor
    else
      var before := Highest(cursor, seqs[..|seqs| - 1]);
      if seqs[|seqs| - 1] > before then seqs[|seqs| - 1] else before
  }

  lemma ReadIsInRoom(room: Room, since: nat)
    ensures forall i | 0 <= i < |Read(room, since).seqs| :: 1 <= Read(room, since).seqs[i] <= |room|
  {
  }

  function Ingest(s: Store, room: Room, o: Options): Trace {
    var view := Read(room, if o.since.Some? then o.since.value else s.cursor);
    if view.last < s.cursor then Trace([], Err(EpochChanged))
    else if view.first.Some? && view.first.value > s.cursor + 1 then
      var noted := Journaled(s, RetentionGap(o.session, view.first.value));
      Trace(noted.states, if noted.result.Err? then noted.result else Err(Gap))
    else if !o.valid then Trace([], Err(Refused))
    else
      ReadIsInRoom(room, if o.since.Some? then o.since.value else s.cursor);
      var persisted := PersistAll(s, room, view.seqs, o);
      if persisted.result.Err? then persisted
      else if !o.afterPersist then Trace(persisted.states, Err(Refused))
      else
        var done := Last(s, persisted.states);
        var top := Highest(s.cursor, view.seqs);
        if top > s.cursor then Then(persisted.states, Trace([done.(cursor := Max(done.cursor, top))], Ok(())))
        else persisted
  }

  function Max(a: nat, b: nat): nat {
    if a < b then b else a
  }

  // ----------------------------------------------------------- runs, with torn journal lines

  /** Where in the write of a journal line a crash lands. */
  datatype Tear = Whole | CutShort | CutNewline

  /** The room grows, then one ingest runs until a crash after `cut` writes, perhaps inside the next one. */
  datatype Attempt = Attempt(arrivals: seq<Message>, options: Options, cut: nat, tear: Tear)

  /** A write of `next` over `s`, cut inside its journal line when it has one. */
  function Torn(s: Store, next: Store, tear: Tear): Store {
    if next.journal == s.journal then s
    else if s.journal.tail.Unended? then (if tear.Whole? then s else next)
    else match tear
      case Whole => s
      case CutShort => s.(journal := s.journal.(tail := Unreadable))
      case CutNewline => s.(journal := next.journal.(tail := Unended))
  }

  datatype World = World(room: Room, store: Store)

  function After(w: World, a: Attempt): World {
    var room := w.room + a.arrivals;
    var states := Ingest(w.store, room, a.options).states;
    if a.cut < |states| then World(room, Torn(Last(w.store, states[..a.cut]), states[a.cut], a.tear))
    else World(room, Last(w.store, states))
  }

  const Empty := World([], Store(map[], Journal([], Clean), 0))

  function AfterAll(runs: seq<Attempt>): World {
    if runs == [] then Empty else After(AfterAll(runs[..|runs| - 1]), runs[|runs| - 1])
  }

  // ------------------------------------------------------------------------ the stores

  /** One identity's task store, activity journal and cursor; `history` records every state on disk. */
  class Inbox {
    var tasks: map<nat, Task>
    var journal: Journal
    var cursor: nat
    ghost var history: seq<Store>

    constructor (s: Store)
      ensures Snapshot() == s && history == []
    {
      tasks, journal, cursor, history := s.tasks, s.journal, s.cursor, [];
    }

    ghost function Snapshot(): Store
      reads this
    {
      Store(tasks, journal, cursor)
    }

    ghost predicate Went(before: Store, past: seq<Store>, states: seq<Store>)
      reads this
    {
      history == past + states && Snapshot() == Last(before, states)
    }

    method EnqueueTask(at: nat, task: Task) returns (r: Result<(), Error>)
      modifies this
      ensures var t := Enqueued(old(Snapshot()), at, task); Went(old(Snapshot()), old(history), t.states) && r == t.result
    {
      if at in tasks {
        return if tasks[at] == task then Ok(()) else Err(KeyReused);
      }
      tasks := tasks[at := task];
      history := history + [Snapshot()];
      r := Ok(());
    }

    /** Looks for the identifier, then extends the file. */
    method AppendEntry(e: Entry) returns (r: Result<(), Error>)
      modifies this
      ensures var t := Journaled(old(Snapshot()), e); Went(old(Snapshot()), old(history), t.states) && r == t.result
    {
      if journal.tail.Unreadable? {
        return Err(JournalInvalid);
      }
      for i := 0 to |journal.lines|
        invariant Snapshot() == old(Snapshot()) && history == old(history)
        invariant forall k | 0 <= k < i :: !SameId(journal.lines[k], e)
      {
        if SameId(journal.lines[i], e) {
          return Ok(());
        }
      }
      journal := Appended(journal, e);
      history := history + [Snapshot()];
      r := Ok(());
    }

    method AdvanceCursor(at: nat)
      modifies this
      ensures Went(old(Snapshot()), old(history), [old(Snapshot()).(cursor := Max(old(cursor), at))])
    {
      if cursor < at {
        cursor := at;
      }
      history := history + [Snapshot()];
    }

    method PersistMessage(room: Room, at: nat, o: Options) returns (r: Result<(), Error>)
      requires 1 <= at <= |room|
      modifies this
      ensures var t := PersistOne(old(Snapshot()), room, at, o); Went(old(Snapshot()), old(history), t.states) && r == t.result
    {
      hide Journaled, TaskOf;
      var task := TaskOf(room, at, o);
      r := EnqueueTask(at, task);
      if r.Ok? {
        r := AppendEntry(Persisted(at, task));
      }
    }

    /** The loop over the window, and the highest sequence number it has persisted. */
    method PersistWindow(room: Room, seqs: seq<nat>, o: Options) returns (r: Result<(), Error>, top: nat)
      requires forall i | 0 <= i < |seqs| :: 1 <= seqs[i] <= |room|
      modifies this
      ensures var t := PersistAll(old(Snapshot()), room, seqs, o); Went(old(Snapshot()), old(history), t.states) && r == t.result
      ensures r.Ok? ==> top == Highest(old(cursor), seqs)
    {
      hide PersistOne, PersistAll, Highest;
      ghost var s, past := Snapshot(), history;
      NothingPersisted(s, room, o);
      top, r := cursor, Ok(());
      var k := 0;
      while r.Ok? && k < |seqs|
        invariant 0 <= k <= |seqs|
        invariant var t := PersistAll(s, room, seqs[..k], o); Went(s, past, t.states) && r == t.result
        invariant r.Ok? ==> top == Highest(s.cursor, seqs[..k])
      {
        OneMore(s, room, seqs, k, o);
        r := PersistMessage(room, seqs[k], o);
        if seqs[k] > top {
          top := seqs[k];
        }
        k := k + 1;
      }
      FailureEndsIt(s, room, seqs, k, o);
      assert seqs[..|seqs|] == seqs;
    }

    method IngestInbox(room: Room, o: Options) returns (r: Result<(), Error>)
      modifies this
      ensures var t := Ingest(old(Snapshot()), room, o); Went(old(Snapshot()), old(history), t.states) && r == t.result
    {
      hide PersistAll, Highest, Read, Journaled;
      var previous := cursor;
      var since := if o.since.Some? then o.since.value else previous;
      var view := Read(room, since);
      ReadIsInRoom(room, since);
      if view.last < previous {
        return Err(EpochChanged);
      }
      if view.first.Some? && view.first.value > previous + 1 {
        r := AppendEntry(RetentionGap(o.session, view.first.value));
        if r.Ok? {
          r := Err(Gap);
        }
        return;
      }
      if !o.valid {
        return Err(Refused);
      }
      var top;
      r, top := PersistWindow(room, view.seqs, o);
      if r.Err? {
        return;
      }
      if !o.afterPersist {
        return Err(Refused);
      }
      if top > previous {
        AdvanceCursor(top);
        r := Ok(());
      }
    }
  }

  lemma {:induction false} NothingPersisted(s: Store, room: Room, o: Options)
    ensures PersistAll(s, room, [], o) == Trace([], Ok(())) && Highest(s.cursor, []) == s.cursor
  {
  }

  lemma {:induction false} OneMore(s: Store, room: Room, seqs: seq<nat>, k: nat, o: Options)
    requires k < |seqs| && forall i | 0 <= i < |seqs| :: 1 <= seqs[i] <= |room|
    ensures var before, after := PersistAll(s, room, seqs[..k], o), PersistAll(s, room, seqs[..k + 1], o);
      before.result.Ok? ==> after == Then(before.states, PersistOne(Last(s, before.states), room, seqs[k], o))
    ensures Highest(s.cursor, seqs[..k + 1]) ==
      if seqs[k] > Highest(s.cursor, seqs[..k]) then seqs[k] else Highest(s.cursor, seqs[..k])
  {
    hide PersistOne;
    assert seqs[..k + 1][..k] == seqs[..k];
  }

  lemma {:induction false} FailureEndsIt(s: Store, room: Room, seqs: seq<nat>, k: nat, o: Options)
    requires k <= |seqs| && forall i | 0 <= i < |seqs| :: 1 <= seqs[i] <= |room|
    requires k == |seqs| || PersistAll(s, room, seqs[..k], o).result.Err?
    ensures PersistAll(s, room, seqs, o) == PersistAll(s, room, seqs[..k], o)
    decreases |seqs|
  {
    hide PersistOne;
    if k == |seqs| {
      assert seqs[..k] == seqs;
    } else {
      assert seqs[..|seqs| - 1][..k] == seqs[..k];
      FailureEndsIt(s, room, seqs[..|seqs| - 1], k, o);
    }
  }

  // ------------------------------------------------------------------- the offline server

  datatype SendError = StaleNonce

  /** A server in memory: append-only rooms, and the last nonce of each sender in each room. */
  class RoomServer {
    var rooms: map<string, Room>
    var nonces: map<(string, string), nat>

    constructor ()
      ensures rooms == map[] && nonces == map[]
    {
      rooms, nonces := map[], map[];
    }

    ghost predicate Valid()
      reads this
    {
      forall name | name in rooms :: forall i | 0 <= i < |rooms[name]| ::
        (rooms[name][i].from, name) in nonces && rooms[name][i].nonce <= nonces[(rooms[name][i].from, name)]
    }

    function RoomOf(name: string): Room
      reads this
    {
      if name in rooms then rooms[name] else []
    }

    /** Accepts a message only above the sender's last nonce, at the end of the room; everything else stays. */
    method SendSignedMessage(name: string, m: Message) returns (r: Result<nat, SendError>)
      requires Valid()
      modifies this
      ensures Valid()
      ensures r.Ok? <==> ((m.from, name) in old(nonces) ==> old(nonces)[(m.from, name)] < m.nonce)
      ensures r.Ok? ==> rooms == old(rooms)[name := old(RoomOf(name)) + [m]] && r.value == |RoomOf(name)|
      ensures r.Ok? ==> nonces == old(nonces)[(m.from, name) := m.nonce]
      ensures r.Ok? ==> forall i | 0 <= i < |old(RoomOf(name))| && old(RoomOf(name))[i].from == m.from :: old(RoomOf(name))[i].nonce < m.nonce
      ensures r.Err? ==> rooms == old(rooms) && nonces == old(nonces)
    {
      var key := (m.from, name);
      if key in nonces && m.nonce <= nonces[key] {
        return Err(StaleNonce);
      }
      nonces := nonces[key := m.nonce];
      var messages := if name in rooms then rooms[name] else [];
      messages := messages + [m];
      rooms := rooms[name := messages];
      r := Ok(|messages|);
    }

    /** The filter over the room and the newest part of what it leaves. */
    method ReadRoom(name: string, since: nat) returns (v: View)
      ensures v == Read(RoomOf(name), since)
    {
      var room := if name in rooms then rooms[name] else [];
      var available: seq<nat> := [];
      for i := 0 to |room|
        invariant |available| == if i > since then i - since else 0
        invariant forall k | 0 <= k < |available| :: available[k] == since + k + 1
      {
        if i + 1 > since {
          available := available + [i + 1];
        }
      }
      var seqs := if |available| > WINDOW then available[|available| - WINDOW..] else available;
      v := View(if seqs == [] then None else Some(seqs[0]), if seqs == [] then since else seqs[|seqs| - 1], seqs);
      assert v.seqs == Read(room, since).seqs;
    }
  }

  // ----------------------------------------------------------------- bounded peer windows

  /** `wellFormed`: every message has its text, sender and time in bounds. */
  datatype PeerView = PeerView(first: Option<nat>, last: nat, count: nat, seqs: seq<nat>, wellFormed: bool)

  /** A window that may be trusted and acknowledged: everything after `since`, up to `last`, without gaps. */
  predicate CompletePeerWindow(v: PeerView, since: nat) {
    && (v.seqs != [] ==> v.wellFormed) && v.last >= since && v.count == |v.seqs| <= WINDOW
    && v.last == since + |v.seqs|
    && (forall i | 0 <= i < |v.seqs| :: v.seqs[i] == since + i + 1)
    && (v.first.Some? ==> 1 <= v.first.value <= since + 1)
    && (v.count > 0 ==> v.first.Some?) && (v.last == 0 ==> v.first.None?)
  }

  method ValidatePeerWindow(v: PeerView, since: nat) returns (ok: bool)
    ensures ok <==> CompletePeerWindow(v, since)
  {
    if v.last < since || v.count != |v.seqs| || v.count > WINDOW
       || (v.first.Some? && (v.first.value < 1 || v.first.value > since + 1))
    {
      return false;
    }
    var previous := since;
    for i := 0 to |v.seqs|
      invariant previous == since + i && forall k | 0 <= k < i :: v.seqs[k] == since + k + 1
      invariant i > 0 ==> v.wellFormed
    {
      if v.seqs[i] != previous + 1 || v.seqs[i] > v.last || !v.wellFormed {
        return false;
      }
      previous := v.seqs[i];
    }
    if previous != v.last {
      return false;
    }
    if (v.count > 0 && v.first.None?) || (v.last == 0 && v.first.Some?) {
      return false;
    }
    ok := true;
  }
}
