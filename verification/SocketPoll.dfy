/**
 One poll over the open sockets, on values: reading from the clients that have data, dropping
 those whose connection ended, and accepting at most one new client.
 */
module SocketPoll {
  import opened Common
  import opened CursorQueue
  import opened Clients
  import opened ServerModel
  import opened ServerSteps

  // What reading from a socket until it has no more data yields: blocks of bytes, and whether
  // the last attempt would have blocked (as opposed to end of file or an error).
  datatype ReadEvent = ReadEvent(chunks: seq<string>, again: bool)

  // What accepting yields. NoMemory is a failure to create the client record.
  datatype AcceptEvent<C> = Refused | NoMemory | Admitted(fd: int, client: C)

  // What the outside world presents to one poll.
  datatype PollInput<C> = PollInput(ready: set<int>, events: map<int, ReadEvent>, accept: AcceptEvent<C>)

  function Event<C>(inp: PollInput<C>, socket: int): ReadEvent {
    if socket in inp.events then inp.events[socket] else ReadEvent([], true)
  }

  // Blocks end in a terminator, and an accepted client has a socket and a record of its own.
  ghost predicate InputOk<C>(s: Server<C>, inp: PollInput<C>) {
    && (forall fd {:trigger ChunksOk(inp.events[fd].chunks)} :: fd in inp.events ==> ChunksOk(inp.events[fd].chunks))
    && (inp.accept.Admitted? ==> inp.accept.fd != s.listening && inp.accept.client !in s.heap.Keys)
  }

  // A slot whose socket has failed or been closed by the peer.
  predicate Fails<C>(slot: Slot<C>, listening: int, inp: PollInput<C>) {
    slot.socket in inp.ready && slot.socket != listening && !Event(inp, slot.socket).again
  }

  ghost predicate AtClient<C>(s: Server<C>) {
    0 <= s.open.pos < |s.open.items| - 1
  }

  // The slot at the cursor, when it belongs to a client: read what there is; drop it if it fails.
  ghost function HandleClient<C>(s: Server<C>, inp: PollInput<C>): Server<C>
    requires Sound(s) && InputOk(s, inp) && AtClient(s)
  {
    OpenSlotHasClient(s, s.open.pos);
    var slot := s.pool[s.open.items[s.open.pos]];
    if slot.socket !in inp.ready then s
    else
      var c := ClientAt(s.open.items[s.open.pos], s.pool).value;
      ReadKeepsSound(s, c, inp, slot.socket);
      var t := s.(heap := s.heap[c := ReceiveAll(s.heap[c], Event(inp, slot.socket).chunks)]);
      if Event(inp, slot.socket).again then t
      else
        SoundSlotsInUse(t);
        DestroySocket(t)
  }

  lemma ReadKeepsSound<C>(s: Server<C>, c: C, inp: PollInput<C>, socket: int)
    requires Sound(s) && InputOk(s, inp) && c in s.heap
    ensures ChunksOk(Event(inp, socket).chunks)
    ensures Sound(s.(heap := s.heap[c := ReceiveAll(s.heap[c], Event(inp, socket).chunks)]))
  {
    assert s.heap[c := ReceiveAll(s.heap[c], Event(inp, socket).chunks)].Keys == s.heap.Keys;
  }

  // The listening slot, when it is ready: accept a client, if the pool has a slot for it.
  ghost function HandleListener<C>(s: Server<C>, inp: PollInput<C>): Server<C>
    requires Sound(s)
  {
    if s.listening !in inp.ready || !inp.accept.Admitted? then s
    else if s.free.items == [] then s.(free := s.free.Pop())
    else
      LastFreeSlot(s);
      AcceptClient(s, inp.accept.fd, inp.accept.client)
  }

  // t is s after handling the client slot at the cursor.
  ghost predicate Handled<C>(s: Server<C>, inp: PollInput<C>, t: Server<C>)
  {
    && AtClient(s)
    && var i := s.open.items[s.open.pos];
    && InUse(i, s.pool, s.listening) && ClientAt(i, s.pool).value in s.heap
    && t.listening == s.listening
    && var slot := s.pool[i];
    && var c := ClientAt(i, s.pool).value;
    && ChunksOk(Event(inp, slot.socket).chunks)
    && var cs := ReceiveAll(s.heap[c], Event(inp, slot.socket).chunks);
       if slot.socket !in inp.ready then t == s
       else if Event(inp, slot.socket).again then t == s.(heap := s.heap[c := cs])
       else
         && t.open == s.open.Delete(QdPrev)
         && t.free.items == s.free.items + [i]
         && t.pool == s.pool[i := Slot(slot.socket, None)]
         && t.clients == s.clients.Remove(c, QdPrev)
         && t.heap == s.heap - {c}
         && t.closed == s.closed[c := cs]
  }

  lemma FailedIsHandled<C>(s: Server<C>, inp: PollInput<C>, u: Server<C>, c: C)
    requires Sound(s) && InputOk(s, inp) && AtClient(s)
    requires InUse(s.open.items[s.open.pos], s.pool, s.listening)
    requires c in s.heap && ClientAt(s.open.items[s.open.pos], s.pool) == Some(c)
    requires var socket := s.pool[s.open.items[s.open.pos]].socket;
             && socket in inp.ready && !Event(inp, socket).again && ChunksOk(Event(inp, socket).chunks)
             && u == s.(heap := s.heap[c := ReceiveAll(s.heap[c], Event(inp, socket).chunks)])
    requires Sound(u)
    ensures SlotsInUse(u) && Sound(DestroySocket(u)) && Handled(s, inp, DestroySocket(u))
  {
    hide Sound;
    DestroyKeepsSound(u);
    assert u.heap - {c} == s.heap - {c};
  }

  lemma HandleKeepsSound<C>(s: Server<C>, inp: PollInput<C>)
    requires Sound(s) && InputOk(s, inp) && AtClient(s)
    ensures Sound(HandleClient(s, inp)) && Handled(s, inp, HandleClient(s, inp))
  {
    OpenSlotHasClient(s, s.open.pos);
    var slot := s.pool[s.open.items[s.open.pos]];
    var c := ClientAt(s.open.items[s.open.pos], s.pool).value;
    ReadKeepsSound(s, c, inp, slot.socket);
    if slot.socket in inp.ready && !Event(inp, slot.socket).again {
      FailedIsHandled(s, inp, s.(heap := s.heap[c := ReceiveAll(s.heap[c], Event(inp, slot.socket).chunks)]), c);
    }
  }

  lemma AdvanceOpenKeepsSound<C>(s: Server<C>)
    requires Sound(s)
    ensures Sound(s.(open := s.open.Next())) && Sound(s.(open := s.open.Rewind()))
  {
  }

  lemma HandledKeepsInputOk<C>(s: Server<C>, inp: PollInput<C>, t: Server<C>)
    requires InputOk(s, inp) && Handled(s, inp, t)
    ensures InputOk(t, inp)
  {
  }

  // The listening socket and the size of the pool never change.
  ghost predicate SameFrame<C>(s: Server<C>, t: Server<C>) {
    t.listening == s.listening && |t.pool| == |s.pool|
  }

  lemma ListenerKeepsSound<C>(s: Server<C>, inp: PollInput<C>)
    requires Sound(s) && InputOk(s, inp) && s.open.pos == |s.open.items| - 1
    ensures Sound(HandleListener(s, inp)) && HandleListener(s, inp).open.AtEnd()
    ensures SameFrame(s, HandleListener(s, inp))
  {
    if s.listening in inp.ready && inp.accept.Admitted? && s.free.items != [] {
      AcceptKeepsSound(s, inp.accept.fd, inp.accept.client);
    }
  }

  lemma HandledAdvances<C>(s: Server<C>, inp: PollInput<C>, t: Server<C>)
    requires Handled(s, inp, t) && !t.open.AtEnd()
    ensures |t.open.Next().items| - t.open.Next().pos < |s.open.items| - s.open.pos
    ensures SameFrame(s, t)
  {
  }

  lemma StepKeepsSound<C>(s: Server<C>, inp: PollInput<C>)
    requires Sound(s) && InputOk(s, inp) && AtClient(s)
    ensures var t := HandleClient(s, inp);
            var u := t.(open := t.open.Next());
            Sound(t) && Sound(u) && InputOk(u, inp) && SameFrame(s, t) && SameFrame(s, u)
            && (!t.open.AtEnd() ==> |u.open.items| - u.open.pos < |s.open.items| - s.open.pos)
  {
    var t := HandleClient(s, inp);
    HandleKeepsSound(s, inp);
    HandledKeepsInputOk(s, inp, t);
    AdvanceOpenKeepsSound(t);
    if !t.open.AtEnd() { HandledAdvances(s, inp, t); }
  }

  // "for (slot = get; slot; slot = get_next)", from the current open slot on. The listening slot
  // is the last one, so nothing is visited after it.
  ghost function PollFrom<C>(s: Server<C>, inp: PollInput<C>): (r: Server<C>)
    requires Sound(s) && InputOk(s, inp)
    ensures Sound(r) && SameFrame(s, r)
    decreases |s.open.items| - s.open.pos
  {
    if AtClient(s) then
      StepKeepsSound(s, inp);
      var t := HandleClient(s, inp);
      if t.open.AtEnd() then t else PollFrom(t.(open := t.open.Next()), inp)
    else if s.open.pos == |s.open.items| - 1 then
      ListenerKeepsSound(s, inp);
      HandleListener(s, inp)
    else s
  }

  ghost function Poll<C>(s: Server<C>, inp: PollInput<C>): (r: Server<C>)
    requires Sound(s) && InputOk(s, inp)
    ensures Sound(r) && SameFrame(s, r)
  {
    AdvanceOpenKeepsSound(s);
    PollFrom(s.(open := s.open.Rewind()), inp)
  }

  // Whether handling the listening slot fails: a client is waiting and cannot be accepted, because
  // accepting fails, its record cannot be created, or no slot is free.
  predicate Rejects<C>(free: seq<nat>, listening: int, inp: PollInput<C>) {
    listening in inp.ready && (!inp.accept.Admitted? || free == [])
  }

  // The result of the poll, from the current slot on.
  ghost function PollCode<C>(s: Server<C>, inp: PollInput<C>): int
    requires Sound(s) && InputOk(s, inp)
    decreases |s.open.items| - s.open.pos
  {
    if AtClient(s) then
      StepKeepsSound(s, inp);
      var t := HandleClient(s, inp);
      if t.open.AtEnd() then 0 else PollCode(t.(open := t.open.Next()), inp)
    else if s.open.pos == |s.open.items| - 1 && Rejects(s.free.items, s.listening, inp) then -1
    else 0
  }

  ghost function PollResult<C>(s: Server<C>, inp: PollInput<C>): int
    requires Sound(s) && InputOk(s, inp)
  {
    AdvanceOpenKeepsSound(s);
    PollCode(s.(open := s.open.Rewind()), inp)
  }

  // ----- Coverage -----

  ghost function Failing<C>(s: Server<C>, inp: PollInput<C>): set<nat> {
    set i: nat | 0 <= i < |s.pool| && Fails(s.pool[i], s.listening, inp)
  }

  // The free slots after a poll that visits the slots of seen, before a client is accepted: the
  // slots given back come last, in the order of their visits.
  ghost function FreeThen(free: seq<nat>, seen: seq<nat>, failing: set<nat>): seq<nat> {
    free + Pick(seen, failing)
  }

  // What a poll from the current slot on does to the queues of open and free slots. A client is
  // accepted when one is waiting, the last open slot is visited, and a slot is free by then.
  ghost predicate QueuesPolled(open: Cursor<nat>, free: seq<nat>, waiting: bool, failing: set<nat>,
                               open': Cursor<nat>, free': seq<nat>)
    requires open.Ok() && open.items != []
  {
    var q, seen := Sweep(open, failing), Visits(open, failing);
    var slots := FreeThen(free, seen, failing);
    if waiting && open.items[|open.items| - 1] in seen && slots != [] then
      open' == q.Insert(slots[|slots| - 1]).Next() && free' == slots[..|slots| - 1]
    else
      open' == q && free' == slots
  }

  predicate Waiting<C>(s: Server<C>, inp: PollInput<C>) {
    s.listening in inp.ready && inp.accept.Admitted?
  }

  lemma ListenerNeverFails<C>(s: Server<C>, inp: PollInput<C>)
    requires Sound(s)
    ensures s.open.items != [] && s.open.items[|s.open.items| - 1] !in Failing(s, inp)
  {
  }

  // From one client slot to the rest of the poll.
  lemma PollStep<C>(s: Server<C>, inp: PollInput<C>) returns (t: Server<C>, u: Server<C>)
    requires Sound(s) && InputOk(s, inp) && AtClient(s)
    ensures Handled(s, inp, t) && Sound(t) && InputOk(t, inp) && u == t.(open := t.open.Next())
    ensures t == HandleClient(s, inp)
    ensures t.open.AtEnd() ==> PollFrom(s, inp) == t
    ensures !t.open.AtEnd() ==> Sound(u) && InputOk(u, inp) && PollFrom(s, inp) == PollFrom(u, inp)
    ensures !t.open.AtEnd() ==> |u.open.items| - u.open.pos < |s.open.items| - s.open.pos
    ensures PollCode(s, inp) == if t.open.AtEnd() then 0 else PollCode(u, inp)
  {
    t := HandleClient(s, inp);
    u := t.(open := t.open.Next());
    HandleKeepsSound(s, inp);
    HandledKeepsInputOk(s, inp, t);
    StepKeepsSound(s, inp);
  }

  lemma HandledKeepsFailing<C>(s: Server<C>, inp: PollInput<C>, t: Server<C>)
    requires Handled(s, inp, t)
    ensures Failing(t, inp) == Failing(s, inp)
  {
  }

  // How one visit changes the queues.
  ghost predicate QueueStep(open: Cursor<nat>, free: seq<nat>, failing: set<nat>, open': Cursor<nat>, free': seq<nat>)
    requires 0 <= open.pos < |open.items|
  {
    var i := open.items[open.pos];
    if i in failing then open' == open.Delete(QdPrev) && free' == free + [i]
    else open' == open && free' == free
  }

  lemma HandledQueueStep<C>(s: Server<C>, inp: PollInput<C>, t: Server<C>)
    requires Handled(s, inp, t)
    ensures QueueStep(s.open, s.free.items, Failing(s, inp), t.open, t.free.items)
  {
  }

  lemma SweepUnfold(q: Cursor<nat>, free: seq<nat>, failing: set<nat>, q': Cursor<nat>, free': seq<nat>)
    requires q.Ok() && 0 <= q.pos < |q.items| && QueueStep(q, free, failing, q', free')
    ensures q'.AtEnd() ==> Sweep(q, failing) == q' && Visits(q, failing) == [q.items[q.pos]]
    ensures !q'.AtEnd() ==>
              && Sweep(q, failing) == Sweep(q'.Next(), failing)
              && Visits(q, failing) == [q.items[q.pos]] + Visits(q'.Next(), failing)
    ensures q'.AtEnd() ==> FreeThen(free, Visits(q, failing), failing) == free'
    ensures !q'.AtEnd() ==>
              FreeThen(free, Visits(q, failing), failing) == FreeThen(free', Visits(q'.Next(), failing), failing)
  {
    hide Keep, PopNth, Cursor.Delete, Cursor.Next;
    var i := q.items[q.pos];
    if q'.AtEnd() {
      assert [i][1..] == [] && Pick([], failing) == [];
    } else {
      assert ([i] + Visits(q'.Next(), failing))[1..] == Visits(q'.Next(), failing);
    }
  }

  lemma ListenerStays<C>(s: Server<C>, inp: PollInput<C>, t: Server<C>)
    requires Sound(s) && Handled(s, inp, t)
    ensures t.open.items != [] && t.open.items[|t.open.items| - 1] == s.open.items[|s.open.items| - 1]
    ensures s.open.items[s.open.pos] != s.open.items[|s.open.items| - 1]
  {
    hide Cursor.Remove, ReceiveAll, Partition, Owners;
  }

  lemma QueuesPolledLast(open: Cursor<nat>, free: seq<nat>, waiting: bool, failing: set<nat>,
                         open': Cursor<nat>, free': seq<nat>)
    requires open.Ok() && 0 <= open.pos < |open.items| && QueueStep(open, free, failing, open', free')
    requires open.items[open.pos] != open.items[|open.items| - 1] && open'.AtEnd()
    ensures QueuesPolled(open, free, waiting, failing, open', free')
  {
    SweepUnfold(open, free, failing, open', free');
  }

  lemma QueuesPolledMore(open: Cursor<nat>, free: seq<nat>, waiting: bool, failing: set<nat>,
                         open1: Cursor<nat>, free1: seq<nat>, next: Cursor<nat>, open': Cursor<nat>, free': seq<nat>)
    requires open.Ok() && 0 <= open.pos < |open.items| && QueueStep(open, free, failing, open1, free1)
    requires open1.items != [] && open1.items[|open1.items| - 1] == open.items[|open.items| - 1]
    requires open.items[open.pos] != open.items[|open.items| - 1] && !open1.AtEnd()
    requires next == open1.Next() && next.Ok() && QueuesPolled(next, free1, waiting, failing, open', free')
    ensures QueuesPolled(open, free, waiting, failing, open', free')
  {
    hide Sweep, Visits, Pick;
    SweepUnfold(open, free, failing, open1, free1);
  }

  // One client slot, seen from the queues alone.
  lemma PollQueueStep<C>(s: Server<C>, inp: PollInput<C>) returns (t: Server<C>, u: Server<C>)
    requires Sound(s) && InputOk(s, inp) && AtClient(s)
    ensures QueueStep(s.open, s.free.items, Failing(s, inp), t.open, t.free.items)
    ensures t.open.items != [] && t.open.items[|t.open.items| - 1] == s.open.items[|s.open.items| - 1]
    ensures s.open.items[s.open.pos] != s.open.items[|s.open.items| - 1]
    ensures t.open.AtEnd() ==> PollFrom(s, inp) == t
    ensures !t.open.AtEnd() ==> Sound(u) && InputOk(u, inp) && PollFrom(s, inp) == PollFrom(u, inp)
    ensures !t.open.AtEnd() ==> |u.open.items| - u.open.pos < |s.open.items| - s.open.pos
    ensures u.open == t.open.Next() && u.free == t.free
    ensures Failing(u, inp) == Failing(s, inp) && Waiting(u, inp) == Waiting(s, inp)
    ensures PollCode(s, inp) == (if t.open.AtEnd() then 0 else PollCode(u, inp)) && u.listening == s.listening
  {
    t, u := PollStep(s, inp);
    HandledKeepsFailing(s, inp, t);
    HandledQueueStep(s, inp, t);
    ListenerStays(s, inp, t);
  }

  lemma PollFromListener<C>(s: Server<C>, inp: PollInput<C>)
    requires Sound(s) && InputOk(s, inp) && !AtClient(s)
    ensures PollFrom(s, inp) == if s.open.pos == |s.open.items| - 1 then HandleListener(s, inp) else s
    ensures PollCode(s, inp)
         == if s.open.pos == |s.open.items| - 1 && Rejects(s.free.items, s.listening, inp) then -1 else 0
  {
  }

  lemma {:induction false} PollFromCloses<C>(s: Server<C>, inp: PollInput<C>, waiting: bool, failing: set<nat>)
    requires Sound(s) && InputOk(s, inp) && waiting == Waiting(s, inp) && failing == Failing(s, inp)
    ensures QueuesPolled(s.open, s.free.items, waiting, failing, PollFrom(s, inp).open, PollFrom(s, inp).free.items)
    decreases |s.open.items| - s.open.pos
  {
    hide Sound, InputOk, PollFrom, PollCode, QueuesPolled, QueueStep, Waiting, Failing;
    SoundCursors(s);
    ListenerNeverFails(s, inp);
    if AtClient(s) {
      var t, u := PollQueueStep(s, inp);
      if t.open.AtEnd() {
        QueuesPolledLast(s.open, s.free.items, waiting, failing, t.open, t.free.items);
      } else {
        SoundCursors(u);
        PollFromCloses(u, inp, waiting, failing);
        QueuesPolledMore(s.open, s.free.items, waiting, failing, t.open, t.free.items, u.open,
                         PollFrom(u, inp).open, PollFrom(u, inp).free.items);
      }
    } else {
      PollFromListener(s, inp);
      if s.open.pos == |s.open.items| - 1 {
        ListenerCloses(s, inp);
      } else {
        NothingPolled(s.open, s.free.items, waiting, failing);
      }
    }
  }

  // Past the last slot nothing is polled.
  lemma NothingPolled(open: Cursor<nat>, free: seq<nat>, waiting: bool, failing: set<nat>)
    requires open.Ok() && open.items != [] && open.pos == |open.items|
    ensures QueuesPolled(open, free, waiting, failing, open, free)
  {
  }

  // The result in closed form: -1 exactly when the listening slot is visited and handling it fails
  // with the slots that are free by then.
  ghost predicate CodePolled<C>(open: Cursor<nat>, free: seq<nat>, listening: int, inp: PollInput<C>,
                                failing: set<nat>, code: int)
    requires open.Ok() && open.items != []
  {
    var seen := Visits(open, failing);
    var fails := open.items[|open.items| - 1] in seen && Rejects(FreeThen(free, seen, failing), listening, inp);
    code == if fails then -1 else 0
  }

  lemma CodePolledLast<C>(open: Cursor<nat>, free: seq<nat>, listening: int, inp: PollInput<C>, failing: set<nat>,
                          open': Cursor<nat>, free': seq<nat>)
    requires open.Ok() && 0 <= open.pos < |open.items| && QueueStep(open, free, failing, open', free')
    requires open.items[open.pos] != open.items[|open.items| - 1] && open'.AtEnd()
    ensures CodePolled(open, free, listening, inp, failing, 0)
  {
    SweepUnfold(open, free, failing, open', free');
  }

  lemma CodePolledMore<C>(open: Cursor<nat>, free: seq<nat>, listening: int, inp: PollInput<C>, failing: set<nat>,
                          open1: Cursor<nat>, free1: seq<nat>, next: Cursor<nat>, code: int)
    requires open.Ok() && 0 <= open.pos < |open.items| && QueueStep(open, free, failing, open1, free1)
    requires open1.items != [] && open1.items[|open1.items| - 1] == open.items[|open.items| - 1]
    requires open.items[open.pos] != open.items[|open.items| - 1] && !open1.AtEnd()
    requires next == open1.Next() && next.Ok() && CodePolled(next, free1, listening, inp, failing, code)
    ensures CodePolled(open, free, listening, inp, failing, code)
  {
    hide Sweep, Visits, Pick, Keep, PopNth, Cursor.Delete, FreeThen, Rejects, QueueStep;
    SweepUnfold(open, free, failing, open1, free1);
  }

  lemma {:induction false} PollCodeCloses<C>(s: Server<C>, inp: PollInput<C>, failing: set<nat>)
    requires Sound(s) && InputOk(s, inp) && failing == Failing(s, inp)
    ensures CodePolled(s.open, s.free.items, s.listening, inp, failing, PollCode(s, inp))
    decreases |s.open.items| - s.open.pos
  {
    hide Sound, InputOk, PollFrom, PollCode, Rejects;
    if AtClient(s) {
      var t, u := PollQueueStep(s, inp);
      if t.open.AtEnd() {
        CodePolledLast(s.open, s.free.items, s.listening, inp, failing, t.open, t.free.items);
      } else {
        PollCodeCloses(u, inp, failing);
        CodePolledMore(s.open, s.free.items, s.listening, inp, failing, t.open, t.free.items, u.open, PollCode(u, inp));
      }
    } else {
      ListenerCode(s, inp, failing);
    }
  }

  lemma ListenerCode<C>(s: Server<C>, inp: PollInput<C>, failing: set<nat>)
    requires Sound(s) && InputOk(s, inp) && !AtClient(s) && failing == Failing(s, inp)
    ensures CodePolled(s.open, s.free.items, s.listening, inp, failing, PollCode(s, inp))
  {
    ListenerNeverFails(s, inp);
    if s.open.pos == |s.open.items| - 1 {
      SweepUnfold(s.open, s.free.items, failing, s.open, s.free.items);
    }
  }

  lemma ListenerCloses<C>(s: Server<C>, inp: PollInput<C>)
    requires Sound(s) && InputOk(s, inp) && s.open.pos == |s.open.items| - 1
    ensures var r := HandleListener(s, inp);
            QueuesPolled(s.open, s.free.items, Waiting(s, inp), Failing(s, inp), r.open, r.free.items)
  {
    SweepUnfold(s.open, s.free.items, Failing(s, inp), s.open, s.free.items);
    if s.free.items != [] { LastFreeSlot(s); }
  }

  // What the poll does to the record of the client of slot i.
  ghost predicate PolledClient<C>(s: Server<C>, r: Server<C>, inp: PollInput<C>, seen: seq<nat>, i: nat) {
    && ClientAt(i, s.pool).Some? && ClientAt(i, s.pool).value in s.heap
    && var slot := s.pool[i];
    && var c := ClientAt(i, s.pool).value;
    && ChunksOk(Event(inp, slot.socket).chunks)
    && var cs := ReceiveAll(s.heap[c], Event(inp, slot.socket).chunks);
       if i !in seen || slot.socket !in inp.ready then c in r.heap && r.heap[c] == s.heap[c]
       else if Event(inp, slot.socket).again then c in r.heap && r.heap[c] == cs
       else c !in r.heap && c in r.closed && r.closed[c] == cs
  }

  ghost predicate PolledHeap<C>(s: Server<C>, r: Server<C>, inp: PollInput<C>, seen: seq<nat>) {
    && (forall k :: 0 <= k < |s.open.items| && ClientAt(s.open.items[k], s.pool).Some? ==>
          PolledClient(s, r, inp, seen, s.open.items[k]))
    && (forall c :: c in r.heap && c !in s.heap ==>
          r.heap[c] == NEW_CLIENT && inp.accept.Admitted? && c == inp.accept.client)
    && (forall c :: c in s.closed && c !in s.heap ==> c in r.closed && r.closed[c] == s.closed[c])
    && r.closed.Keys == s.closed.Keys + (s.heap.Keys - r.heap.Keys)
  }

  lemma DeletedKeepsOthers<T>(q: Cursor<T>, j: T)
    requires NoDup(q.items) && 0 <= q.pos < |q.items| && j in q.items && j != q.items[q.pos]
    ensures exists m :: 0 <= m < |q.Delete(QdPrev).items| && q.Delete(QdPrev).items[m] == j
  {
    var k :| 0 <= k < |q.items| && q.items[k] == j;
    assert q.Delete(QdPrev).items[if k < q.pos then k else k - 1] == j;
  }

  lemma PolledOther<C>(s: Server<C>, t: Server<C>, r: Server<C>, inp: PollInput<C>, seen: seq<nat>, j: nat)
    requires Sound(s) && Handled(s, inp, t) && PolledHeap(t, r, inp, seen)
    requires j in s.open.items && j != s.open.items[s.open.pos] && ClientAt(j, s.pool).Some?
    ensures PolledClient(s, r, inp, [s.open.items[s.open.pos]] + seen, j)
  {
    var i := s.open.items[s.open.pos];
    SlotsArePartitioned(s);
    SlotsHaveOwnClients(s, j, i);
    assert ClientAt(j, t.pool) == ClientAt(j, s.pool);
    assert j in t.open.items by {
      if t.open != s.open { DeletedKeepsOthers(s.open, j); }
    }
    var m :| 0 <= m < |t.open.items| && t.open.items[m] == j;
    assert PolledClient(t, r, inp, seen, t.open.items[m]);
  }

  lemma PolledThis<C>(s: Server<C>, t: Server<C>, r: Server<C>, inp: PollInput<C>, seen: seq<nat>)
    requires Sound(s) && InputOk(s, inp) && Handled(s, inp, t) && PolledHeap(t, r, inp, seen)
    requires s.open.items[s.open.pos] !in seen
    ensures PolledClient(s, r, inp, [s.open.items[s.open.pos]] + seen, s.open.items[s.open.pos])
  {
    var i := s.open.items[s.open.pos];
    if !Fails(s.pool[i], s.listening, inp) {
      assert PolledClient(t, r, inp, seen, t.open.items[s.open.pos]);
    } else {
      var c := ClientAt(i, s.pool).value;
      assert c !in t.heap && c in t.closed;
    }
  }

  lemma PolledCons<C>(s: Server<C>, t: Server<C>, r: Server<C>, inp: PollInput<C>, seen: seq<nat>)
    requires Sound(s) && InputOk(s, inp) && Handled(s, inp, t) && PolledHeap(t, r, inp, seen)
    requires s.open.items[s.open.pos] !in seen
    ensures PolledHeap(s, r, inp, [s.open.items[s.open.pos]] + seen)
  {
    var i := s.open.items[s.open.pos];
    PolledThis(s, t, r, inp, seen);
    forall k | 0 <= k < |s.open.items| && ClientAt(s.open.items[k], s.pool).Some?
      ensures PolledClient(s, r, inp, [i] + seen, s.open.items[k])
    {
      if s.open.items[k] != i { PolledOther(s, t, r, inp, seen, s.open.items[k]); }
    }
    NewClientsOnly(s, t, r, inp, seen);
  }

  lemma NewClientsOnly<C>(s: Server<C>, t: Server<C>, r: Server<C>, inp: PollInput<C>, seen: seq<nat>)
    requires InputOk(s, inp) && Handled(s, inp, t) && PolledHeap(t, r, inp, seen)
    ensures forall c :: c in r.heap && c !in s.heap ==>
              r.heap[c] == NEW_CLIENT && inp.accept.Admitted? && c == inp.accept.client
    ensures forall c :: c in s.closed && c !in s.heap ==> c in r.closed && r.closed[c] == s.closed[c]
    ensures r.closed.Keys == s.closed.Keys + (s.heap.Keys - r.heap.Keys)
  {
    hide Cursor.Remove, Cursor.Delete;
    assert forall c :: c in t.heap ==> c in s.heap;
  }

  lemma PolledNothing<C>(s: Server<C>, inp: PollInput<C>)
    requires Sound(s) && InputOk(s, inp)
    ensures PolledHeap(s, s, inp, [])
  {
    forall k | 0 <= k < |s.open.items| && ClientAt(s.open.items[k], s.pool).Some?
      ensures PolledClient(s, s, inp, [], s.open.items[k])
    {
      if k < |s.open.items| - 1 { OpenSlotHasClient(s, k); }
    }
  }

  lemma PolledListener<C>(s: Server<C>, inp: PollInput<C>, l: nat)
    requires Sound(s) && InputOk(s, inp) && l == s.open.items[|s.open.items| - 1]
    ensures PolledHeap(s, HandleListener(s, inp), inp, [l])
  {
    var r := HandleListener(s, inp);
    forall k | 0 <= k < |s.open.items| && ClientAt(s.open.items[k], s.pool).Some?
      ensures PolledClient(s, r, inp, [l], s.open.items[k])
    {
      SlotsArePartitioned(s);
      OpenSlotHasClient(s, k);
    }
  }

  // Puts the visit of the slot at the cursor before what the rest of the poll does.
  lemma PolledStep<C>(s: Server<C>, t: Server<C>, r: Server<C>, inp: PollInput<C>)
    requires Sound(s) && InputOk(s, inp) && Handled(s, inp, t)
    requires PolledHeap(t, r, inp, if t.open.AtEnd() then [] else Visits(t.open.Next(), Failing(s, inp)))
    ensures PolledHeap(s, r, inp, Visits(s.open, Failing(s, inp)))
  {
    HandledQueueStep(s, inp, t);
    SweepUnfold(s.open, s.free.items, Failing(s, inp), t.open, t.free.items);
    SlotsArePartitioned(s);
    if t.open.AtEnd() {
      PolledCons(s, t, r, inp, []);
      assert [s.open.items[s.open.pos]] + [] == [s.open.items[s.open.pos]];
    } else {
      NextNotSeen(s.open, t.open, Failing(s, inp));
      PolledCons(s, t, r, inp, Visits(t.open.Next(), Failing(s, inp)));
    }
  }

  lemma MoveKeepsPolled<C>(t: Server<C>, u: Server<C>, r: Server<C>, inp: PollInput<C>, seen: seq<nat>)
    requires u == t.(open := t.open.Next()) && PolledHeap(u, r, inp, seen)
    ensures PolledHeap(t, r, inp, seen)
  {
    forall k | 0 <= k < |t.open.items| && ClientAt(t.open.items[k], t.pool).Some?
      ensures PolledClient(t, r, inp, seen, t.open.items[k])
    {
      assert PolledClient(u, r, inp, seen, u.open.items[k]);
    }
  }

  // The end of a poll: at the listening slot, or past it.
  lemma PollEndHeap<C>(s: Server<C>, inp: PollInput<C>)
    requires Sound(s) && InputOk(s, inp) && !AtClient(s)
    ensures PolledHeap(s, PollFrom(s, inp), inp, Visits(s.open, Failing(s, inp)))
  {
    hide Sound, InputOk, PollFrom, PollCode, PolledHeap, HandleListener, Visits, Failing;
    SoundCursors(s);
    ListenerNeverFails(s, inp);
    PollFromListener(s, inp);
    VisitsAtEnd(s.open, Failing(s, inp));
    if s.open.pos == |s.open.items| - 1 {
      PolledListener(s, inp, s.open.items[s.open.pos]);
    } else {
      PolledNothing(s, inp);
    }
  }

  lemma VisitsAtEnd(q: Cursor<nat>, failing: set<nat>)
    requires q.Ok() && q.items != [] && q.AtEnd() && q.items[|q.items| - 1] !in failing
    ensures Visits(q, failing) == if q.pos < |q.items| then [q.items[q.pos]] else []
  {
  }

  lemma {:induction false} PollFromHeap<C>(s: Server<C>, inp: PollInput<C>)
    requires Sound(s) && InputOk(s, inp)
    ensures PolledHeap(s, PollFrom(s, inp), inp, Visits(s.open, Failing(s, inp)))
    decreases |s.open.items| - s.open.pos
  {
    hide Sound, InputOk, PollFrom, PollCode, HandleClient, PolledHeap, Handled, Failing;
    SoundCursors(s);
    if AtClient(s) {
      var r := PollFrom(s, inp);
      var t, u := PollStep(s, inp);
      HandledKeepsFailing(s, inp, t);
      SoundCursors(t);
      if t.open.AtEnd() {
        PolledNothing(t, inp);
      } else {
        PollFromHeap(u, inp);
        SameFailing(t, u, inp);
        MoveKeepsPolled(t, u, r, inp, Visits(u.open, Failing(s, inp)));
      }
      PolledStep(s, t, r, inp);
    } else {
      PollEndHeap(s, inp);
    }
  }

  lemma SameFailing<C>(s: Server<C>, t: Server<C>, inp: PollInput<C>)
    requires t.pool == s.pool && t.listening == s.listening
    ensures Failing(t, inp) == Failing(s, inp)
  {
  }

  // Where the slot of an accepted client lands: before the slot that precedes the listener.
  function BeforeLastTwo(n: nat): nat {
    if n < 2 then 0 else n - 2
  }

  // The same for a whole poll, with the sweep in closed form: the open slots keep their order and
  // the listener stays last; slots are given back in the order of their visits, and an accepted
  // client gets the one given back last.
  ghost predicate QueuesAfterPoll(open: seq<nat>, free: seq<nat>, waiting: bool, failing: set<nat>,
                                  open': seq<nat>, free': seq<nat>)
    requires open != []
  {
    var seen, kept := Visited(open, failing), Survivors(open, failing);
    var slots := FreeThen(free, seen, failing);
    if waiting && open[|open| - 1] in seen && slots != [] then
      && open' == PushNth(kept, slots[|slots| - 1], BeforeLastTwo(|kept|))
      && free' == slots[..|slots| - 1]
    else
      open' == kept && free' == slots
  }

  lemma ClosedQueues(open: Cursor<nat>, free: seq<nat>, waiting: bool, failing: set<nat>,
                     open': Cursor<nat>, free': seq<nat>)
    requires open.items != [] && open.pos == 0 && open.items[|open.items| - 1] !in failing
    requires QueuesPolled(open, free, waiting, failing, open', free')
    ensures QueuesAfterPoll(open.items, free, waiting, failing, open'.items, free')
  {
    SweepFromHead(open, failing);
    SweepEndsOnLast(open, failing);
    var slots := FreeThen(free, Visits(open, failing), failing);
    if slots != [] { InsertBeforeListener(Sweep(open, failing), slots[|slots| - 1]); }
  }

  lemma RewoundPoll<C>(s: Server<C>, inp: PollInput<C>) returns (h: Server<C>)
    requires Sound(s) && InputOk(s, inp)
    ensures h == s.(open := s.open.Rewind()) && Sound(h) && InputOk(h, inp)
    ensures Poll(s, inp) == PollFrom(h, inp) && PollResult(s, inp) == PollCode(h, inp)
    ensures Failing(h, inp) == Failing(s, inp) && h.open.pos == 0 && h.open.items != []
  {
    AdvanceOpenKeepsSound(s);
    h := s.(open := s.open.Rewind());
  }

  lemma PollFromHead<C>(s: Server<C>, inp: PollInput<C>)
    requires Sound(s) && InputOk(s, inp)
    ensures s.open.Rewind().items != [] && s.open.Rewind().pos == 0
    ensures s.open.items[|s.open.items| - 1] !in Failing(s, inp)
    ensures QueuesPolled(s.open.Rewind(), s.free.items, Waiting(s, inp), Failing(s, inp),
                         Poll(s, inp).open, Poll(s, inp).free.items)
  {
    var h := RewoundPoll(s, inp);
    ListenerNeverFails(s, inp);
    PollFromCloses(h, inp, Waiting(s, inp), Failing(s, inp));
  }

  lemma PollQueues<C>(s: Server<C>, inp: PollInput<C>)
    requires Sound(s) && InputOk(s, inp)
    ensures s.open.items != []
    ensures QueuesAfterPoll(s.open.items, s.free.items, Waiting(s, inp), Failing(s, inp),
                            Poll(s, inp).open.items, Poll(s, inp).free.items)
  {
    PollFromHead(s, inp);
    ClosedQueues(s.open.Rewind(), s.free.items, Waiting(s, inp), Failing(s, inp),
                 Poll(s, inp).open, Poll(s, inp).free.items);
  }

  // What becomes of the skipped slot: it is the first one in the next poll, unless all the other
  // client slots fail and an accepted client gets one of them.
  lemma SkippedComesFirst<C>(s: Server<C>, inp: PollInput<C>)
    requires Sound(s) && InputOk(s, inp)
    requires |s.open.items| >= 3 && s.open.items[0] in Failing(s, inp)
    ensures var r := Poll(s, inp);
            && r.open.items != []
            && (r.open.items[0] == s.open.items[1] <==>
                  !(Waiting(s, inp) && |Survivors(s.open.items, Failing(s, inp))| == 2))
  {
    hide Sound, InputOk, Poll, Failing, Waiting;
    PollQueues(s, inp);
    ListenerNeverFails(s, inp);
    SlotsArePartitioned(s);
    FirstAfterPoll(s.open.items, s.free.items, Waiting(s, inp), Failing(s, inp), Poll(s, inp).open.items,
                   Poll(s, inp).free.items);
  }

  lemma PushBeforeLastTwo(kept: seq<nat>, x: nat)
    requires |kept| >= 2
    ensures var r := PushNth(kept, x, BeforeLastTwo(|kept|)); r != [] && r[0] == if |kept| == 2 then x else kept[0]
  {
  }

  // When the first slot fails, the slot given back last was visited, unlike the second one.
  lemma LastGivenBack(open: seq<nat>, free: seq<nat>, failing: set<nat>)
    requires NoDup(open) && |open| >= 3 && open[0] in failing
    ensures var slots := FreeThen(free, Visited(open, failing), failing);
            slots != [] && slots[|slots| - 1] != open[1]
  {
    var seen := Visited(open, failing);
    var back := Pick(seen, failing);
    assert seen[1..] == open[2..] && back == [open[0]] + Pick(open[2..], failing);
    PickMembers(seen, failing, back[|back| - 1]);
    assert open[1] !in seen by { SweepCoverage(open, failing); }
  }

  lemma KeptAfterFailure(open: seq<nat>, failing: set<nat>)
    requires |open| >= 3 && open[0] in failing && open[|open| - 1] !in failing
    ensures var kept := Survivors(open, failing); |kept| >= 2 && kept[0] == open[1]
    ensures open[|open| - 1] in Visited(open, failing)
  {
    assert open[2..][|open| - 3] == open[|open| - 1];
    assert open[|open| - 1] in open[2..];
    KeepIsFilter(open[2..], failing, open[|open| - 1]);
  }

  lemma FirstAfterPoll(open: seq<nat>, free: seq<nat>, waiting: bool, failing: set<nat>,
                       open': seq<nat>, free': seq<nat>)
    requires NoDup(open) && |open| >= 3 && open[0] in failing && open[|open| - 1] !in failing
    requires QueuesAfterPoll(open, free, waiting, failing, open', free')
    ensures open' != [] && (open'[0] == open[1] <==> !(waiting && |Survivors(open, failing)| == 2))
  {
    hide Visited, Survivors, FreeThen, BeforeLastTwo, PushNth;
    var slots := FreeThen(free, Visited(open, failing), failing);
    LastGivenBack(open, free, failing);
    KeptAfterFailure(open, failing);
    PushBeforeLastTwo(Survivors(open, failing), slots[|slots| - 1]);
  }

  // A poll answers -1 exactly when it visits the listening slot, a client is waiting there, and it
  // cannot be accepted with the slots that are free by then.
  lemma PollFailsWhen<C>(s: Server<C>, inp: PollInput<C>)
    requires Sound(s) && InputOk(s, inp)
    ensures var open, failing := s.open.items, Failing(s, inp);
            var seen := Visited(open, failing);
            && open != []
            && (PollResult(s, inp) == -1 <==>
                  && open[|open| - 1] in seen && s.listening in inp.ready
                  && (!inp.accept.Admitted? || s.free.items + Pick(seen, failing) == []))
            && PollResult(s, inp) in {0, -1}
  {
    hide Sound, InputOk, PollCode, PollResult, Poll, PollFrom, Failing;
    var h := RewoundPoll(s, inp);
    SoundCursors(s);
    PollCodeCloses(h, inp, Failing(s, inp));
    SweepFromHead(s.open, Failing(s, inp));
  }

  // It visits no slot twice, and all the slots that were open but at most one: the original
  // second one, which it skips exactly when the first one fails. A skipped client is left as it
  // was; a visited one has received its blocks, and is dropped exactly when its socket failed.
  lemma PollCoverage<C>(s: Server<C>, inp: PollInput<C>)
    requires Sound(s) && InputOk(s, inp)
    ensures var seen := Visited(s.open.items, Failing(s, inp));
            && PolledHeap(s, Poll(s, inp), inp, seen)
            && NoDup(seen)
            && (forall i :: i in s.open.items && i !in seen <==>
                  |s.open.items| >= 2 && s.open.items[0] in Failing(s, inp) && i == s.open.items[1])
  {
    AdvanceOpenKeepsSound(s);
    var h := s.(open := s.open.Rewind());
    assert Failing(h, inp) == Failing(s, inp);
    PollFromHeap(h, inp);
    SweepFromHead(s.open, Failing(s, inp));
    SlotsArePartitioned(s);
    SweepCoverage(s.open.items, Failing(s, inp));
    var seen := Visited(s.open.items, Failing(s, inp));
    assert PolledHeap(s, Poll(s, inp), inp, seen) by {
      forall k | 0 <= k < |s.open.items| && ClientAt(s.open.items[k], s.pool).Some?
        ensures PolledClient(s, Poll(s, inp), inp, seen, s.open.items[k])
      {
        assert PolledClient(h, Poll(s, inp), inp, seen, h.open.items[k]);
      }
    }
  }

  // A client is dropped exactly when its slot is visited, its socket is ready, and reading from it ends
  // with the end of the stream or an error instead of waiting for more.
  lemma WhoIsDropped<C>(s: Server<C>, inp: PollInput<C>, i: nat)
    requires Sound(s) && InputOk(s, inp) && i in s.open.items && ClientAt(i, s.pool).Some?
    ensures var c, socket := ClientAt(i, s.pool).value, s.pool[i].socket;
            && c in s.heap
            && (c !in Poll(s, inp).heap <==>
                  && i in Visited(s.open.items, Failing(s, inp))
                  && socket in inp.ready && socket in inp.events && !inp.events[socket].again)
  {
    hide Sound, InputOk, Poll, Failing;
    PollCoverage(s, inp);
    var k :| 0 <= k < |s.open.items| && s.open.items[k] == i;
    assert PolledClient(s, Poll(s, inp), inp, Visited(s.open.items, Failing(s, inp)), s.open.items[k]);
  }

  // ----- The client that is first in its queue -----

  lemma RemoveKeepsHead<T>(q: Cursor<T>, x: T)
    requires q.Ok() && q.items != [] && x != q.items[0]
    ensures q.Remove(x, QdPrev).items != [] && q.Remove(x, QdPrev).items[0] == q.items[0]
  {
  }

  // c stays first, unless it is dropped.
  ghost predicate HeadStays<C>(s: Server<C>, r: Server<C>, c: C) {
    s.clients.items != [] && s.clients.items[0] == c && c in s.heap && c in r.heap ==>
      r.clients.items != [] && r.clients.items[0] == c
  }

  lemma HandledKeepsHead<C>(s: Server<C>, inp: PollInput<C>, t: Server<C>, c: C)
    requires Sound(s) && Handled(s, inp, t)
    ensures HeadStays(s, t, c)
  {
    var d := ClientAt(s.open.items[s.open.pos], s.pool).value;
    if s.clients.items != [] && s.clients.items[0] == c && d != c { RemoveKeepsHead(s.clients, d); }
  }

  lemma ListenerKeepsHead<C>(s: Server<C>, inp: PollInput<C>, c: C)
    requires Sound(s)
    ensures HeadStays(s, HandleListener(s, inp), c)
  {
  }

  // A client dropped during a poll does not come back in it.
  lemma PollFromForgets<C>(s: Server<C>, inp: PollInput<C>, c: C)
    requires Sound(s) && InputOk(s, inp) && c !in s.heap && (inp.accept.Admitted? ==> c != inp.accept.client)
    ensures c !in PollFrom(s, inp).heap
  {
    PollFromHeap(s, inp);
  }

  lemma {:induction false} PollFromKeepsHead<C>(s: Server<C>, inp: PollInput<C>, c: C)
    requires Sound(s) && InputOk(s, inp)
    ensures HeadStays(s, PollFrom(s, inp), c)
    decreases |s.open.items| - s.open.pos
  {
    hide Sound, InputOk, PollFrom, HandleClient, HandleListener;
    if AtClient(s) {
      var t, u := PollStep(s, inp);
      HandledKeepsHead(s, inp, t, c);
      if !t.open.AtEnd() {
        PollFromKeepsHead(u, inp, c);
        if c in s.heap && c !in u.heap { KnownIsNotAccepted(s, inp, c); PollFromForgets(u, inp, c); }
      }
    } else {
      PollFromListener(s, inp);
      ListenerKeepsHead(s, inp, c);
    }
  }

  lemma KnownIsNotAccepted<C>(s: Server<C>, inp: PollInput<C>, c: C)
    requires InputOk(s, inp) && c in s.heap
    ensures inp.accept.Admitted? ==> c != inp.accept.client
  {
  }

  // The client that is first in the queue stays first for as long as it lives.
  lemma PollKeepsHead<C>(s: Server<C>, inp: PollInput<C>, c: C)
    requires Sound(s) && InputOk(s, inp)
    ensures HeadStays(s, Poll(s, inp), c)
  {
    var h := RewoundPoll(s, inp);
    PollFromKeepsHead(h, inp, c);
  }

  // ----- A slot that is never read -----

  // Two clients; the connection of the first one ends, and another client waits.
  ghost predicate Starving<C>(s: Server<C>, inp: PollInput<C>) {
    |s.open.items| == 3 && s.open.items[0] in Failing(s, inp) && Waiting(s, inp)
  }

  // The new client gets the slot of the first one, before the second one, which has not been read.
  lemma StarvingPoll<C>(s: Server<C>, inp: PollInput<C>)
    requires Sound(s) && InputOk(s, inp) && Starving(s, inp)
    ensures var r, i := Poll(s, inp), s.open.items[0];
            && i < |s.pool| && ClientAt(i, s.pool).Some?
            && r.open.items == s.open.items
            && r.pool == s.pool[i := Slot(inp.accept.fd, Some(inp.accept.client))]
            && (forall c :: c in s.heap && Some(c) != ClientAt(i, s.pool) ==> c in r.heap && r.heap[c] == s.heap[c])
            && inp.accept.client in r.heap
  {
    hide Sound, InputOk, PollFrom, PollCode, HandleClient, ReceiveAll, Cursor.Insert, Cursor.Push, Cursor.Remove;
    var h := RewoundPoll(s, inp);
    var i := s.open.items[0];
    SlotsArePartitioned(s);
    var t, u := PollStep(h, inp);
    assert u.open == Cursor([s.open.items[1], s.open.items[2]], 1);
    PollFromListener(u, inp);
    assert u.free.items == s.free.items + [i];
    InsertBeforeListener(u.open, i);
    assert PushNth(u.open.items, i, 0) == s.open.items;
  }
}
