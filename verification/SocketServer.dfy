/**
 The server in place: the pool of socket slots, the queues over it, the client records and the
 receive ring, with the loops of the poll and of the two client sweeps.
 */
module SocketServer {
  import opened Common
  import opened CursorQueue
  import opened RingBuffer
  import opened Clients
  import opened ClientRecord
  import opened ClientIO
  import opened ServerModel
  import opened ServerSteps
  import opened ClientSweeps
  import opened SocketPoll

  // Inserts slots 0 .. n - 1 into a new queue.
  method FillPool(free: Queue<nat>, n: nat)
    requires free.State() == Cursor([], -1)
    modifies free
    ensures free.State() == FreePool(n)
  {
    FreePoolStep(0);
    for i := 0 to n
      invariant free.State() == FreePool(i)
    {
      FreePoolStep(i);
      var _ := free.InsertNode(i);
    }
  }

  // Takes the first slot for the listening socket.
  method OpenListener(pool: array<Slot<Client>>, free: Queue<nat>, open: Queue<nat>, fd: int)
    requires pool.Length > 0 && free != open
    requires free.State() == FreePool(pool.Length) && open.State() == Cursor([], -1)
    modifies pool, free, open
    ensures pool[..] == old(pool[..])[0 := Slot(fd, None)]
    ensures free.State() == FreePool(pool.Length).Pop() && open.State() == Cursor([], -1).Add(0)
  {
    PoolAfterListener(pool.Length);
    var entry := free.Pop();
    assert entry == Some(0);
    pool[entry.value] := Slot(fd, None);
    open.AddNode(entry.value);
  }

  // Moves the last free slot to the open ones, for client c.
  method TakeSlot(pool: array<Slot<Client>>, free: Queue<nat>, open: Queue<nat>, fd: int, c: Client)
    requires free != open && free.items != [] && free.items[|free.items| - 1] < pool.Length
    modifies pool, free, open
    ensures var i := old(free.items)[|old(free.items)| - 1];
            && free.State() == old(free.State()).Pop()
            && pool[..] == old(pool[..])[i := Slot(fd, Some(c))]
            && open.State() == old(open.State()).Insert(i).Next()
  {
    var slot := free.Pop();
    pool[slot.value] := Slot(fd, Some(c));
    var _ := open.InsertNode(slot.value);
    var _ := open.Next();
  }

  // Gives the open slot at the cursor back to the pool.
  method ReleaseSlot(open: Queue<nat>, free: Queue<nat>)
    requires open != free && open.Get().Some?
    modifies open, free
    ensures open.State() == old(open.State()).Delete(QdPrev)
    ensures free.State() == old(free.State()).Push(old(open.Get()).value)
  {
    var deleted := open.DeleteNode(QdPrev);
    free.Push(deleted.value);
  }

  // Takes client c out of the client queue and out of slot i.
  method ForgetClient(clients: Queue<Client>, pool: array<Slot<Client>>, c: Client, i: nat)
    requires clients.Valid() && i < pool.Length
    modifies clients, pool
    ensures clients.State() == old(clients.State()).Remove(c, QdPrev)
    ensures pool[..] == old(pool[..])[i := Slot(old(pool[i].socket), None)]
  {
    var _ := clients.Remove(c, QdPrev);
    pool[i] := Slot(pool[i].socket, None);
  }

  // Compares a slot with a client.
  function ByClient(slots: seq<Slot<Client>>, c: Client): nat -> bool {
    (i: nat) => ClientAt(i, slots) == Some(c)
  }

  // The live records are in the states on file, and each has a message queue of its own.
  ghost predicate Linked(heap: map<Client, ClientState>)
    reads set c | c in heap
    reads set c | c in heap :: c.messages
  {
    && (forall c :: c in heap ==> c.State() == heap[c] && StreamOk(heap[c]))
    && (forall c, d :: c in heap && d in heap && c != d ==> c.messages != d.messages)
  }

  // None of the message queues is one of the server's own queues.
  ghost predicate Apart(heap: map<Client, ClientState>, queues: set<object>)
    reads set c | c in heap
  {
    forall c :: c in heap ==> (c.messages as object) !in queues
  }

  lemma NothingLinked(queues: set<object>)
    ensures Linked(map[]) && Apart(map[], queues)
  {
  }

  lemma TickKeepsStream(cs: ClientState, tDiff: int)
    requires StreamOk(cs)
    ensures StreamOk(CheckTimeout(cs, tDiff))
  {
  }

  // Checks the timeout of one of the linked records.
  method CheckRecord(c: Client, tDiff: int, ghost heap: map<Client, ClientState>, ghost queues: set<object>)
    requires Linked(heap) && Apart(heap, queues) && c in heap
    modifies c
    ensures var after := heap[c := CheckTimeout(heap[c], tDiff)];
            Linked(after) && Apart(after, queues) && c.destroy == after[c].vars.destroy
    ensures c.messages == old(c.messages)
  {
    hide StreamOk;
    TickKeepsStream(heap[c], tDiff);
    c.CheckTimeout(tDiff);
  }

  // Processes the messages of one of the linked records.
  method WorkRecord(c: Client, exec: Handler, ghost heap: map<Client, ClientState>, ghost queues: set<object>)
    returns (reaped: bool)
    requires Linked(heap) && Apart(heap, queues) && c in heap
    modifies c, c.messages
    ensures var after := heap[c := ProcessMessages(heap[c], exec)];
            Linked(after) && Apart(after, queues)
    ensures reaped == Reaps(Work(exec), heap[c]) && c.messages == old(c.messages)
  {
    hide StreamOk, Reaps, ProcessMessages;
    ProcessingKeepsStream(heap[c], exec);
    reaped := ProcessClient(c, exec);
  }

  // Reads from the socket of one of the linked records.
  method ReadRecord(ring: Ring, c: Client, event: ReadEvent,
                    ghost heap: map<Client, ClientState>, ghost queues: set<object>)
    returns (err: int)
    requires Linked(heap) && Apart(heap, queues) && c in heap
    requires ring.Valid() && ring.data == "" && ring.capacity == MAXMSG
    requires ChunksOk(event.chunks) && Fit(event.chunks)
    modifies ring, c, c.messages
    ensures ring.Valid() && ring.data == ""
    ensures var after := heap[c := ReceiveAll(heap[c], event.chunks)];
            Linked(after) && Apart(after, queues)
    ensures err == (if event.again then 0 else -1) && c.messages == old(c.messages)
  {
    hide StreamOk, ReceiveAll;
    ReceiveAllKeepsStream(heap[c], event.chunks);
    err := ReadFromClient(ring, c, event);
  }

  // Fills in a record for a new client.
  method CreateRecord(c: Client, fd: int, ghost heap: map<Client, ClientState>, ghost queues: set<object>)
    requires Linked(heap) && Apart(heap, queues) && c !in heap
    modifies c
    ensures var after := heap[c := NEW_CLIENT];
            Linked(after) && Apart(after, queues)
    ensures fresh(c.messages)
  {
    c.Create(fd);
  }

  lemma LinkedSub(before: map<Client, ClientState>, after: map<Client, ClientState>, queues: set<object>)
    requires Linked(before) && Apart(before, queues)
    requires forall c :: c in after ==> c in before && after[c] == before[c]
    ensures Linked(after) && Apart(after, queues)
  {
  }

  lemma CursorClientIsAlive<C>(s: Server<C>)
    requires Sound(s) && 0 <= s.clients.pos < |s.clients.items|
    ensures s.clients.items[s.clients.pos] in s.heap
  {
  }

  lemma SweepStarts<C>(s: Server<C>, v: Visit)
    requires Sound(s)
    ensures var h := s.(clients := s.clients.Rewind());
            && Sound(h) && SweepClients(s, v) == SweepFrom(h, v)
            && (h.clients.Get() == None ==> SweepFrom(h, v) == h)
            && (h.clients.Get() != None ==> 0 <= h.clients.pos < |h.clients.items|)
  {
    AdvanceKeepsSound(s);
  }

  lemma AcceptedFields<C>(s: Server<C>, t: Server<C>, fd: int, c: C)
    requires s.free.items != []
    requires var i := s.free.items[|s.free.items| - 1];
             && i < |s.pool|
             && t.free == s.free.Pop() && t.pool == s.pool[i := Slot(fd, Some(c))]
             && t.open == s.open.Insert(i).Next() && t.clients == s.clients.Push(c)
             && t.heap == s.heap[c := NEW_CLIENT]
    requires t.closed == s.closed && t.listening == s.listening
    ensures t == AcceptClient(s, fd, c)
  {
  }

  // The slot at the cursor is a client's, or it is the listening one and the last.
  lemma SlotAtCursor<C>(s: Server<C>, inp: PollInput<C>)
    requires Sound(s) && InputOk(s, inp) && 0 <= s.open.pos < |s.open.items|
    ensures var i := s.open.items[s.open.pos];
            && i < |s.pool|
            && (s.pool[i].socket == s.listening <==> s.open.pos == |s.open.items| - 1)
            && (AtClient(s) <==> s.open.pos < |s.open.items| - 1)
            && (AtClient(s) ==> s.pool[i].client.Some?)
            && (AtClient(s) && s.pool[i].socket !in inp.ready ==> HandleClient(s, inp) == s)
    ensures inp.accept.Admitted? ==> inp.accept.fd != s.listening && inp.accept.client !in s.heap
  {
    if AtClient(s) { OpenSlotHasClient(s, s.open.pos); }
  }

  lemma ExhaustedKeepsSound<C>(s: Server<C>)
    requires Sound(s) && s.free.items == []
    ensures Sound(s.(free := s.free.Pop()))
  {
  }

  // The memory for the record of the client that a poll may accept.
  ghost function NewRecord(inp: PollInput<Client>): set<Client> {
    if inp.accept.Admitted? then {inp.accept.client} else {}
  }

  class SocketServer {
    const pool: array<Slot<Client>>
    const free: Queue<nat>
    const open: Queue<nat>
    const clients: Queue<Client>
    const ring: Ring
    const listening: int

    // What is in the records of the live clients, and what was in those of the destroyed ones.
    ghost var heap: map<Client, ClientState>
    ghost var closed: map<Client, ClientState>

    ghost function Abs(): Server<Client>
      reads this, pool, free, open, clients
    {
      Server(pool[..], free.State(), open.State(), clients.State(), heap, closed, listening)
    }

    ghost predicate Valid()
      reads this, pool, free, open, clients, ring
      reads set c | c in heap
      reads set c | c in heap :: c.messages
    {
      && Sound(Abs())
      && Linked(heap)
      && free != open
      && Apart(heap, {free, open, clients})
      && ring.Valid() && ring.capacity == MAXMSG && ring.data == ""
    }

    // Sets the pool up: all slots are free but slot 0, which listens on fd. The size of the pool
    // is the platform's FD_SETSIZE.
    constructor (fd: int, fdSetSize: nat)
      requires fdSetSize > 0
      ensures Valid() && pool.Length == fdSetSize
      ensures Abs() == Init(fd, pool.Length)
      ensures fresh(pool) && fresh(free) && fresh(open) && fresh(clients) && fresh(ring)
    {
      listening := fd;
      pool := new Slot<Client>[fdSetSize](_ => Slot(0, None));
      free := new Queue<nat>();
      open := new Queue<nat>();
      clients := new Queue<Client>();
      ring := new Ring(MAXMSG);
      heap, closed := map[], map[];
      new;
      hide Init, FreePool, Sound, Linked, Apart, Cursor.Pop, Cursor.Add;
      ghost var zeroed := pool[..];
      FillPool(free, pool.Length);
      OpenListener(pool, free, open, fd);
      NothingLinked({free, open, clients});
      InitShape(Abs(), fd, zeroed);
    }

    // Drops the client of the open slot at the cursor.
    method DestroySocket()
      requires Valid() && AtClient(Abs())
      modifies this, pool, free, open, clients
      ensures SlotsInUse(old(Abs()))
      ensures Valid() && Abs() == ServerSteps.DestroySocket(old(Abs()))
      ensures heap.Keys <= old(heap.Keys)
    {
      hide Sound, ServerSteps.DestroySocket, Linked, Cursor.Remove, Cursor.Delete, Cursor.Push;
      ghost var s := Abs();
      SoundCursors(s);
      DestroyKeepsSound(s);
      var entry := open.Get();
      if entry.Some? {
        var client := pool[entry.value].client;
        if client.Some? {
          LinkedSub(heap, heap - {client.value}, {free, open, clients});
          heap, closed := heap - {client.value}, closed[client.value := heap[client.value]];
          ForgetClient(clients, pool, client.value, entry.value);
        }
        ReleaseSlot(open, free);
      }
      assert Abs() == ServerSteps.DestroySocket(s);
    }

    // Finds the open slot of client c and drops the client; -1 when it has none.
    method DestroyClientSocket(c: Client) returns (r: int)
      requires Valid()
      modifies this, pool, free, open, clients
      ensures SlotsInUse(old(Abs()))
      ensures Valid() && Abs() == ServerSteps.DestroyClientSocket(old(Abs()), c)
      ensures r == if c in old(heap) then 0 else -1
      ensures heap.Keys <= old(heap.Keys)
    {
      hide Sound, ServerSteps.DestroySocket, Linked;
      ghost var s := Abs();
      SoundCursors(s);
      SoundSlotsInUse(s);
      if c in heap { ClientSlotIsFound(s, c); } else { StrangerIsNotFound(s, c); }
      open.Rewind();
      var slots := pool[..];
      var found := open.Find(ByClient(slots, c), SlotsOf(s, c));
      CursorMovesKeepSound(s, Abs());
      if found {
        DestroySocket();
        return 0;
      }
      return -1;
    }

    // The visit of the timeout sweep to one client.
    method CheckClient(c: Client, tDiff: int)
      requires Valid() && c in heap
      modifies this, pool, free, open, clients, c
      ensures Valid() && Abs() == VisitAndReap(old(Abs()), c, Tick(tDiff))
      ensures heap.Keys <= old(heap.Keys) && c.messages == old(c.messages)
    {
      hide Sound, ServerSteps.DestroyClientSocket, Linked;
      ghost var s := Abs();
      VisitKeepsSound(s, c, Tick(tDiff));
      HeapUpdateKeepsSound(s, c, CheckTimeout(s.heap[c], tDiff));
      CheckRecord(c, tDiff, heap, {free, open, clients});
      heap := heap[c := CheckTimeout(heap[c], tDiff)];
      if c.destroy {
        var _ := DestroyClientSocket(c);
      }
    }

    // The visit of the parse sweep to one client.
    method WorkClient(c: Client, exec: Handler)
      requires Valid() && c in heap
      modifies this, pool, free, open, clients, c, c.messages
      ensures Valid() && Abs() == VisitAndReap(old(Abs()), c, Work(exec))
      ensures heap.Keys <= old(heap.Keys) && c.messages == old(c.messages)
    {
      hide Sound, ServerSteps.DestroyClientSocket, Linked, Reaps, ProcessMessages;
      ghost var s := Abs();
      VisitKeepsSound(s, c, Work(exec));
      HeapUpdateKeepsSound(s, c, ProcessMessages(s.heap[c], exec));
      var reaped := WorkRecord(c, exec, heap, {free, open, clients});
      heap := heap[c := ProcessMessages(heap[c], exec)];
      if reaped {
        var _ := DestroyClientSocket(c);
      }
    }

    // One step of a client sweep: after the visit, on to the next client.
    ghost predicate SweepAt(c: Option<Client>, v: Visit, target: Server<Client>)
      reads this, pool, free, open, clients
      requires Sound(Abs())
    {
      match c
      case None => Abs() == target
      case Some(client) =>
        && 0 <= clients.position < |clients.items| && client == clients.items[clients.position]
        && SweepFrom(Abs(), v) == target
    }

    // Moves the client sweep on.
    method NextClient(ghost before: Server<Client>, ghost c: Client, ghost v: Visit, ghost target: Server<Client>)
      returns (next: Option<Client>)
      requires Valid() && Sound(before) && c in before.heap && Abs() == VisitAndReap(before, c, v)
      requires 0 <= before.clients.pos < |before.clients.items| && c == before.clients.items[before.clients.pos]
      requires SweepFrom(before, v) == target
      modifies clients
      ensures Valid() && heap == old(heap) && SweepAt(next, v, target)
      ensures next.Some? ==> |clients.items| - clients.position < |before.clients.items| - before.clients.pos
    {
      hide Sound, VisitAndReap, Linked;
      ghost var t := Abs();
      var d, u := SweepStep(before, v);
      SoundCursors(t);
      AdvanceKeepsSound(t);
      next := clients.GetNext();
    }

    // One step of the timeout sweep: the visit, and on to the next client.
    method CheckNext(c: Client, tDiff: int, ghost target: Server<Client>) returns (next: Option<Client>)
      requires Valid() && c in heap && SweepAt(Some(c), Tick(tDiff), target)
      modifies this, pool, free, open, clients, c
      ensures Valid() && SweepAt(next, Tick(tDiff), target)
      ensures heap.Keys <= old(heap.Keys) && c.messages == old(c.messages)
      ensures next.Some? ==> |clients.items| - clients.position < old(|clients.items| - clients.position)
    {
      hide Sound, VisitAndReap, Linked, SweepFrom;
      ghost var before := Abs();
      CheckClient(c, tDiff);
      next := NextClient(before, c, Tick(tDiff), target);
    }

    // One step of the parse sweep.
    method WorkNext(c: Client, exec: Handler, ghost target: Server<Client>) returns (next: Option<Client>)
      requires Valid() && c in heap && SweepAt(Some(c), Work(exec), target)
      modifies this, pool, free, open, clients, c, c.messages
      ensures Valid() && SweepAt(next, Work(exec), target)
      ensures heap.Keys <= old(heap.Keys) && c.messages == old(c.messages)
      ensures next.Some? ==> |clients.items| - clients.position < old(|clients.items| - clients.position)
    {
      hide Sound, VisitAndReap, Linked, SweepFrom;
      ghost var before := Abs();
      WorkClient(c, exec);
      next := NextClient(before, c, Work(exec), target);
    }

    // Checks all clients for expired timeouts.
    method ClientsCheckTimeouts(tDiff: int)
      requires Valid()
      modifies this, pool, free, open, clients, set c | c in heap
      ensures Valid() && Abs() == SweepClients(old(Abs()), Tick(tDiff))
      ensures heap.Keys <= old(heap.Keys) && forall d :: d in heap ==> d.messages == old(d.messages)
    {
      hide Sound, VisitAndReap, Linked, SweepFrom;
      ghost var v, target := Tick(tDiff), SweepClients(Abs(), Tick(tDiff));
      SoundCursors(Abs());
      AdvanceKeepsSound(Abs());
      var c := clients.GetFirst();
      SweepStarts(old(Abs()), v);
      while c.Some?
        invariant Valid() && heap.Keys <= old(heap.Keys)
        invariant forall d :: d in heap ==> d.messages == old(d.messages)
        invariant SweepAt(c, v, target)
        decreases c.Some?, |clients.items| - clients.position
      {
        CursorClientIsAlive(Abs());
        c := CheckNext(c.value, tDiff, target);
      }
    }

    // Processes the pending messages of all clients.
    method ParseAllClientMessages(exec: Handler)
      requires Valid()
      modifies this, pool, free, open, clients, set c | c in heap
      modifies set c | c in heap :: c.messages
      ensures Valid() && Abs() == SweepClients(old(Abs()), Work(exec))
      ensures heap.Keys <= old(heap.Keys)
    {
      hide Sound, VisitAndReap, Linked, SweepFrom;
      ghost var v, target := Work(exec), SweepClients(Abs(), Work(exec));
      SoundCursors(Abs());
      AdvanceKeepsSound(Abs());
      var c := clients.GetFirst();
      SweepStarts(old(Abs()), v);
      while c.Some?
        invariant Valid() && heap.Keys <= old(heap.Keys)
        invariant forall d :: d in heap ==> d.messages == old(d.messages)
        invariant SweepAt(c, v, target)
        decreases c.Some?, |clients.items| - clients.position
      {
        CursorClientIsAlive(Abs());
        c := WorkNext(c.value, exec, target);
      }
    }

    // Handles the client slot at the cursor, whose socket is ready: reads, and drops the client
    // when its connection is over.
    method ReadClient(inp: PollInput<Client>)
      requires Valid() && InputOk(Abs(), inp) && AtClient(Abs())
      requires open.items[open.position] < pool.Length
      requires pool[open.items[open.position]].socket in inp.ready
      requires Fit(Event(inp, pool[open.items[open.position]].socket).chunks)
      modifies this, pool, free, open, clients, ring
      modifies set c | c in heap
      modifies set c | c in heap :: c.messages
      ensures Valid() && Abs() == HandleClient(old(Abs()), inp)
      ensures heap.Keys <= old(heap.Keys) && forall d :: d in heap ==> d.messages == old(d.messages)
    {
      hide Sound, ServerSteps.DestroySocket, Linked, ReceiveAll, InputOk;
      ghost var s := Abs();
      OpenSlotHasClient(s, open.position);
      var slot := pool[open.items[open.position]];
      var c := slot.client.value;
      ReadKeepsSound(s, c, inp, slot.socket);
      var err := ReadRecord(ring, c, Event(inp, slot.socket), heap, {free, open, clients});
      heap := heap[c := ReceiveAll(heap[c], Event(inp, slot.socket).chunks)];
      if err < 0 {
        DestroySocket();
      }
    }

    // Accepts a waiting client into a free slot.
    method AcceptWaiting(fd: int, c: Client)
      requires Valid() && free.items != [] && open.position == |open.items| - 1
      requires fd != listening && c !in heap
      modifies this, pool, free, open, clients, c
      ensures old(free.items)[|old(free.items)| - 1] < pool.Length
      ensures Valid() && Abs() == AcceptClient(old(Abs()), fd, c)
      ensures heap == old(heap)[c := NEW_CLIENT] && fresh(c.messages)
    {
      hide Sound, Linked, Apart, AcceptClient, Cursor.Push, Cursor.Pop, Cursor.Insert, Cursor.Next;
      ghost var s := Abs();
      AcceptKeepsSound(s, fd, c);
      CreateRecord(c, fd, heap, {free, open, clients});
      TakeSlot(pool, free, open, fd, c);
      clients.Push(c);
      heap := heap[c := NEW_CLIENT];
      AcceptedFields(s, Abs(), fd, c);
    }

    // Fails to accept a waiting client: no slot is free.
    method ExhaustPool(fd: int, c: Client)
      requires Valid() && free.items == [] && c !in heap
      modifies free, c
      ensures Valid() && Abs() == old(Abs()).(free := old(free.State()).Pop()) && heap == old(heap)
    {
      hide Sound, Linked;
      ExhaustedKeepsSound(Abs());
      CreateRecord(c, fd, heap, {free, open, clients});
      LinkedSub(heap[c := NEW_CLIENT], heap, {free, open, clients});
      var _ := free.Pop();
    }

    // The state of the poll at a slot, or at its end.
    ghost predicate PollAt(slot: Option<nat>, r: int, inp: PollInput<Client>, target: Server<Client>, code: int)
      reads this, pool, free, open, clients
    {
      match slot
      case None => Abs() == target && r == code
      case Some(i) =>
        && Sound(Abs()) && InputOk(Abs(), inp)
        && 0 <= open.position < |open.items| && i == open.items[open.position]
        && PollFrom(Abs(), inp) == target && PollCode(Abs(), inp) == code && r == 0
    }

    // What the world presents to a poll can be received in whole blocks.
    ghost predicate InputFits(inp: PollInput<Client>) {
      forall fd {:trigger Fit(inp.events[fd].chunks)} :: fd in inp.events ==> Fit(inp.events[fd].chunks)
    }

    // Moves the poll on to the next slot.
    method NextSlot(inp: PollInput<Client>, ghost before: Server<Client>, ghost target: Server<Client>, ghost code: int)
      returns (next: Option<nat>)
      requires Valid() && Sound(before) && InputOk(before, inp) && AtClient(before)
      requires Abs() == HandleClient(before, inp)
      requires PollFrom(before, inp) == target && PollCode(before, inp) == code
      modifies open
      ensures Valid() && heap == old(heap) && PollAt(next, 0, inp, target, code)
      ensures next.Some? ==> |open.items| - open.position < |before.open.items| - before.open.pos
    {
      hide Sound, HandleClient, Linked, Apart, InputOk, PollFrom, PollCode;
      var t, u := PollStep(before, inp);
      SoundCursors(u);
      AdvanceOpenKeepsSound(Abs());
      next := open.GetNext();
    }

    // Handles the listening slot: accepts a client that is waiting; -1 when that fails.
    method HandleListening(inp: PollInput<Client>) returns (r: int)
      requires Valid() && InputOk(Abs(), inp) && 0 <= open.position == |open.items| - 1
      modifies this, pool, free, open, clients
      modifies NewRecord(inp)
      ensures Valid() && Abs() == HandleListener(old(Abs()), inp)
      ensures open.State().AtEnd()
      ensures r == -1 <==> listening in inp.ready && (!inp.accept.Admitted? || old(free.items) == [])
      ensures r in {0, -1}
      ensures heap.Keys <= old(heap.Keys) + NewRecord(inp)
      ensures forall d :: d in heap && d !in old(heap) ==> fresh(d.messages)
    {
      hide Sound, InputOk, Linked, Apart, AcceptClient;
      ghost var s := Abs();
      SlotAtCursor(s, inp);
      ListenerKeepsSound(s, inp);
      if listening !in inp.ready {
        return 0;
      }
      match inp.accept {
        case Refused => return -1;
        case NoMemory => return -1;
        case Admitted(fd, c) =>
          if free.Length() == 0 {
            ExhaustPool(fd, c);
            return -1;
          }
          AcceptWaiting(fd, c);
          return 0;
      }
    }

    // Visits the client slot at the cursor, and moves on.
    method VisitSlot(inp: PollInput<Client>, ghost target: Server<Client>, ghost code: int)
      returns (next: Option<nat>)
      requires Valid() && InputFits(inp) && PollAt(open.Get(), 0, inp, target, code) && AtClient(Abs())
      modifies this, pool, free, open, clients, ring
      modifies set c | c in heap
      modifies set c | c in heap :: c.messages
      ensures Valid() && PollAt(next, 0, inp, target, code)
      ensures heap.Keys <= old(heap.Keys) && forall d :: d in heap ==> d.messages == old(d.messages)
      ensures next.Some? ==> |open.items| - open.position < old(|open.items| - open.position)
    {
      hide Sound, InputOk, Linked, Apart, HandleClient, PollFrom, PollCode;
      ghost var before := Abs();
      SlotAtCursor(before, inp);
      if pool[open.items[open.position]].socket in inp.ready {
        ReadClient(inp);
      }
      next := NextSlot(inp, before, target, code);
    }

    // Visits the listening slot, and finds nothing after it.
    method VisitListener(inp: PollInput<Client>, ghost target: Server<Client>, ghost code: int)
      returns (r: int, next: Option<nat>)
      requires Valid() && PollAt(open.Get(), 0, inp, target, code) && 0 <= open.position == |open.items| - 1
      modifies this, pool, free, open, clients
      modifies NewRecord(inp)
      ensures Valid() && next == None && Abs() == target && r == code && -1 <= r <= 0
      ensures heap.Keys <= old(heap.Keys) + NewRecord(inp)
      ensures forall d :: d in heap && d !in old(heap) ==> fresh(d.messages)
    {
      hide Sound, InputOk, Linked, Apart, HandleListener, PollFrom, PollCode;
      ghost var before := Abs();
      SlotAtCursor(before, inp);
      PollFromListener(before, inp);
      r := HandleListening(inp);
      next := None;
      if r == 0 {
        next := open.GetNext();
      }
    }

    // Visits the slot at the cursor, whichever it is.
    method PollSlot(inp: PollInput<Client>, ghost target: Server<Client>, ghost code: int)
      returns (r: int, next: Option<nat>)
      requires Valid() && InputFits(inp) && PollAt(open.Get(), 0, inp, target, code) && open.Get().Some?
      modifies this, pool, free, open, clients, ring
      modifies set c | c in heap
      modifies set c | c in heap :: c.messages
      modifies NewRecord(inp)
      ensures Valid() && PollAt(next, r, inp, target, code)
      ensures next.Some? ==> heap.Keys <= old(heap.Keys) && forall d :: d in heap ==> d.messages == old(d.messages)
      ensures heap.Keys <= old(heap.Keys) + NewRecord(inp)
      ensures forall d :: d in heap ==> (d in old(heap) && d.messages == old(d.messages)) || fresh(d.messages)
      ensures next.Some? ==> |open.items| - open.position < old(|open.items| - open.position)
      ensures -1 <= r <= 0 && (r < 0 ==> next.None?)
    {
      hide Sound, InputOk, Linked, Apart, HandleClient, HandleListener, PollFrom, PollCode;
      SlotAtCursor(Abs(), inp);
      if pool[open.items[open.position]].socket == listening {
        r, next := VisitListener(inp, target, code);
      } else {
        r := 0;
        next := VisitSlot(inp, target, code);
      }
    }

    // Polls the open sockets once; -1 when a client could not be accepted.
    method PollClients(inp: PollInput<Client>) returns (r: int)
      requires Valid() && InputOk(Abs(), inp) && InputFits(inp)
      modifies this, pool, free, open, clients, ring
      modifies set c | c in heap
      modifies set c | c in heap :: c.messages
      modifies NewRecord(inp)
      ensures Valid() && Abs() == Poll(old(Abs()), inp) && r == PollResult(old(Abs()), inp)
      ensures heap.Keys <= old(heap.Keys) + NewRecord(inp)
      ensures forall d :: d in heap ==> fresh(d.messages) || (d in old(heap) && d.messages == old(d.messages))
    {
      hide Sound, InputOk, Linked, Apart, HandleClient, HandleListener, PollFrom, PollCode;
      ghost var target, code := Poll(Abs(), inp), PollResult(Abs(), inp);
      r := 0;
      var _ := RewoundPoll(Abs(), inp);
      open.Rewind();
      var slot := open.Get();
      while slot.Some?
        invariant Valid() && r == 0 && PollAt(slot, r, inp, target, code)
        invariant slot.Some? ==> heap.Keys <= old(heap.Keys)
        invariant heap.Keys <= old(heap.Keys) + NewRecord(inp)
        invariant forall d :: d in heap ==>
          (d in old(heap) && d.messages == old(d.messages)) || (slot.None? && fresh(d.messages))
        decreases slot.Some?, |open.items| - open.position
      {
        r, slot := PollSlot(inp, target, code);
        if r < 0 {
          return -1;
        }
      }
      return 0;
    }
  }
}
