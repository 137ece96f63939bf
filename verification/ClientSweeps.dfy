/**
 The two sweeps over the clients: the check for expired timeouts and the processing of pending
 messages. Both walk the client queue with the cursor while the clients they visit may be
 destroyed, which removes them from the queue being walked.
 */
module ClientSweeps {
  import opened Common
  import opened CursorQueue
  import opened Clients
  import opened ServerModel
  import opened ServerSteps

  // What a sweep does to each client it visits.
  datatype Visit = Tick(tDiff: int) | Work(exec: Handler)

  ghost function VisitClient(v: Visit, cs: ClientState): ClientState
  {
    match v
    case Tick(tDiff) => CheckTimeout(cs, tDiff)
    case Work(exec) => ProcessMessages(cs, exec)
  }

  // Whether the client is destroyed by the visit. The parse sweep looks at the destroy flag only
  // after a message.
  ghost predicate Reaps(v: Visit, cs: ClientState)
  {
    VisitClient(v, cs).vars.destroy && (v.Work? ==> cs.messages.items != [])
  }

  lemma HeapUpdateKeepsSound<C>(s: Server<C>, c: C, cs: ClientState)
    requires Sound(s) && c in s.heap
    ensures Sound(s.(heap := s.heap[c := cs]))
  {
    assert s.heap[c := cs].Keys == s.heap.Keys;
  }

  ghost function VisitAndReap<C>(s: Server<C>, c: C, v: Visit): Server<C>
    requires Sound(s) && c in s.heap
  {
    var t := s.(heap := s.heap[c := VisitClient(v, s.heap[c])]);
    if Reaps(v, s.heap[c]) then
      HeapUpdateKeepsSound(s, c, VisitClient(v, s.heap[c]));
      SoundSlotsInUse(t);
      DestroyClientSocket(t, c)
    else t
  }

  // t is s after visiting client c, which a visit may remove.
  ghost predicate Visiting<C>(s: Server<C>, c: C, v: Visit, t: Server<C>) {
    && c in s.heap
    && t.listening == s.listening && |t.pool| == |s.pool|
    && var cs := VisitClient(v, s.heap[c]);
       if Reaps(v, s.heap[c]) then
         && t.clients == s.clients.Remove(c, QdPrev)
         && t.heap == s.heap - {c}
         && t.closed == s.closed[c := cs]
         && GaveBack(s, t, c)
       else
         && t.free == s.free && t.open == s.open && t.pool == s.pool
         && t.clients == s.clients
         && t.heap == s.heap[c := cs]
         && t.closed == s.closed
  }

  lemma ReapShape<C>(s: Server<C>, c: C, v: Visit, u: Server<C>, t: Server<C>)
    requires c in s.heap && Reaps(v, s.heap[c])
    requires u == s.(heap := s.heap[c := VisitClient(v, s.heap[c])]) && Dropped(u, c, t)
    ensures Visiting(s, c, v, t)
  {
    assert u.heap - {c} == s.heap - {c};
  }

  lemma VisitKeepsSound<C>(s: Server<C>, c: C, v: Visit)
    requires Sound(s) && c in s.heap
    ensures Sound(VisitAndReap(s, c, v)) && Visiting(s, c, v, VisitAndReap(s, c, v))
  {
    HeapUpdateKeepsSound(s, c, VisitClient(v, s.heap[c]));
    if Reaps(v, s.heap[c]) {
      var u := s.(heap := s.heap[c := VisitClient(v, s.heap[c])]);
      DestroyClientKeepsSound(u, c);
      ReapShape(s, c, v, u, VisitAndReap(s, c, v));
    }
  }

  // Removing the client at the cursor is deleting at the cursor.
  lemma RemoveAtCursor<C>(q: Cursor<C>)
    requires q.Ok() && NoDup(q.items) && 0 <= q.pos < |q.items|
    ensures q.Remove(q.items[q.pos], QdPrev) == q.Delete(QdPrev)
  {
    FirstOccurrence(q.items, q.items[q.pos], q.pos);
  }

  lemma AdvanceKeepsSound<C>(s: Server<C>)
    requires Sound(s)
    ensures Sound(s.(clients := s.clients.Next())) && Sound(s.(clients := s.clients.Rewind()))
  {
  }

  lemma VisitAdvances<C>(s: Server<C>, v: Visit)
    requires Sound(s) && 0 <= s.clients.pos < |s.clients.items|
    ensures s.clients.items[s.clients.pos] in s.heap
    ensures var t := VisitAndReap(s, s.clients.items[s.clients.pos], v);
            && Sound(t) && Sound(t.(clients := t.clients.Next()))
            && t.listening == s.listening && |t.pool| == |s.pool|
            && (!t.clients.AtEnd() ==>
                  |t.clients.items| - t.clients.Next().pos < |s.clients.items| - s.clients.pos)
  {
    hide GaveBack, VisitClient, Reaps;
    var c := s.clients.items[s.clients.pos];
    assert c in s.clients.items;
    VisitKeepsSound(s, c, v);
    RemoveAtCursor(s.clients);
    AdvanceKeepsSound(VisitAndReap(s, c, v));
  }

  // "for (c = get; c; c = get_next) visit(c)", from the current client on.
  ghost function SweepFrom<C>(s: Server<C>, v: Visit): (r: Server<C>)
    requires Sound(s)
    ensures Sound(r) && r.listening == s.listening && |r.pool| == |s.pool|
    decreases |s.clients.items| - s.clients.pos
  {
    if !(0 <= s.clients.pos < |s.clients.items|) then s
    else
      VisitAdvances(s, v);
      var t := VisitAndReap(s, s.clients.items[s.clients.pos], v);
      if t.clients.AtEnd() then t else SweepFrom(t.(clients := t.clients.Next()), v)
  }

  ghost function SweepClients<C>(s: Server<C>, v: Visit): (r: Server<C>)
    requires Sound(s)
    ensures Sound(r) && r.listening == s.listening && |r.pool| == |s.pool|
  {
    AdvanceKeepsSound(s);
    SweepFrom(s.(clients := s.clients.Rewind()), v)
  }

  // ----- Coverage -----

  // The effect of visits to the clients in seen on the records of the clients.
  ghost predicate SweptHeap<C>(s: Server<C>, r: Server<C>, v: Visit, seen: seq<C>) {
    && (forall c :: c in r.heap ==>
          c in s.heap && r.heap[c] == if c in seen then VisitClient(v, s.heap[c]) else s.heap[c])
    && (forall c :: c in r.heap && c in seen ==> c in s.heap && !Reaps(v, s.heap[c]))
    && (forall c :: c in s.heap && c !in r.heap ==>
          c in seen && Reaps(v, s.heap[c]) && c in r.closed && r.closed[c] == VisitClient(v, s.heap[c]))
    && (forall c :: c in s.closed && c !in s.heap ==> c in r.closed && r.closed[c] == s.closed[c])
    && r.closed.Keys == s.closed.Keys + (s.heap.Keys - r.heap.Keys)
  }

  // The clients from position p on that a visit would destroy are those of doomed.
  ghost predicate DoomedFrom<C>(clients: seq<C>, p: int, heap: map<C, ClientState>, v: Visit, doomed: set<C>) {
    forall k :: 0 <= k < |clients| && p <= k ==>
      clients[k] in heap && (clients[k] in doomed <==> Reaps(v, heap[clients[k]]))
  }

  lemma DoomedNext<C>(q: Cursor<C>, r: Cursor<C>, heap: map<C, ClientState>, next: map<C, ClientState>,
                      v: Visit, doomed: set<C>)
    requires q.Ok() && NoDup(q.items) && 0 <= q.pos < |q.items|
    requires r == (if q.items[q.pos] in doomed then q.Delete(QdPrev) else q) && !r.AtEnd()
    requires DoomedFrom(q.items, q.pos, heap, v, doomed)
    requires forall c :: c in heap && c != q.items[q.pos] ==> c in next && next[c] == heap[c]
    ensures DoomedFrom(r.items, r.Next().pos, next, v, doomed)
  {
    var shift := if q.items[q.pos] in doomed then 1 else 0;
    forall k | 0 <= k < |r.items| && r.Next().pos <= k
      ensures r.items[k] in next && (r.items[k] in doomed <==> Reaps(v, next[r.items[k]]))
    {
      assert q.pos < k + shift < |q.items| && r.items[k] == q.items[k + shift];
    }
  }

  lemma SweptConsLive<C>(s: Server<C>, t: Server<C>, r: Server<C>, v: Visit, c: C, seen: seq<C>, d: C)
    requires Visiting(s, c, v, t) && c !in seen && SweptHeap(t, r, v, seen) && d in r.heap
    ensures d in s.heap && r.heap[d] == if d in [c] + seen then VisitClient(v, s.heap[d]) else s.heap[d]
    ensures d in [c] + seen ==> !Reaps(v, s.heap[d])
  {
    hide GaveBack, VisitClient, Reaps, Cursor.Remove;
    assert d in t.heap;
    assert d in [c] + seen <==> d == c || d in seen;
  }

  lemma SweptConsGone<C>(s: Server<C>, t: Server<C>, r: Server<C>, v: Visit, c: C, seen: seq<C>, d: C)
    requires Visiting(s, c, v, t) && SweptHeap(t, r, v, seen) && d in s.heap && d !in r.heap
    requires c !in seen
    ensures d in [c] + seen && Reaps(v, s.heap[d]) && d in r.closed && r.closed[d] == VisitClient(v, s.heap[d])
  {
    hide GaveBack, VisitClient, Reaps, Cursor.Remove;
    assert d != c ==> d in t.heap && t.heap[d] == s.heap[d];
    assert d in [c] + seen <==> d == c || d in seen;
  }

  lemma SweptConsKeys<C>(s: Server<C>, t: Server<C>, r: Server<C>, v: Visit, c: C, seen: seq<C>)
    requires Visiting(s, c, v, t) && SweptHeap(t, r, v, seen)
    ensures forall d :: d in s.closed && d !in s.heap ==> d in r.closed && r.closed[d] == s.closed[d]
    ensures r.closed.Keys == s.closed.Keys + (s.heap.Keys - r.heap.Keys)
  {
    hide GaveBack, VisitClient, Reaps, Cursor.Remove;
    assert r.heap.Keys <= t.heap.Keys;
  }

  lemma SweptCons<C>(s: Server<C>, t: Server<C>, r: Server<C>, v: Visit, c: C, seen: seq<C>)
    requires Visiting(s, c, v, t) && c !in seen
    requires SweptHeap(t, r, v, seen)
    ensures SweptHeap(s, r, v, [c] + seen)
  {
    hide GaveBack, VisitClient, Reaps, Cursor.Remove, Visiting;
    forall d | d in r.heap
      ensures d in s.heap && r.heap[d] == if d in [c] + seen then VisitClient(v, s.heap[d]) else s.heap[d]
      ensures d in [c] + seen ==> !Reaps(v, s.heap[d])
    {
      SweptConsLive(s, t, r, v, c, seen, d);
    }
    forall d | d in s.heap && d !in r.heap
      ensures d in [c] + seen && Reaps(v, s.heap[d]) && d in r.closed && r.closed[d] == VisitClient(v, s.heap[d])
    {
      SweptConsGone(s, t, r, v, c, seen, d);
    }
    SweptConsKeys(s, t, r, v, c, seen);
  }

  lemma SweepComposeQueue<C>(q: Cursor<C>, q1: Cursor<C>, q2: Cursor<C>, doomed: set<C>)
    requires q.Ok() && 0 <= q.pos < |q.items|
    requires q1 == (if q.items[q.pos] in doomed then q.Delete(QdPrev) else q)
    requires if q1.AtEnd() then q2 == q1 else q2 == Sweep(q1.Next(), doomed)
    ensures q2 == Sweep(q, doomed)
  {
  }

  lemma SweepComposeHeap<C>(s: Server<C>, c: C, t: Server<C>, r: Server<C>, v: Visit, doomed: set<C>)
    requires s.clients.Ok() && NoDup(s.clients.items) && 0 <= s.clients.pos < |s.clients.items|
    requires c == s.clients.items[s.clients.pos] && Visiting(s, c, v, t)
    requires t.clients == (if c in doomed then s.clients.Delete(QdPrev) else s.clients)
    requires t.clients.AtEnd() ==> r == t
    requires !t.clients.AtEnd() ==> SweptHeap(t, r, v, Visits(t.clients.Next(), doomed))
    ensures SweptHeap(s, r, v, Visits(s.clients, doomed))
  {
    if t.clients.AtEnd() {
      assert Visits(s.clients, doomed) == [c] + [];
      SweptCons(s, t, t, v, c, []);
    } else {
      NextNotSeen(s.clients, t.clients, doomed);
      SweptCons(s, t, r, v, c, Visits(t.clients.Next(), doomed));
    }
  }

  lemma SweepStep<C>(s: Server<C>, v: Visit) returns (c: C, t: Server<C>)
    requires Sound(s) && 0 <= s.clients.pos < |s.clients.items|
    ensures c == s.clients.items[s.clients.pos] && Visiting(s, c, v, t) && t == VisitAndReap(s, c, v)
    ensures t.clients == if Reaps(v, s.heap[c]) then s.clients.Delete(QdPrev) else s.clients
    ensures t.clients.AtEnd() ==> SweepFrom(s, v) == t
    ensures !t.clients.AtEnd() ==>
              && Sound(t.(clients := t.clients.Next()))
              && SweepFrom(s, v) == SweepFrom(t.(clients := t.clients.Next()), v)
              && |t.clients.items| - t.clients.Next().pos < |s.clients.items| - s.clients.pos
  {
    hide GaveBack, VisitClient, Reaps;
    c := s.clients.items[s.clients.pos];
    VisitAdvances(s, v);
    t := VisitAndReap(s, c, v);
    VisitKeepsSound(s, c, v);
    RemoveAtCursor(s.clients);
  }

  lemma SweepTail<C>(s: Server<C>, c: C, t: Server<C>, v: Visit, doomed: set<C>)
    requires s.clients.Ok() && NoDup(s.clients.items) && 0 <= s.clients.pos < |s.clients.items|
    requires c == s.clients.items[s.clients.pos] && Visiting(s, c, v, t) && !t.clients.AtEnd()
    requires t.clients == if Reaps(v, s.heap[c]) then s.clients.Delete(QdPrev) else s.clients
    requires DoomedFrom(s.clients.items, s.clients.pos, s.heap, v, doomed)
    ensures DoomedFrom(t.clients.items, t.clients.Next().pos, t.heap, v, doomed)
  {
    DoomedNext(s.clients, t.clients, s.heap, t.heap, v, doomed);
  }

  lemma {:induction false} SweepFromQueue<C>(s: Server<C>, v: Visit, doomed: set<C>)
    requires Sound(s) && DoomedFrom(s.clients.items, s.clients.pos, s.heap, v, doomed)
    ensures SweepFrom(s, v).clients == Sweep(s.clients, doomed)
    decreases |s.clients.items| - s.clients.pos
  {
    if 0 <= s.clients.pos < |s.clients.items| {
      var c, t := SweepStep(s, v);
      if !t.clients.AtEnd() {
        SweepTail(s, c, t, v, doomed);
        SweepFromQueue(t.(clients := t.clients.Next()), v, doomed);
      }
      SweepComposeQueue(s.clients, t.clients, SweepFrom(s, v).clients, doomed);
    }
  }

  lemma {:induction false} SweepFromHeap<C>(s: Server<C>, v: Visit, doomed: set<C>)
    requires Sound(s) && DoomedFrom(s.clients.items, s.clients.pos, s.heap, v, doomed)
    ensures SweptHeap(s, SweepFrom(s, v), v, Visits(s.clients, doomed))
    decreases |s.clients.items| - s.clients.pos
  {
    if 0 <= s.clients.pos < |s.clients.items| {
      var c, t := SweepStep(s, v);
      if !t.clients.AtEnd() {
        SweepTail(s, c, t, v, doomed);
        SweepFromHeap(t.(clients := t.clients.Next()), v, doomed);
      }
      SweepComposeHeap(s, c, t, SweepFrom(s, v), v, doomed);
    }
  }

  // The slots of back are given back: they are pushed to the free slots in that order, the other
  // open slots keep their order, and no other slot of the pool changes.
  ghost predicate Given<C>(open: seq<nat>, pool: seq<Slot<C>>, free: seq<nat>, back: seq<nat>,
                           open': seq<nat>, pool': seq<Slot<C>>, free': seq<nat>)
  {
    && free' == free + back
    && open' == Keep(open, Elements(back))
    && |pool'| == |pool|
    && (forall i :: 0 <= i < |pool| ==> pool'[i] == if i in back then Slot(pool[i].socket, None) else pool[i])
  }

  lemma GivenNone<C>(open: seq<nat>, pool: seq<Slot<C>>, free: seq<nat>)
    ensures Given(open, pool, free, [], open, pool, free)
  {
    var none: seq<nat> := [];
    KeepNone(open, Elements(none));
  }

  lemma GivenCons<C>(open: seq<nat>, pool: seq<Slot<C>>, free: seq<nat>, i: nat, back: seq<nat>,
                     open': seq<nat>, pool': seq<Slot<C>>, free': seq<nat>)
    requires i < |pool|
    requires Given(Keep(open, {i}), pool[i := Slot(pool[i].socket, None)], free + [i], back, open', pool', free')
    ensures Given(open, pool, free, [i] + back, open', pool', free')
  {
    hide Keep, Elements;
    KeepTwice(open, {i}, Elements(back));
    ElementsCons(i, back);
  }

  // The slots given back are those of the clients of reaped.
  ghost predicate SweptSlots<C>(s: Server<C>, r: Server<C>, reaped: seq<C>) {
    Given(s.open.items, s.pool, s.free.items, SlotsBack(s.open.items, s.pool, reaped),
          r.open.items, r.pool, r.free.items)
  }

  lemma NothingBack<C>(s: Server<C>, t: Server<C>)
    requires t.free == s.free && t.open == s.open && t.pool == s.pool
    ensures SweptSlots(s, t, [])
  {
    GivenNone(s.open.items, s.pool, s.free.items);
  }

  lemma BackCons<C>(s: Server<C>, t: Server<C>, r: Server<C>, c: C, reaped: seq<C>)
    requires GaveBack(s, t, c) && SweptSlots(t, r, reaped) && c !in reaped
    ensures SweptSlots(s, r, [c] + reaped)
  {
    hide Given, SlotIn, Keep;
    var i := SlotIn(s.open.items, s.pool, c);
    SlotsBackFrame(s.open.items, s.pool, i, c, Slot(s.pool[i].socket, None), reaped);
    assert ([c] + reaped)[1..] == reaped;
    GivenCons(s.open.items, s.pool, s.free.items, i, SlotsBack(s.open.items, s.pool, reaped),
              r.open.items, r.pool, r.free.items);
  }

  // What one visit, and then the rest of the sweep, give back.
  lemma SweepComposeSlots<C>(s: Server<C>, c: C, t: Server<C>, r: Server<C>, v: Visit, doomed: set<C>)
    requires s.clients.Ok() && NoDup(s.clients.items) && 0 <= s.clients.pos < |s.clients.items|
    requires c == s.clients.items[s.clients.pos] && Visiting(s, c, v, t)
    requires c in doomed <==> Reaps(v, s.heap[c])
    requires t.clients == (if c in doomed then s.clients.Delete(QdPrev) else s.clients)
    requires t.clients.AtEnd() ==> r == t
    requires !t.clients.AtEnd() ==> SweptSlots(t, r, Pick(Visits(t.clients.Next(), doomed), doomed))
    ensures SweptSlots(s, r, Pick(Visits(s.clients, doomed), doomed))
  {
    hide SweptSlots, GaveBack, VisitClient, Reaps;
    var later := if t.clients.AtEnd() then [] else Visits(t.clients.Next(), doomed);
    assert Visits(s.clients, doomed) == [c] + later && ([c] + later)[1..] == later;
    assert Pick([c] + later, doomed) == (if c in doomed then [c] else []) + Pick(later, doomed);
    if t.clients.AtEnd() { NothingBack(t, r); }
    if c in doomed {
      if !t.clients.AtEnd() { NextNotSeen(s.clients, t.clients, doomed); }
      PickMembers(later, doomed, c);
      BackCons(s, t, r, c, Pick(later, doomed));
    } else {
      SameSlots(s, t, r, Pick(later, doomed));
      assert [] + Pick(later, doomed) == Pick(later, doomed);
    }
  }

  lemma SameSlots<C>(s: Server<C>, t: Server<C>, r: Server<C>, reaped: seq<C>)
    requires t.free.items == s.free.items && t.open.items == s.open.items && t.pool == s.pool
    requires SweptSlots(t, r, reaped)
    ensures SweptSlots(s, r, reaped)
  {
  }

  lemma {:induction false} SweepFromSlots<C>(s: Server<C>, v: Visit, doomed: set<C>)
    requires Sound(s) && DoomedFrom(s.clients.items, s.clients.pos, s.heap, v, doomed)
    ensures SweptSlots(s, SweepFrom(s, v), Pick(Visits(s.clients, doomed), doomed))
    decreases |s.clients.items| - s.clients.pos
  {
    if 0 <= s.clients.pos < |s.clients.items| {
      var c, t := SweepStep(s, v);
      if !t.clients.AtEnd() {
        SweepTail(s, c, t, v, doomed);
        SweepFromSlots(t.(clients := t.clients.Next()), v, doomed);
        SameSlots(t, t.(clients := t.clients.Next()), SweepFrom(s, v), Pick(Visits(t.clients.Next(), doomed), doomed));
      }
      SweepComposeSlots(s, c, t, SweepFrom(s, v), v, doomed);
    } else {
      NothingBack(s, s);
    }
  }

  ghost function Doomed<C>(s: Server<C>, v: Visit): set<C>
  {
    set c | c in s.heap && Reaps(v, s.heap[c])
  }

  // A whole sweep, whatever the cursor was, keeps the invariant; its survivors keep their order;
  // the slots of the clients it destroys are given back in the order of their visits; it visits no
  // client twice, and visits all of them but the original second one, which it skips exactly when
  // the first one is destroyed; a skipped client is left as it was.
  lemma SweepClientsCloses<C>(s: Server<C>, v: Visit)
    requires Sound(s)
    ensures var r := SweepClients(s, v);
            var seen := Visited(s.clients.items, Doomed(s, v));
            && Sound(r) && r.listening == s.listening && |r.pool| == |s.pool|
            && r.clients.items == Survivors(s.clients.items, Doomed(s, v))
            && SweptHeap(s, r, v, seen)
            && SweptSlots(s, r, Pick(seen, Doomed(s, v)))
            && NoDup(seen)
            && (forall c :: c in s.heap && c !in seen <==>
                  |s.clients.items| >= 2 && s.clients.items[0] in Doomed(s, v) && c == s.clients.items[1])
  {
    var doomed := Doomed(s, v);
    AdvanceKeepsSound(s);
    var h := s.(clients := s.clients.Rewind());
    forall k | 0 <= k < |h.clients.items|
      ensures h.clients.items[k] in h.heap
    {
      assert h.clients.items[k] in h.clients.items;
    }
    SweepFromQueue(h, v, doomed);
    SweepFromHeap(h, v, doomed);
    SweepFromSlots(h, v, doomed);
    SameSlots(s, h, SweepClients(s, v), Pick(Visits(h.clients, doomed), doomed));
    SweepFromHead(s.clients, doomed);
    SweepCoverage(s.clients.items, doomed);
    assert forall c :: c in s.heap <==> c in s.clients.items;
  }

  // After a sweep that destroyed a client, the next free slot is the one of the client destroyed
  // last: an accepted client gets it, and every other slot stays as the sweep left it.
  lemma LastFreedIsReused<C>(s: Server<C>, v: Visit, fd: int, d: C)
    requires Sound(s) && Pick(Visited(s.clients.items, Doomed(s, v)), Doomed(s, v)) != []
    ensures var r := SweepClients(s, v);
            var reaped := Pick(Visited(s.clients.items, Doomed(s, v)), Doomed(s, v));
            var i := SlotIn(s.open.items, s.pool, reaped[|reaped| - 1]);
            && r.free.items != [] && r.free.items[|r.free.items| - 1] == i && i < |r.pool|
            && AcceptClient(r, fd, d).pool == r.pool[i := Slot(fd, Some(d))]
            && AcceptClient(r, fd, d).free.items == r.free.items[..|r.free.items| - 1]
  {
    hide Sound, SweepClients, SweptSlots, SweptHeap, Visited, Survivors, Pick, Doomed, SlotIn;
    SweepClientsCloses(s, v);
    LastBack(s, SweepClients(s, v), Pick(Visited(s.clients.items, Doomed(s, v)), Doomed(s, v)));
    LastFreeSlot(SweepClients(s, v));
  }

  lemma LastBack<C>(s: Server<C>, r: Server<C>, reaped: seq<C>)
    requires SweptSlots(s, r, reaped) && reaped != []
    ensures r.free.items != []
    ensures r.free.items[|r.free.items| - 1] == SlotIn(s.open.items, s.pool, reaped[|reaped| - 1])
  {
    SlotsBackAt(s.open.items, s.pool, reaped, |reaped| - 1);
  }

  lemma {:induction false} SlotsBackAt<C>(open: seq<nat>, pool: seq<Slot<C>>, cs: seq<C>, k: nat)
    requires k < |cs|
    ensures |SlotsBack(open, pool, cs)| == |cs| && SlotsBack(open, pool, cs)[k] == SlotIn(open, pool, cs[k])
  {
    if |cs| > 1 { SlotsBackAt(open, pool, cs[1..], if k > 0 then k - 1 else 0); }
  }

  // ----- Two clients that are both due -----

  const DUE := NEW_CLIENT.(vars := Vars(USECS_PER_SEC, false, false))

  lemma FirstClient() returns (s: Server<nat>)
    ensures Sound(s) && s.free.items == [2] && s.open == Cursor([1, 0], 1) && s.clients == Cursor([1], 0)
    ensures s.heap == map[1 := NEW_CLIENT] && s.closed == map[] && s.listening == 3
    ensures |s.pool| == 3 && s.pool[1] == Slot(4, Some(1))
  {
    hide Sound, Init, FreePool, AcceptClient;
    var start := Init<nat>(3, 3);
    InitIsSound<nat>(3, 3);
    StartQueues();
    var i, n := AcceptShape(start, 4, 1);
    AcceptKeepsSound(start, 4, 1);
    s := AcceptClient(start, 4, 1);
  }

  lemma SecondClient() returns (s: Server<nat>)
    ensures Sound(s) && s.open.items == [2, 1, 0] && s.clients.items == [1, 2]
    ensures s.heap == map[1 := NEW_CLIENT, 2 := NEW_CLIENT] && s.closed == map[]
    ensures |s.pool| == 3 && s.pool[1] == Slot(4, Some(1)) && s.pool[2] == Slot(5, Some(2))
  {
    hide Sound, AcceptClient;
    var first := FirstClient();
    var i, n := AcceptShape(first, 5, 2);
    AcceptKeepsSound(first, 5, 2);
    s := AcceptClient(first, 5, 2);
  }

  // Start-up with three slots, and two accepted clients with a timeout of a second each.
  lemma TwoDueClients() returns (s: Server<nat>)
    ensures Sound(s) && s.clients.items == [1, 2] && s.heap == map[1 := DUE, 2 := DUE] && s.closed == map[]
    ensures s.open.items == [2, 1, 0] && |s.pool| == 3 && s.pool[2] == Slot(5, Some(2)) && s.pool[1] == Slot(4, Some(1))
  {
    hide Sound;
    var two := SecondClient();
    HeapUpdateKeepsSound(two, 1, DUE);
    HeapUpdateKeepsSound(two.(heap := two.heap[1 := DUE]), 2, DUE);
    s := two.(heap := two.heap[1 := DUE][2 := DUE]);
  }

  lemma StartQueues()
    ensures var s := Init<nat>(3, 3);
            && s.free.items == [2, 1] && |s.pool| == 3 && s.open == Cursor([0], 0) && s.clients == Cursor([], -1)
            && s.heap == map[] && s.closed == map[] && s.listening == 3
  {
    SlotsComeOutAscending<nat>(3, 3, 0);
    SlotsComeOutAscending<nat>(3, 3, 1);
  }

  // After a second the timeout of both has passed. The check expires the first one and passes over
  // the second one, whose idle time stays 0.
  lemma SecondIsPassedOver() returns (s: Server<nat>)
    ensures Sound(s) && s.heap.Keys == {1, 2} && forall c :: c in s.heap ==> Reaps(Tick(USECS_PER_SEC), s.heap[c])
    ensures var r := SweepClients(s, Tick(USECS_PER_SEC));
            1 !in r.heap && 2 in r.heap && r.heap[2] == s.heap[2] && s.heap[2].elapsed == 0
  {
    hide Sound, SweepClients, SweptSlots;
    s := TwoDueClients();
    SweepClientsCloses(s, Tick(USECS_PER_SEC));
    var doomed := Doomed(s, Tick(USECS_PER_SEC));
    assert 1 in doomed;
    assert Visited([1, 2], doomed) == [1] + [1, 2][2..];
  }
}
