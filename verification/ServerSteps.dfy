/**
 What the server does, on values: start-up, and accepting and dropping a client. Each step keeps the
 invariant.
 */
module ServerSteps {
  import opened Common
  import opened CursorQueue
  import opened Clients
  import opened ServerModel

  // ----- Start-up -----

  // The free pool after inserting slots 0 .. n - 1, one by one.
  function FreePool(n: nat): Cursor<nat> {
    if n == 0 then Cursor([], -1) else FreePool(n - 1).Insert(n - 1)
  }

  function Descending(n: nat): seq<nat> {
    if n == 0 then [] else [n - 1] + Descending(n - 1)
  }

  // Inserting at the cursor, again and again, reverses the pool.
  lemma {:induction false} FreePoolIsReversed(n: nat)
    ensures FreePool(n).items == Descending(n)
    ensures FreePool(n).pos == if n == 0 then -1 else if n == 1 then 0 else 1
    ensures |Descending(n)| == n
  {
    if n > 0 { FreePoolIsReversed(n - 1); }
  }

  lemma {:induction false} DescendingAt(n: nat, k: nat)
    requires k < n
    ensures |Descending(n)| == n && Descending(n)[k] == n - 1 - k
  {
    FreePoolIsReversed(n);
    if k > 0 { DescendingAt(n - 1, k - 1); }
  }

  lemma {:induction false} DescendingIsIota(n: nat)
    ensures multiset(Descending(n)) == multiset(Iota(n))
  {
    if n > 0 { DescendingIsIota(n - 1); }
  }

  // The whole server after start-up, for a pool of n slots.
  function Init<C>(listening: int, n: nat): Server<C>
    requires n > 0
  {
    var pool := seq(n, _ => Slot(0, None));
    Server(pool[0 := Slot(listening, None)], FreePool(n).Pop(), Cursor([], -1).Add(0),
           Cursor([], -1), map[], map[], listening)
  }

  lemma PoolAfterListener(n: nat)
    requires n > 0
    ensures var f := FreePool(n);
            && |f.items| == n == |Descending(n)| && f.items[n - 1] == 0
            && f.Pop().items == Descending(n)[..n - 1]
            && Partition(f.Pop().items, [0], n)
  {
    FreePoolIsReversed(n);
    DescendingAt(n, n - 1);
    DescendingIsIota(n);
    var d := Descending(n);
    assert d == d[..n - 1] + [0];
  }

  lemma InitIsSound<C>(listening: int, n: nat)
    requires n > 0
    ensures Sound(Init<C>(listening, n))
  {
    PoolAfterListener(n);
    var s := Init<C>(listening, n);
    assert s.open.items == [0];
    OwnersOne(0, s.pool);
  }

  lemma FreePoolStep(n: nat)
    ensures FreePool(0) == Cursor([], -1) && FreePool(n + 1) == FreePool(n).Insert(n)
  {
  }

  // The pieces of the server after start-up.
  lemma InitShape<C>(s: Server<C>, listening: int, zeroed: seq<Slot<C>>)
    requires |zeroed| > 0 && forall i :: 0 <= i < |zeroed| ==> zeroed[i] == Slot(0, None)
    requires s.free == FreePool(|zeroed|).Pop() && s.pool == zeroed[0 := Slot(listening, None)]
    requires s.open == Cursor([], -1).Add(0) && s.clients == Cursor([], -1)
    requires s.heap == map[] && s.closed == map[] && s.listening == listening
    ensures s == Init(listening, |zeroed|) && Sound(s)
  {
    hide Sound, FreePool, Iota, Descending, Cursor.Pop;
    assert s.pool == Init<C>(listening, |zeroed|).pool;
    InitIsSound<C>(listening, |zeroed|);
  }

  // Slots are handed out from the tail of the free queue, where disconnects put them back. After
  // start-up they come out in increasing order: the k-th accept gets slot k + 1.
  lemma SlotsComeOutAscending<C>(listening: int, n: nat, k: nat)
    requires k < n - 1
    ensures var free := Init<C>(listening, n).free.items;
            |free| == n - 1 && free[|free| - 1 - k] == k + 1
  {
    PoolAfterListener(n);
    DescendingAt(n, n - 2 - k);
  }

  // ----- Dropping the client of the open slot at the cursor -----

  // Slots in use are in the pool, and their clients are alive.
  ghost predicate SlotsInUse<C>(s: Server<C>) {
    forall k {:trigger ClientAt(s.open.items[k], s.pool)} :: 0 <= k < |s.open.items| ==>
      s.open.items[k] < |s.pool| &&
      (ClientAt(s.open.items[k], s.pool).Some? ==> ClientAt(s.open.items[k], s.pool).value in s.heap)
  }

  ghost function DestroySocket<C>(s: Server<C>): Server<C>
    requires SlotsInUse(s)
  {
    if !(0 <= s.open.pos < |s.open.items|) then s
    else
      var i := s.open.items[s.open.pos];
      var t := match ClientAt(i, s.pool)
        case None => s
        case Some(c) =>
          s.(clients := s.clients.Remove(c, QdPrev),
             heap := s.heap - {c},
             closed := s.closed[c := s.heap[c]],
             pool := s.pool[i := Slot(s.pool[i].socket, None)]);
      t.(open := t.open.Delete(QdPrev), free := t.free.Push(i))
  }

  lemma SoundSlotsInUse<C>(s: Server<C>)
    requires Sound(s)
    ensures SlotsInUse(s)
  {
    forall k | 0 <= k < |s.open.items|
      ensures s.open.items[k] < |s.pool|
      ensures ClientAt(s.open.items[k], s.pool).Some? ==> ClientAt(s.open.items[k], s.pool).value in s.heap
    {
      if k < |s.open.items| - 1 { OpenSlotHasClient(s, k); }
    }
  }

  lemma PopKeepsPartition(free: seq<nat>, open: seq<nat>, n: nat, k: nat)
    requires Partition(free, open, n) && k < |open|
    ensures Partition(free + [open[k]], PopNth(open, k), n)
  {
    PopConserves(open, k);
  }

  lemma PopKeepsOpenOk<C>(open: seq<nat>, pool: seq<Slot<C>>, listening: int, k: nat, slot: Slot<C>)
    requires OpenOk(open, pool, listening) && NoDup(open) && k < |open| - 1 && open[k] < |pool|
    ensures OpenOk(PopNth(open, k), pool[open[k] := slot], listening)
    ensures open[k] !in PopNth(open, k)
  {
    var r := PopNth(open, k);
    forall j | 0 <= j < |r| ensures r[j] == open[if j < k then j else j + 1] && r[j] != open[k] {}
    forall j | 0 <= j < |r| - 1 ensures InUse(r[j], pool[open[k] := slot], listening) {
      assert InUse(open[if j < k then j else j + 1], pool, listening);
    }
  }

  lemma PopKeepsOwners<C>(open: seq<nat>, pool: seq<Slot<C>>, k: nat, clients: seq<C>, c: C, slot: Slot<C>)
    requires k < |open| && open[k] < |pool| && ClientAt(open[k], pool) == Some(c) && slot.client == None
    requires multiset(Owners(open, pool)) == multiset(clients) && c in clients
    requires open[k] !in PopNth(open, k)
    ensures multiset(Owners(PopNth(open, k), pool[open[k] := slot]))
         == multiset(PopNth(clients, IndexOf(clients, c)))
  {
    IndexOfAbsent(clients, c);
    var r, m := PopNth(open, k), IndexOf(clients, c);
    OwnersPop(open, k, pool);
    OwnersFrame(r, pool, open[k], slot);
    PopConserves(clients, m);
    assert multiset(Owners(r, pool)) + multiset{c} == multiset(PopNth(clients, m)) + multiset{c};
    CancelOne(multiset(Owners(r, pool)), multiset(PopNth(clients, m)), c);
  }

  lemma CancelOne<T>(a: multiset<T>, b: multiset<T>, x: T)
    requires a + multiset{x} == b + multiset{x}
    ensures a == b
  {
    assert a == (a + multiset{x}) - multiset{x};
    assert b == (b + multiset{x}) - multiset{x};
  }

  lemma RemoveOne<T>(s: seq<T>, x: T)
    requires NoDup(s) && x in s
    ensures var r := PopNth(s, IndexOf(s, x));
            && NoDup(r) && (set y | y in r) == (set y | y in s) - {x}
  {
    IndexOfAbsent(s, x);
    var k := IndexOf(s, x);
    var r := PopNth(s, k);
    forall j | 0 <= j < |r| ensures r[j] == s[if j < k then j else j + 1] && r[j] != x {}
    forall y | y in s && y != x ensures y in r {
      var j :| 0 <= j < |s| && s[j] == y;
      assert r[if j < k then j else j - 1] == y;
    }
  }

  // Dropping the client at the cursor removes that client and nothing else, gives its slot back,
  // and keeps the invariant.
  lemma DestroyKeepsSound<C>(s: Server<C>)
    requires Sound(s) && 0 <= s.open.pos < |s.open.items| - 1
    ensures var i := s.open.items[s.open.pos];
            && SlotsInUse(s)
            && InUse(i, s.pool, s.listening)
            && var c, t := ClientAt(i, s.pool).value, DestroySocket(s);
            && c in s.heap
            && Sound(t)
            && t.open == s.open.Delete(QdPrev)
            && t.clients == s.clients.Remove(c, QdPrev)
            && t.heap == s.heap - {c}
            && t.closed == s.closed[c := s.heap[c]]
            && t.free == s.free.Push(i)
            && t.pool == s.pool[i := Slot(s.pool[i].socket, None)]
            && t.listening == s.listening
  {
    SoundSlotsInUse(s);
    SlotsArePartitioned(s);
    var k := s.open.pos;
    var i := s.open.items[k];
    OpenSlotHasClient(s, k);
    var c := ClientAt(i, s.pool).value;
    var slot := Slot(s.pool[i].socket, None);
    PopKeepsPartition(s.free.items, s.open.items, |s.pool|, k);
    PopKeepsOpenOk(s.open.items, s.pool, s.listening, k, slot);
    PopKeepsOwners(s.open.items, s.pool, k, s.clients.items, c, slot);
    RemoveOne(s.clients.items, c);
  }

  // ----- Accepting a client -----

  function AcceptClient<C(==)>(s: Server<C>, fd: int, c: C): Server<C>
    requires s.free.items != [] && s.free.items[|s.free.items| - 1] < |s.pool|
  {
    var i := s.free.items[|s.free.items| - 1];
    s.(free := s.free.Pop(),
       pool := s.pool[i := Slot(fd, Some(c))],
       open := s.open.Insert(i).Next(),
       clients := s.clients.Push(c),
       heap := s.heap[c := NEW_CLIENT])
  }

  // With the cursor on the listening slot, the new slot lands before it, and the cursor is back
  // on the listening slot.
  lemma InsertBeforeListener(q: Cursor<nat>, i: nat)
    requires |q.items| > 0 && q.pos == |q.items| - 1
    ensures var n := if q.pos == 0 then 0 else q.pos - 1;
            q.Insert(i).Next() == Cursor(PushNth(q.items, i, n), q.pos + 1)
  {
  }

  lemma InsertKeepsOpenOk<C>(open: seq<nat>, pool: seq<Slot<C>>, listening: int, i: nat, n: nat, slot: Slot<C>)
    requires OpenOk(open, pool, listening) && i !in open && i < |pool| && n < |open|
    requires slot.client.Some? && slot.socket != listening
    ensures OpenOk(PushNth(open, i, n), pool[i := slot], listening)
  {
    var r := PushNth(open, i, n);
    forall j | 0 <= j < |r| ensures r[j] == if j < n then open[j] else if j == n then i else open[j - 1] {}
    forall k | 0 <= k < |r| - 1 ensures InUse(r[k], pool[i := slot], listening) {
      if k != n {
        assert InUse(open[if k < n then k else k - 1], pool, listening);
        assert open[if k < n then k else k - 1] != i;
      }
    }
  }

  lemma AcceptKeepsOwners<C>(open: seq<nat>, pool: seq<Slot<C>>, i: nat, n: nat, fd: int, clients: seq<C>, c: C)
    requires i !in open && i < |pool| && n < |open|
    requires multiset(Owners(open, pool)) == multiset(clients)
    ensures multiset(Owners(PushNth(open, i, n), pool[i := Slot(fd, Some(c))])) == multiset(clients + [c])
  {
    OwnersFrame(open, pool, i, Slot(fd, Some(c)));
    OwnersPush(open, i, n, pool[i := Slot(fd, Some(c))]);
  }

  lemma LastFreeSlot<C>(s: Server<C>)
    requires Sound(s) && s.free.items != []
    ensures var i := s.free.items[|s.free.items| - 1]; i < |s.pool| && i !in s.open.items
  {
    SlotsArePartitioned(s);
    assert s.free.items[|s.free.items| - 1] in s.free.items;
  }

  lemma PushKeepsPartition(free: seq<nat>, open: seq<nat>, pool: nat, n: int)
    requires Partition(free, open, pool) && free != []
    ensures Partition(free[..|free| - 1], PushNth(open, free[|free| - 1], n), pool)
  {
    PushConserves(open, free[|free| - 1], n);
    PopConserves(free, |free| - 1);
    assert PopNth(free, |free| - 1) == free[..|free| - 1];
  }

  // t is s with client c accepted into the free slot i, which lands at position n of the open queue.
  ghost predicate Accepted<C>(s: Server<C>, t: Server<C>, i: nat, n: nat, fd: int, c: C) {
    && s.free.items != [] && i == s.free.items[|s.free.items| - 1]
    && i < |s.pool| && i !in s.open.items && n < |s.open.items|
    && t.free.Ok() && t.free.items == s.free.items[..|s.free.items| - 1]
    && t.pool == s.pool[i := Slot(fd, Some(c))] && t.listening == s.listening
    && t.open == Cursor(PushNth(s.open.items, i, n), |s.open.items|)
    && t.clients == Cursor(s.clients.items + [c], |s.clients.items|)
    && t.heap == s.heap[c := NEW_CLIENT] && t.closed == s.closed
  }

  lemma AcceptShape<C>(s: Server<C>, fd: int, c: C) returns (i: nat, n: nat)
    requires Sound(s) && s.free.items != [] && s.open.pos == |s.open.items| - 1
    ensures s.free.items[|s.free.items| - 1] < |s.pool|
    ensures Accepted(s, AcceptClient(s, fd, c), i, n, fd, c)
    ensures n == if s.open.pos == 0 then 0 else s.open.pos - 1
  {
    i := s.free.items[|s.free.items| - 1];
    n := if s.open.pos == 0 then 0 else s.open.pos - 1;
    LastFreeSlot(s);
    InsertBeforeListener(s.open, i);
  }

  lemma AcceptedSlotsOk<C>(s: Server<C>, t: Server<C>, i: nat, n: nat, fd: int, c: C)
    requires SlotsOk(s) && Accepted(s, t, i, n, fd, c) && fd != s.listening
    ensures SlotsOk(t)
  {
    InsertKeepsOpenOk(s.open.items, s.pool, s.listening, i, n, Slot(fd, Some(c)));
    PushKeepsPartition(s.free.items, s.open.items, |s.pool|, n);
  }

  lemma AcceptedClientsOk<C>(s: Server<C>, t: Server<C>, i: nat, n: nat, fd: int, c: C)
    requires ClientsOk(s) && Accepted(s, t, i, n, fd, c) && c !in s.heap.Keys
    ensures ClientsOk(t)
  {
    AcceptKeepsOwners(s.open.items, s.pool, i, n, fd, s.clients.items, c);
    ClientsSnoc(s.clients.items, c);
    assert t.heap.Keys == s.heap.Keys + {c};
  }

  lemma AcceptKeepsSound<C>(s: Server<C>, fd: int, c: C)
    requires Sound(s) && s.free.items != []
    requires s.open.pos == |s.open.items| - 1
    requires fd != s.listening && c !in s.heap.Keys
    ensures s.free.items[|s.free.items| - 1] < |s.pool|
    ensures Sound(AcceptClient(s, fd, c))
    ensures AcceptClient(s, fd, c).open.AtEnd()
  {
    var i, n := AcceptShape(s, fd, c);
    var t := AcceptClient(s, fd, c);
    AcceptedSlotsOk(s, t, i, n, fd, c);
    AcceptedClientsOk(s, t, i, n, fd, c);
  }

  lemma ClientsSnoc<T>(s: seq<T>, c: T)
    requires NoDup(s) && c !in s
    ensures NoDup(s + [c])
    ensures (set x | x in s + [c]) == (set x | x in s) + {c}
  {
  }

  // ----- Dropping a given client -----

  ghost function SlotsOf<C>(s: Server<C>, c: C): set<nat> {
    set i: nat | 0 <= i < |s.pool| && ClientAt(i, s.pool) == Some(c)
  }

  lemma SameSlotsInUse<C>(s: Server<C>, t: Server<C>)
    requires SlotsInUse(s) && t.open.items == s.open.items && t.pool == s.pool && t.heap == s.heap
    ensures SlotsInUse(t)
  {
    forall k | 0 <= k < |t.open.items|
      ensures t.open.items[k] < |t.pool|
      ensures ClientAt(t.open.items[k], t.pool).Some? ==> ClientAt(t.open.items[k], t.pool).value in t.heap
    {
      assert ClientAt(s.open.items[k], s.pool) == ClientAt(t.open.items[k], t.pool);
    }
  }

  ghost function DestroyClientSocket<C>(s: Server<C>, c: C): Server<C>
    requires SlotsInUse(s) && s.open.Ok()
  {
    var open := s.open.Rewind();
    FindMoves(open, SlotsOf(s, c));
    var t := s.(open := open.Find(SlotsOf(s, c)));
    SameSlotsInUse(s, t);
    if open.Finds(SlotsOf(s, c)) then DestroySocket(t) else t
  }

  // Only the positions of the cursors tell one from the other.
  ghost predicate SameButOpenCursor<C>(s: Server<C>, t: Server<C>) {
    s == t.(open := s.open) && s.open.items == t.open.items
  }

  lemma CursorMovesKeepSound<C>(s: Server<C>, t: Server<C>)
    requires Sound(s) && SameButOpenCursor(t, s) && t.open.Ok()
    ensures Sound(t)
  {
  }

  // t is s without client c, whose record is kept in the history.
  ghost predicate Dropped<C>(s: Server<C>, c: C, t: Server<C>) {
    && c in s.heap
    && t.clients == s.clients.Remove(c, QdPrev)
    && t.heap == s.heap - {c}
    && t.closed == s.closed[c := s.heap[c]]
    && t.listening == s.listening && |t.pool| == |s.pool|
    && GaveBack(s, t, c)
  }

  // The slot of c has left the open queue for the tail of the free one, and is no client's.
  ghost predicate GaveBack<C>(s: Server<C>, t: Server<C>, c: C) {
    var i := SlotIn(s.open.items, s.pool, c);
    && i < |s.pool| && ClientAt(i, s.pool) == Some(c)
    && t.free.items == s.free.items + [i]
    && t.open.items == Keep(s.open.items, {i})
    && t.pool == s.pool[i := Slot(s.pool[i].socket, None)]
  }

  lemma ClientSlotIsFound<C>(s: Server<C>, c: C)
    requires Sound(s) && c in s.heap
    ensures var open := s.open.Rewind();
            var q := open.Find(SlotsOf(s, c));
            && open.Finds(SlotsOf(s, c))
            && q.Ok() && q.items == s.open.items && 0 <= q.pos < |q.items| - 1
            && ClientAt(q.items[q.pos], s.pool) == Some(c)
  {
    ClientHasOpenSlot(s, c);
    var open := s.open.Rewind();
    FindMoves(open, SlotsOf(s, c));
    var k :| 0 <= k < |s.open.items| - 1 && ClientAt(s.open.items[k], s.pool) == Some(c);
    assert open.items[k] in SlotsOf(s, c);
    var q := open.Find(SlotsOf(s, c));
    assert q.items[q.pos] in SlotsOf(s, c);
  }

  // No open slot is found for what is not a live client.
  lemma StrangerIsNotFound<C>(s: Server<C>, c: C)
    requires Sound(s) && c !in s.heap
    ensures var open := s.open.Rewind();
            && !open.Finds(SlotsOf(s, c))
            && open.Find(SlotsOf(s, c)).Ok() && open.Find(SlotsOf(s, c)).items == s.open.items
  {
    SoundSlotsInUse(s);
    var open := s.open.Rewind();
    FindMoves(open, SlotsOf(s, c));
    forall k | 0 <= k < |s.open.items| ensures s.open.items[k] !in SlotsOf(s, c) {
      assert ClientAt(s.open.items[k], s.pool) != Some(c);
    }
  }

  // The slot of the client is found, and the client in it is dropped.
  lemma DestroyClientKeepsSound<C>(s: Server<C>, c: C)
    requires Sound(s) && c in s.heap
    ensures SlotsInUse(s)
    ensures Sound(DestroyClientSocket(s, c)) && Dropped(s, c, DestroyClientSocket(s, c))
  {
    SoundSlotsInUse(s);
    ClientSlotIsFound(s, c);
    var t := s.(open := s.open.Rewind().Find(SlotsOf(s, c)));
    CursorMovesKeepSound(s, t);
    DestroyKeepsSound(t);
    SlotOfClient(s, c, t.open.pos);
    SlotsArePartitioned(s);
    PopIsKeep(s.open.items, t.open.pos);
  }
}
