/**
 The server on values: the pool of socket slots, the queues of free slots, open slots and clients,
 and the invariant that ties them. C is the identity of a client record.
 */
module ServerModel {
  import opened Common
  import opened CursorQueue
  import opened Clients

  datatype Slot<C> = Slot(socket: int, client: Option<C>)

  // heap holds the live client records, closed what the destroyed ones were when they were freed.
  datatype Server<C(==)> = Server(
    pool: seq<Slot<C>>,
    free: Cursor<nat>,
    open: Cursor<nat>,
    clients: Cursor<C>,
    heap: map<C, ClientState>,
    closed: map<C, ClientState>,
    listening: int)

  // ----- The invariant -----

  function Iota(n: nat): seq<nat> {
    if n == 0 then [] else Iota(n - 1) + [n - 1]
  }

  // Every slot of the pool is in exactly one of the two queues, exactly once.
  ghost predicate Partition(free: seq<nat>, open: seq<nat>, n: nat) {
    multiset(free) + multiset(open) == multiset(Iota(n))
  }

  function ClientAt<C>(i: nat, pool: seq<Slot<C>>): Option<C> {
    if i < |pool| then pool[i].client else None
  }

  // A slot that belongs to a client.
  ghost predicate InUse<C>(i: nat, pool: seq<Slot<C>>, listening: int) {
    ClientAt(i, pool).Some? && pool[i].socket != listening
  }

  // The listening slot is the last open one and has no client; the others have one.
  ghost predicate OpenOk<C>(open: seq<nat>, pool: seq<Slot<C>>, listening: int) {
    && open != []
    && open[|open| - 1] < |pool|
    && pool[open[|open| - 1]] == Slot(listening, None)
    && (forall k {:trigger InUse(open[k], pool, listening)} :: 0 <= k < |open| - 1 ==> InUse(open[k], pool, listening))
  }

  function Owner<C>(i: nat, pool: seq<Slot<C>>): seq<C> {
    match ClientAt(i, pool) case None => [] case Some(c) => [c]
  }

  // The clients of the slots of s, in order.
  function Owners<C>(s: seq<nat>, pool: seq<Slot<C>>): seq<C> {
    if s == [] then [] else Owner(s[0], pool) + Owners(s[1..], pool)
  }

  // The first slot of open that belongs to c.
  function SlotIn<C(==)>(open: seq<nat>, pool: seq<Slot<C>>, c: C): nat {
    if open == [] then 0
    else if ClientAt(open[0], pool) == Some(c) then open[0]
    else SlotIn(open[1..], pool, c)
  }

  // The slots of the clients of cs, in their order.
  function SlotsBack<C(==)>(open: seq<nat>, pool: seq<Slot<C>>, cs: seq<C>): seq<nat> {
    if cs == [] then [] else [SlotIn(open, pool, cs[0])] + SlotsBack(open, pool, cs[1..])
  }

  ghost predicate SlotsOk<C>(s: Server<C>) {
    && s.free.Ok() && s.open.Ok()
    && Partition(s.free.items, s.open.items, |s.pool|)
    && OpenOk(s.open.items, s.pool, s.listening)
  }

  // The clients of the open slots are the members of the client queue, each once, and their
  // records are the live ones.
  ghost predicate ClientsOk<C>(s: Server<C>) {
    && s.clients.Ok()
    && multiset(Owners(s.open.items, s.pool)) == multiset(s.clients.items)
    && NoDup(s.clients.items)
    && s.heap.Keys == (set c | c in s.clients.items)
  }

  ghost predicate Sound<C>(s: Server<C>) {
    SlotsOk(s) && ClientsOk(s)
  }

  lemma {:induction false} IotaOnce(n: nat, x: nat)
    ensures multiset(Iota(n))[x] == if x < n then 1 else 0
  {
    if n > 0 { IotaOnce(n - 1, x); }
  }

  lemma PartitionOnce(free: seq<nat>, open: seq<nat>, n: nat, x: nat)
    requires Partition(free, open, n)
    ensures x in open || x in free <==> x < n
    ensures !(x in open && x in free)
    ensures multiset(open)[x] <= 1
  {
    IotaOnce(n, x);
    assert (multiset(free) + multiset(open))[x] == multiset(free)[x] + multiset(open)[x];
    assert x in open <==> x in multiset(open);
    assert x in free <==> x in multiset(free);
  }

  lemma OnceIsNoDup<T>(s: seq<T>)
    requires forall x :: multiset(s)[x] <= 1
    ensures NoDup(s)
  {
    forall i, j | 0 <= i < j < |s| ensures s[i] != s[j] {
      var before, after := s[..j], s[j + 1..];
      assert s == before + [s[j]] + after;
      assert multiset(s)[s[j]] == multiset(before)[s[j]] + 1 + multiset(after)[s[j]];
      assert s[j] !in multiset(before);
      assert before[i] == s[i];
    }
  }

  lemma PartitionNoDup(free: seq<nat>, open: seq<nat>, n: nat)
    requires Partition(free, open, n)
    ensures NoDup(open)
  {
    forall x: nat ensures multiset(open)[x] <= 1 { PartitionOnce(free, open, n, x); }
    OnceIsNoDup(open);
  }

  // ----- Owners under the changes made to the open queue and the pool -----

  lemma {:induction false} OwnersAppend<C>(a: seq<nat>, b: seq<nat>, pool: seq<Slot<C>>)
    ensures Owners(a + b, pool) == Owners(a, pool) + Owners(b, pool)
  {
    if a == [] {
      assert a + b == b;
    } else {
      assert (a + b)[1..] == a[1..] + b;
      OwnersAppend(a[1..], b, pool);
    }
  }

  lemma OwnersOne<C>(i: nat, pool: seq<Slot<C>>)
    ensures Owners([i], pool) == Owner(i, pool)
  {
    assert [i][1..] == [] && Owners([], pool) == [];
  }

  lemma OwnersPush<C>(s: seq<nat>, i: nat, n: int, pool: seq<Slot<C>>)
    ensures multiset(Owners(PushNth(s, i, n), pool)) == multiset(Owners(s, pool)) + multiset(Owner(i, pool))
  {
    OwnersOne(i, pool);
    if 0 <= n < |s| {
      OwnersAppend(s[..n], s[n..], pool);
      OwnersAppend(s[..n] + [i], s[n..], pool);
      OwnersAppend(s[..n], [i], pool);
      assert s == s[..n] + s[n..];
    } else {
      OwnersAppend(s, [i], pool);
    }
  }

  lemma PushUndoesPop<T>(s: seq<T>, n: int)
    requires 0 <= n < |s|
    ensures PushNth(PopNth(s, n), s[n], n) == s
  {
  }

  lemma OwnersPop<C>(s: seq<nat>, n: int, pool: seq<Slot<C>>)
    requires 0 <= n < |s|
    ensures multiset(Owners(s, pool)) == multiset(Owners(PopNth(s, n), pool)) + multiset(Owner(s[n], pool))
  {
    PushUndoesPop(s, n);
    OwnersPush(PopNth(s, n), s[n], n, pool);
  }

  lemma {:induction false} OwnersFrame<C>(s: seq<nat>, pool: seq<Slot<C>>, i: nat, slot: Slot<C>)
    requires i < |pool| && i !in s
    ensures Owners(s, pool[i := slot]) == Owners(s, pool)
  {
    if s != [] {
      assert s[0] in s && forall x :: x in s[1..] ==> x in s;
      OwnersFrame(s[1..], pool, i, slot);
    }
  }

  lemma {:induction false} OwnersMember<C>(s: seq<nat>, pool: seq<Slot<C>>, c: C)
    ensures c in Owners(s, pool)
       <==> exists k :: 0 <= k < |s| && ClientAt(s[k], pool) == Some(c)
  {
    if s != [] {
      OwnersMember(s[1..], pool, c);
      assert s == [s[0]] + s[1..];
      if k :| 0 <= k < |s| && ClientAt(s[k], pool) == Some(c) {
        if k > 0 { assert s[1..][k - 1] == s[k]; }
      }
      if k :| 0 <= k < |s[1..]| && ClientAt(s[1..][k], pool) == Some(c) {
        assert s[k + 1] == s[1..][k];
      }
    }
  }

  lemma {:induction false} OwnersCount<C>(s: seq<nat>, pool: seq<Slot<C>>)
    requires forall k :: 0 <= k < |s| ==> ClientAt(s[k], pool).Some?
    ensures |Owners(s, pool)| == |s|
  {
    if s != [] { OwnersCount(s[1..], pool); }
  }

  // ----- What the invariant says -----

  lemma SoundCursors<C>(s: Server<C>)
    requires Sound(s)
    ensures s.free.Ok() && s.open.Ok() && s.clients.Ok()
    ensures s.heap.Keys == (set c | c in s.clients.items)
  {
  }

  lemma OpenSlotHasClient<C>(s: Server<C>, k: nat)
    requires Sound(s) && k < |s.open.items| - 1
    ensures InUse(s.open.items[k], s.pool, s.listening)
    ensures ClientAt(s.open.items[k], s.pool).value in s.heap
  {
    assert InUse(s.open.items[k], s.pool, s.listening);
    var c := ClientAt(s.open.items[k], s.pool).value;
    OwnersMember(s.open.items, s.pool, c);
    assert c in multiset(Owners(s.open.items, s.pool));
    assert c in multiset(s.clients.items);
  }

  lemma ClientHasOpenSlot<C>(s: Server<C>, c: C)
    requires Sound(s) && c in s.heap
    ensures exists k :: 0 <= k < |s.open.items| - 1 && ClientAt(s.open.items[k], s.pool) == Some(c)
  {
    OwnersMember(s.open.items, s.pool, c);
    assert c in multiset(s.clients.items);
    assert c in multiset(Owners(s.open.items, s.pool));
    assert c in Owners(s.open.items, s.pool);
  }

  lemma OwnerIsMember<C>(s: seq<nat>, pool: seq<Slot<C>>, k: nat, c: C)
    requires k < |s| && ClientAt(s[k], pool) == Some(c)
    ensures c in Owners(s, pool)
  {
    OwnersMember(s, pool, c);
  }

  lemma InBothIsTwice<T>(a: seq<T>, b: seq<T>, x: T)
    requires x in a && x in b
    ensures multiset(a + b)[x] >= 2
  {
    assert multiset(a)[x] >= 1 && multiset(b)[x] >= 1;
  }

  lemma DistinctOwners<C>(open: seq<nat>, pool: seq<Slot<C>>, clients: seq<C>, j: nat, k: nat, c: C)
    requires multiset(Owners(open, pool)) == multiset(clients) && NoDup(clients)
    requires j < k < |open| && ClientAt(open[j], pool) == Some(c)
    ensures ClientAt(open[k], pool) != Some(c)
  {
    hide Owners;
    assert open == open[..k] + open[k..];
    if ClientAt(open[k], pool) == Some(c) {
      OwnerIsMember(open[..k], pool, j, c);
      OwnerIsMember(open[k..], pool, 0, c);
      InBothIsTwice(Owners(open[..k], pool), Owners(open[k..], pool), c);
      OwnersAppend(open[..k], open[k..], pool);
      OnceEach(clients, c);
      assert false;
    }
  }

  lemma {:induction false} OnceEach<T>(s: seq<T>, x: T)
    requires NoDup(s)
    ensures multiset(s)[x] <= 1
  {
    if s != [] {
      NoDupTail(s);
      OnceEach(s[1..], x);
      assert s == [s[0]] + s[1..];
    }
  }

  // No two open slots have the same client.
  lemma SlotsHaveOwnClients<C>(s: Server<C>, i: nat, j: nat)
    requires Sound(s) && i in s.open.items && j in s.open.items && i != j
    requires ClientAt(i, s.pool).Some?
    ensures ClientAt(i, s.pool) != ClientAt(j, s.pool)
  {
    var k :| 0 <= k < |s.open.items| && s.open.items[k] == i;
    var m :| 0 <= m < |s.open.items| && s.open.items[m] == j;
    if ClientAt(i, s.pool) == ClientAt(j, s.pool) {
      DistinctOwners(s.open.items, s.pool, s.clients.items, if k < m then k else m, if k < m then m else k,
                     ClientAt(i, s.pool).value);
    }
  }

  lemma {:induction false} SlotInAt<C>(open: seq<nat>, pool: seq<Slot<C>>, c: C, k: nat)
    requires k < |open| && ClientAt(open[k], pool) == Some(c)
    requires forall j :: 0 <= j < k ==> ClientAt(open[j], pool) != Some(c)
    ensures SlotIn(open, pool, c) == open[k]
  {
    if k > 0 {
      assert ClientAt(open[0], pool) != Some(c);
      SlotInAt(open[1..], pool, c, k - 1);
    }
  }

  // The slot of a client is the one open slot that belongs to it.
  lemma SlotOfClient<C>(s: Server<C>, c: C, k: nat)
    requires Sound(s) && k < |s.open.items| && ClientAt(s.open.items[k], s.pool) == Some(c)
    ensures SlotIn(s.open.items, s.pool, c) == s.open.items[k]
  {
    forall j | 0 <= j < k ensures ClientAt(s.open.items[j], s.pool) != Some(c) {
      if ClientAt(s.open.items[j], s.pool) == Some(c) {
        DistinctOwners(s.open.items, s.pool, s.clients.items, j, k, c);
      }
    }
    SlotInAt(s.open.items, s.pool, c, k);
  }

  // Giving back the slot of one client leaves the slots of the others where they are.
  lemma {:induction false} SlotInFrame<C>(open: seq<nat>, pool: seq<Slot<C>>, i: nat, c: C, slot: Slot<C>, d: C)
    requires i < |pool| && ClientAt(i, pool) == Some(c) && slot.client == None && c != d
    ensures SlotIn(Keep(open, {i}), pool[i := slot], d) == SlotIn(open, pool, d)
  {
    if open != [] {
      SlotInFrame(open[1..], pool, i, c, slot, d);
      if open[0] != i {
        assert Keep(open, {i})[1..] == Keep(open[1..], {i});
      } else {
        assert Keep(open, {i}) == Keep(open[1..], {i});
      }
    }
  }

  lemma {:induction false} SlotsBackFrame<C>(open: seq<nat>, pool: seq<Slot<C>>, i: nat, c: C, slot: Slot<C>,
                                             cs: seq<C>)
    requires i < |pool| && ClientAt(i, pool) == Some(c) && slot.client == None && c !in cs
    ensures SlotsBack(Keep(open, {i}), pool[i := slot], cs) == SlotsBack(open, pool, cs)
  {
    if cs != [] {
      assert cs[0] in cs && forall d :: d in cs[1..] ==> d in cs;
      SlotInFrame(open, pool, i, c, slot, cs[0]);
      SlotsBackFrame(open, pool, i, c, slot, cs[1..]);
    }
  }

  lemma PopIsKeep(s: seq<nat>, k: nat)
    requires NoDup(s) && k < |s|
    ensures PopNth(s, k) == Keep(s, {s[k]})
  {
    PopIsKeepFrom(s, k);
  }

  lemma {:induction false} PopIsKeepFrom(s: seq<nat>, k: nat)
    requires NoDup(s) && k < |s|
    ensures s[..k] + s[k + 1..] == Keep(s, {s[k]})
  {
    NoDupTail(s);
    if k == 0 {
      KeepNone(s[1..], {s[0]});
    } else {
      PopIsKeepFrom(s[1..], k - 1);
      assert s[1..][k - 1] == s[k] && s[0] != s[k];
      assert s[..k] == [s[0]] + s[1..][..k - 1] && s[k + 1..] == s[1..][k..];
    }
  }

  lemma OpenOwners<C>(open: seq<nat>, pool: seq<Slot<C>>, listening: int)
    requires OpenOk(open, pool, listening)
    ensures |Owners(open, pool)| == |open| - 1
  {
    var n := |open| - 1;
    assert open == open[..n] + [open[n]];
    OwnersAppend(open[..n], [open[n]], pool);
    OwnersOne(open[n], pool);
    forall k | 0 <= k < n ensures ClientAt(open[..n][k], pool).Some? {
      assert InUse(open[k], pool, listening);
    }
    OwnersCount(open[..n], pool);
  }

  // The slots of the pool are shared out between the free queue, the clients and the listener.
  lemma SlotsAreConserved<C>(s: Server<C>)
    requires Sound(s)
    ensures |s.free.items| + |s.clients.items| + 1 == |s.pool|
    ensures |s.open.items| == |s.clients.items| + 1
  {
    OpenOwners(s.open.items, s.pool, s.listening);
    assert |multiset(Owners(s.open.items, s.pool))| == |multiset(s.clients.items)|;
    IotaLength(|s.pool|);
    assert |multiset(s.free.items) + multiset(s.open.items)| == |multiset(Iota(|s.pool|))|;
  }

  // Every slot is in exactly one of the two queues, and there only once.
  lemma SlotsArePartitioned<C>(s: Server<C>)
    requires Sound(s)
    ensures NoDup(s.open.items) && NoDup(s.free.items)
    ensures forall i: nat :: i < |s.pool| <==> (i in s.free.items) != (i in s.open.items)
    ensures forall i: nat :: !(i in s.free.items && i in s.open.items)
  {
    PartitionNoDup(s.free.items, s.open.items, |s.pool|);
    assert Partition(s.open.items, s.free.items, |s.pool|);
    PartitionNoDup(s.open.items, s.free.items, |s.pool|);
    forall i: nat
      ensures i < |s.pool| <==> (i in s.free.items) != (i in s.open.items)
      ensures !(i in s.free.items && i in s.open.items)
    {
      PartitionOnce(s.free.items, s.open.items, |s.pool|, i);
    }
  }

  lemma {:induction false} IotaLength(n: nat)
    ensures |Iota(n)| == n
  {
    if n > 0 { IotaLength(n - 1); }
  }
}
