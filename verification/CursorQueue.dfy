/**
 The cursor queue: a list with a moving position. The same queue holds clients, open sockets,
 free socket slots, pending messages and search results, and elements are deleted while the
 cursor walks over it.

 The datatype Cursor gives the meaning of every operation on values; the class Queue updates a
 list and a position in place, each method proved against that meaning.
 */
module CursorQueue {
  import opened Common

  datatype Direction = QdHead | QdPrev | QdCurrent | QdNext | QdTail

  // GLib lists: an index that is negative or past the end appends on insertion, and finds
  // nothing on access or removal.

  function PushNth<T>(s: seq<T>, x: T, n: int): seq<T> {
    if 0 <= n < |s| then s[..n] + [x] + s[n..] else s + [x]
  }

  function PeekNth<T>(s: seq<T>, n: int): Option<T> {
    if 0 <= n < |s| then Some(s[n]) else None
  }

  function PopNth<T>(s: seq<T>, n: int): seq<T> {
    if 0 <= n < |s| then s[..n] + s[n + 1..] else s
  }

  datatype Cursor<T(==)> = Cursor(items: seq<T>, pos: int) {

    predicate Ok() {
      && -1 <= pos <= |items|
      && (|items| > 0 ==> pos >= 0)
    }

    predicate AtEnd() { pos >= |items| - 1 }

    function Rewind(): (r: Cursor<T>)
      ensures r.items == items
      ensures Ok() ==> r.Ok()
    {
      if pos > 0 then Cursor(items, 0) else this
    }

    function End(): (r: Cursor<T>)
      ensures r.items == items
      ensures r.Ok()
    {
      Cursor(items, |items| - 1)
    }

    function Next(): (r: Cursor<T>)
      ensures r.items == items
      ensures Ok() ==> r.Ok()
    {
      if AtEnd() then this else Cursor(items, pos + 1)
    }

    function NextPlusOne(): (r: Cursor<T>)
      ensures r.items == items
      ensures Ok() ==> r.Ok()
    {
      if pos < |items| then Cursor(items, pos + 1) else this
    }

    function Prev(): (r: Cursor<T>)
      ensures r.items == items
      ensures Ok() ==> r.Ok()
    {
      if pos > 0 then Cursor(items, pos - 1) else this
    }

    function Get(): Option<T> { PeekNth(items, pos) }

    function Add(x: T): (r: Cursor<T>)
      ensures Ok() ==> r.Ok()
    {
      var q := NextPlusOne();
      Cursor(PushNth(items, x, q.pos), q.pos)
    }

    function Insert(x: T): (r: Cursor<T>)
      ensures Ok() ==> r.Ok()
    {
      var q := Prev();
      Cursor(PushNth(items, x, q.pos), q.pos).Next()
    }

    function Move(direction: Direction): (r: Cursor<T>)
      ensures Ok() ==> r.Ok()
      ensures r.items == items
    {
      match direction
      case QdHead => Rewind()
      case QdTail => End()
      case QdPrev => Prev()
      case QdCurrent => this
      case QdNext => this
    }

    function Delete(direction: Direction): (r: Cursor<T>)
      ensures Ok() ==> r.Ok()
      ensures r.items == PopNth(items, pos)
    {
      Cursor(PopNth(items, pos), pos).Move(direction)
    }

    // The search for x starts at the head, whatever the position was.
    function Seek(x: T): (r: Cursor<T>)
      ensures Ok() ==> r.Ok()
      ensures r.items == items
    {
      if x in items then
        IndexOfAbsent(items, x);
        Cursor(items, IndexOf(items, x))
      else if items == [] then Rewind()
      else End()
    }

    function Remove(x: T, direction: Direction): (r: Cursor<T>)
      ensures Ok() ==> r.Ok()
      ensures r.items == if x in items then PopNth(items, IndexOf(items, x)) else items
    {
      if x in items then Seek(x).Delete(direction) else Seek(x)
    }

    function Pop(): (r: Cursor<T>)
      ensures r.Ok()
      ensures r.items == if items == [] then [] else items[..|items| - 1]
    {
      End().Delete(QdPrev)
    }

    function Push(x: T): (r: Cursor<T>)
      ensures r == Cursor(items + [x], |items|)
    {
      End().Add(x)
    }

    function Dequeue(): (r: Cursor<T>)
      ensures Ok() ==> r.Ok()
      ensures Ok() ==> r.items == if items == [] then [] else items[1..]
    {
      Rewind().Delete(QdNext)
    }

    // Forward from the current position to the first element of targets, or to the last element.
    function Find(targets: set<T>): Cursor<T>
      requires Ok()
      decreases |items| - pos
    {
      if Get() == None || Get().value in targets || AtEnd() then this else Next().Find(targets)
    }

    function Finds(targets: set<T>): bool
      requires Ok()
    {
      var e := Find(targets).Get();
      e.Some? && e.value in targets
    }
  }

  // ----- Where elements go -----

  // With the cursor on e: where an element is put, what is deleted, and where the cursor ends.
  lemma PlacesAtElement<T>(before: seq<T>, e: T, after: seq<T>, x: T)
    ensures var q, left := Cursor(before + [e] + after, |before|), before + after;
            && q.Get() == Some(e)
            && q.Add(x) == Cursor(before + [e, x] + after, |before| + 1)
            && q.Delete(QdNext) == q.Delete(QdCurrent) == Cursor(left, |before|)
            && q.Delete(QdPrev) == Cursor(left, if before == [] then 0 else |before| - 1)
            && q.Delete(QdHead) == Cursor(left, 0)
            && q.Delete(QdTail) == Cursor(left, |left| - 1)
  {
    assert before + [e] + after == (before + [e]) + after;
    assert PushNth(before + [e] + after, x, |before| + 1) == before + [e, x] + after;
    assert PopNth(before + [e] + after, |before|) == before + after;
  }

  // Insertion goes before the element that precedes the cursor, and ends on that element; at the head
  // it goes before the head.
  lemma InsertPlaces<T>(before: seq<T>, e: T, d: T, after: seq<T>, x: T)
    ensures Cursor(before + [e, d] + after, |before| + 1).Insert(x) == Cursor(before + [x, e, d] + after, |before| + 1)
    ensures Cursor([e] + after, 0).Insert(x) == Cursor([x, e] + after, 1)
    ensures Cursor([], -1).Insert(x) == Cursor([], -1).Add(x) == Cursor([x], 0)
  {
    assert PushNth(before + [e, d] + after, x, |before|) == before + [x, e, d] + after;
    assert PushNth([e] + after, x, 0) == [x, e] + after;
  }

  // With the cursor past the end nothing is found or deleted, and an element added goes to the end.
  lemma PlacesPastEnd<T>(items: seq<T>, x: T, direction: Direction)
    ensures var q := Cursor(items, |items|);
            && q.Get() == None && q.Delete(direction).items == items
            && q.Add(x) == Cursor(items + [x], |items|) && q.Add(x).Get() == Some(x)
  {
  }

  // ----- Invariant and deque behaviour over arbitrary operation sequences -----

  datatype Op<T(==)> =
    | OpRewind | OpEnd | OpNext | OpNextPlusOne | OpPrev | OpFind(targets: set<T>)
    | OpAdd(x: T) | OpInsert(x: T) | OpPush(x: T)
    | OpDelete(direction: Direction) | OpRemove(x: T, direction: Direction)
    | OpPop | OpDequeue

  function Apply<T>(q: Cursor<T>, op: Op<T>): Cursor<T>
    requires q.Ok()
  {
    match op
    case OpRewind => q.Rewind()
    case OpEnd => q.End()
    case OpNext => q.Next()
    case OpNextPlusOne => q.NextPlusOne()
    case OpPrev => q.Prev()
    case OpFind(targets) => q.Find(targets)
    case OpAdd(x) => q.Add(x)
    case OpInsert(x) => q.Insert(x)
    case OpPush(x) => q.Push(x)
    case OpDelete(direction) => q.Delete(direction)
    case OpRemove(x, direction) => q.Remove(x, direction)
    case OpPop => q.Pop()
    case OpDequeue => q.Dequeue()
  }

  // The element an operation hands back, as a list of at most one.
  function Taken<T>(q: Cursor<T>, op: Op<T>): seq<T>
  {
    match op
    case OpDelete(_) => AsSeq(q.Get())
    case OpRemove(x, _) => if x in q.items then [x] else []
    case OpPop => AsSeq(q.End().Get())
    case OpDequeue => AsSeq(q.Rewind().Get())
    case _ => []
  }

  function Given<T>(op: Op<T>): seq<T> {
    match op
    case OpAdd(x) => [x]
    case OpInsert(x) => [x]
    case OpPush(x) => [x]
    case _ => []
  }

  function AsSeq<T>(o: Option<T>): seq<T> {
    match o case None => [] case Some(x) => [x]
  }

  lemma {:induction false} FindMoves<T>(q: Cursor<T>, targets: set<T>)
    requires q.Ok()
    ensures q.Find(targets).Ok() && q.Find(targets).items == q.items
    ensures q.Find(targets).pos >= q.pos
    ensures forall i :: 0 <= q.pos <= i < q.Find(targets).pos && i < |q.items| ==> q.items[i] !in targets
    ensures q.Finds(targets) <==> exists i :: 0 <= q.pos <= i < |q.items| && q.items[i] in targets
    decreases |q.items| - q.pos
  {
    if !(q.Get() == None || q.Get().value in targets || q.AtEnd()) {
      FindMoves(q.Next(), targets);
    }
  }

  lemma ApplyKeepsOk<T>(q: Cursor<T>, op: Op<T>)
    requires q.Ok()
    ensures Apply(q, op).Ok()
  {
    if op.OpFind? { FindMoves(q, op.targets); }
  }

  function Run<T>(q: Cursor<T>, ops: seq<Op<T>>): (r: Cursor<T>)
    requires q.Ok()
    ensures r.Ok()
    decreases |ops|
  {
    if ops == [] then q
    else
      ApplyKeepsOk(q, ops[0]);
      Run(Apply(q, ops[0]), ops[1..])
  }

  function AllTaken<T>(q: Cursor<T>, ops: seq<Op<T>>): seq<T>
    requires q.Ok()
    decreases |ops|
  {
    if ops == [] then []
    else
      ApplyKeepsOk(q, ops[0]);
      Taken(q, ops[0]) + AllTaken(Apply(q, ops[0]), ops[1..])
  }

  function AllGiven<T>(ops: seq<Op<T>>): seq<T> {
    if ops == [] then [] else Given(ops[0]) + AllGiven(ops[1..])
  }

  lemma PushConserves<T>(s: seq<T>, x: T, n: int)
    ensures multiset(s) + multiset([x]) == multiset(PushNth(s, x, n))
  {
    if 0 <= n < |s| { assert s == s[..n] + s[n..]; }
  }

  lemma PopConserves<T>(s: seq<T>, n: int)
    ensures multiset(s) == multiset(AsSeq(PeekNth(s, n))) + multiset(PopNth(s, n))
  {
    if 0 <= n < |s| { assert s == s[..n] + [s[n]] + s[n + 1..]; }
  }

  lemma PushingConserves<T>(q: Cursor<T>, op: Op<T>)
    requires q.Ok() && (op.OpAdd? || op.OpInsert? || op.OpPush?)
    ensures multiset(q.items) + multiset(Given(op)) == multiset(Apply(q, op).items)
  {
    match op
    case OpAdd(x) => PushConserves(q.items, x, q.NextPlusOne().pos);
    case OpInsert(x) => PushConserves(q.items, x, q.Prev().pos);
    case OpPush(x) =>
  }

  lemma DeleteConserves<T>(q: Cursor<T>, direction: Direction)
    ensures multiset(q.items) == multiset(AsSeq(q.Get())) + multiset(q.Delete(direction).items)
  {
    PopConserves(q.items, q.pos);
  }

  lemma RemoveConserves<T>(q: Cursor<T>, x: T, direction: Direction)
    ensures multiset(q.items) == multiset(if x in q.items then [x] else []) + multiset(q.Remove(x, direction).items)
  {
    IndexOfAbsent(q.items, x);
    PopConserves(q.items, IndexOf(q.items, x));
  }

  lemma TakingConserves<T>(q: Cursor<T>, op: Op<T>)
    requires q.Ok() && (op.OpDelete? || op.OpRemove? || op.OpPop? || op.OpDequeue?)
    ensures multiset(q.items) == multiset(Taken(q, op)) + multiset(Apply(q, op).items)
  {
    hide Cursor.Delete, Cursor.Remove, Cursor.Move;
    match op
    case OpDelete(direction) => DeleteConserves(q, direction);
    case OpRemove(x, direction) => RemoveConserves(q, x, direction);
    case OpPop => DeleteConserves(q.End(), QdPrev);
    case OpDequeue => DeleteConserves(q.Rewind(), QdNext);
  }

  lemma ApplyConserves<T>(q: Cursor<T>, op: Op<T>)
    requires q.Ok()
    ensures multiset(q.items) + multiset(Given(op))
         == multiset(Taken(q, op)) + multiset(Apply(q, op).items)
  {
    if op.OpAdd? || op.OpInsert? || op.OpPush? {
      PushingConserves(q, op);
    } else if op.OpDelete? || op.OpRemove? || op.OpPop? || op.OpDequeue? {
      TakingConserves(q, op);
    } else {
      if op.OpFind? { FindMoves(q, op.targets); }
      assert Apply(q, op).items == q.items;
    }
  }

  // Nothing is lost, duplicated or invented by any interleaving of operations.
  lemma {:induction false} RunConserves<T>(q: Cursor<T>, ops: seq<Op<T>>)
    requires q.Ok()
    ensures multiset(q.items) + multiset(AllGiven(ops))
         == multiset(AllTaken(q, ops)) + multiset(Run(q, ops).items)
    decreases |ops|
  {
    if ops != [] {
      ApplyKeepsOk(q, ops[0]);
      ApplyConserves(q, ops[0]);
      var r := Apply(q, ops[0]);
      RunConserves(r, ops[1..]);
      SpliceMultiset(q.items, Given(ops[0]), Taken(q, ops[0]), r.items,
                     AllGiven(ops[1..]), AllTaken(r, ops[1..]), Run(r, ops[1..]).items);
    }
  }

  // Operations at the two ends of the queue, and operations that only move the cursor.
  predicate IsEndOp<T>(op: Op<T>) {
    !op.OpAdd? && !op.OpInsert? && !op.OpDelete? && !op.OpRemove?
  }

  // A double-ended list with no cursor at all.
  function DequeApply<T>(s: seq<T>, op: Op<T>): seq<T> {
    match op
    case OpPush(x) => s + [x]
    case OpPop => if s == [] then [] else s[..|s| - 1]
    case OpDequeue => if s == [] then [] else s[1..]
    case _ => s
  }

  function DequeTaken<T>(s: seq<T>, op: Op<T>): seq<T> {
    match op
    case OpPop => if s == [] then [] else [s[|s| - 1]]
    case OpDequeue => if s == [] then [] else [s[0]]
    case _ => []
  }

  function DequeRun<T>(s: seq<T>, ops: seq<Op<T>>): seq<T>
    decreases |ops|
  {
    if ops == [] then s else DequeRun(DequeApply(s, ops[0]), ops[1..])
  }

  function DequeAllTaken<T>(s: seq<T>, ops: seq<Op<T>>): seq<T>
    decreases |ops|
  {
    if ops == [] then [] else DequeTaken(s, ops[0]) + DequeAllTaken(DequeApply(s, ops[0]), ops[1..])
  }

  lemma EndOpRefinesDeque<T>(q: Cursor<T>, op: Op<T>)
    requires q.Ok() && IsEndOp(op)
    ensures Apply(q, op).items == DequeApply(q.items, op)
    ensures Taken(q, op) == DequeTaken(q.items, op)
  {
    if op.OpFind? { FindMoves(q, op.targets); }
  }

  // Wherever cursor moves leave the position, pushes, pops and dequeues behave as on a plain
  // double-ended list: the same elements come out, and the same elements stay.
  lemma {:induction false} CursorRefinesDeque<T>(q: Cursor<T>, ops: seq<Op<T>>)
    requires q.Ok() && forall i :: 0 <= i < |ops| ==> IsEndOp(ops[i])
    ensures Run(q, ops).items == DequeRun(q.items, ops)
    ensures AllTaken(q, ops) == DequeAllTaken(q.items, ops)
    decreases |ops|
  {
    if ops != [] {
      ApplyKeepsOk(q, ops[0]);
      EndOpRefinesDeque(q, ops[0]);
      CursorRefinesDeque(Apply(q, ops[0]), ops[1..]);
    }
  }

  // First in, first out: without pops, what came out followed by what is left is exactly what
  // was there followed by what was pushed, in order.
  lemma {:induction false} FifoOrder<T>(q: Cursor<T>, ops: seq<Op<T>>)
    requires q.Ok() && forall i :: 0 <= i < |ops| ==> IsEndOp(ops[i]) && !ops[i].OpPop?
    ensures q.items + AllGiven(ops) == AllTaken(q, ops) + Run(q, ops).items
    decreases |ops|
  {
    if ops != [] {
      var r := Apply(q, ops[0]);
      ApplyKeepsOk(q, ops[0]);
      EndOpRefinesDeque(q, ops[0]);
      assert q.items + Given(ops[0]) == Taken(q, ops[0]) + r.items;
      FifoOrder(r, ops[1..]);
      SpliceSeq(q.items, Given(ops[0]), Taken(q, ops[0]), r.items,
                AllGiven(ops[1..]), AllTaken(r, ops[1..]), Run(r, ops[1..]).items);
    }
  }

  predicate IsMove<T>(op: Op<T>) {
    op.OpRewind? || op.OpEnd? || op.OpNext? || op.OpNextPlusOne? || op.OpPrev? || op.OpFind?
  }

  lemma {:induction false} MovesKeepItems<T>(q: Cursor<T>, moves: seq<Op<T>>)
    requires q.Ok() && forall i :: 0 <= i < |moves| ==> IsMove(moves[i])
    ensures Run(q, moves).items == q.items
    decreases |moves|
  {
    if moves != [] {
      ApplyKeepsOk(q, moves[0]);
      EndOpRefinesDeque(q, moves[0]);
      MovesKeepItems(Apply(q, moves[0]), moves[1..]);
    }
  }

  // Last in, first out, with any cursor moves in between.
  lemma LifoOrder<T>(q: Cursor<T>, x: T, moves: seq<Op<T>>)
    requires q.Ok() && forall i :: 0 <= i < |moves| ==> IsMove(moves[i])
    ensures Run(q.Push(x), moves).Pop().items == q.items
    ensures Run(q.Push(x), moves).End().Get() == Some(x)
  {
    MovesKeepItems(q.Push(x), moves);
  }

  // ----- Sweeps that delete the current element -----

  // A loop "get; maybe delete the current element and step back; get next", from the current
  // position on. Elements of doomed are deleted when the sweep reaches them.
  ghost function Sweep<T>(q: Cursor<T>, doomed: set<T>): Cursor<T>
    requires q.Ok()
    decreases |q.items| - q.pos
  {
    match q.Get()
    case None => q
    case Some(x) =>
      var r := if x in doomed then q.Delete(QdPrev) else q;
      if r.AtEnd() then r else Sweep(r.Next(), doomed)
  }

  // The elements that the sweep visits, in order.
  ghost function Visits<T>(q: Cursor<T>, doomed: set<T>): seq<T>
    requires q.Ok()
    decreases |q.items| - q.pos
  {
    match q.Get()
    case None => []
    case Some(x) =>
      var r := if x in doomed then q.Delete(QdPrev) else q;
      [x] + (if r.AtEnd() then [] else Visits(r.Next(), doomed))
  }

  // What a sweep over s from its head visits: everything, except the second element when the
  // first one is deleted.
  ghost function Visited<T>(s: seq<T>, doomed: set<T>): seq<T> {
    if |s| >= 2 && s[0] in doomed then [s[0]] + s[2..] else s
  }

  // What it leaves behind.
  ghost function Survivors<T>(s: seq<T>, doomed: set<T>): seq<T> {
    if |s| >= 2 && s[0] in doomed then [s[1]] + Keep(s[2..], doomed) else Keep(s, doomed)
  }

  lemma {:induction false} VisitsPastHead<T>(q: Cursor<T>, doomed: set<T>)
    requires q.Ok() && q.pos > 0
    ensures Visits(q, doomed) == q.items[q.pos..]
    decreases |q.items| - q.pos
  {
    var s, p := q.items, q.pos;
    if p < |s| {
      assert s[p..] == [s[p]] + s[p + 1..];
      var r := if s[p] in doomed then q.Delete(QdPrev) else q;
      if r.AtEnd() {
        assert s[p + 1..] == [];
      } else {
        VisitsPastHead(r.Next(), doomed);
        assert r.items[r.pos + 1..] == s[p + 1..];
      }
    }
  }

  lemma {:induction false} SurvivorsPastHead<T>(q: Cursor<T>, doomed: set<T>)
    requires q.Ok() && q.pos > 0
    ensures Sweep(q, doomed).items == q.items[..q.pos] + Keep(q.items[q.pos..], doomed)
    ensures Sweep(q, doomed).Ok()
    decreases |q.items| - q.pos
  {
    var s, p := q.items, q.pos;
    if p < |s| {
      KeepStep(s, p, doomed);
      var r := if s[p] in doomed then q.Delete(QdPrev) else q;
      if r.AtEnd() {
        assert s[p + 1..] == [];
      } else {
        var n := r.Next();
        SurvivorsPastHead(n, doomed);
        assert n.items[n.pos..] == s[p + 1..];
        assert n.items[..n.pos] == s[..p] + (if s[p] in doomed then [] else [s[p]]);
      }
    }
  }

  // Past the head, a sweep visits everything that is left, and keeps what is not doomed.
  lemma SweepPastHead<T>(q: Cursor<T>, doomed: set<T>)
    requires q.Ok() && q.pos > 0
    ensures Sweep(q, doomed).items == q.items[..q.pos] + Keep(q.items[q.pos..], doomed)
    ensures Visits(q, doomed) == q.items[q.pos..]
    ensures Sweep(q, doomed).Ok()
  {
    VisitsPastHead(q, doomed);
    SurvivorsPastHead(q, doomed);
  }

  // A sweep over distinct elements does not come back to the one it is at.
  lemma NextNotSeen<T>(q: Cursor<T>, r: Cursor<T>, doomed: set<T>)
    requires q.Ok() && NoDup(q.items) && 0 <= q.pos < |q.items|
    requires r == (if q.items[q.pos] in doomed then q.Delete(QdPrev) else q) && !r.AtEnd()
    ensures r.Next().Ok() && r.Next().pos > 0
    ensures q.items[q.pos] !in Visits(r.Next(), doomed)
  {
    var n := r.Next().pos;
    var shift := if q.items[q.pos] in doomed then 1 else 0;
    forall k | n <= k < |r.items| ensures r.items[k] != q.items[q.pos] {
      assert q.pos < k + shift < |q.items| && r.items[k] == q.items[k + shift];
    }
    assert q.items[q.pos] !in r.items[n..];
    SweepPastHead(r.Next(), doomed);
  }

  lemma SweepDoomedHead<T>(h: Cursor<T>, doomed: set<T>)
    requires h.items != [] && h.pos == 0 && h.items[0] in doomed
    ensures Sweep(h, doomed).items == Survivors(h.items, doomed)
    ensures Visits(h, doomed) == Visited(h.items, doomed)
    ensures Sweep(h, doomed).Ok()
  {
    var s, r := h.items, h.Delete(QdPrev);
    assert r == Cursor(s[1..], 0);
    if |s| == 1 {
      assert s[1..] == [] && Keep(s[1..], doomed) == [];
      assert Keep(s, doomed) == Keep(s[1..], doomed);
    } else if |s| == 2 {
      assert s[2..] == [] && s[1..] == [s[1]];
    } else {
      SweepPastHead(r.Next(), doomed);
      assert s[1..][1..] == s[2..] && s[1..][..1] == [s[1]];
    }
  }

  lemma SweepSparedHead<T>(h: Cursor<T>, doomed: set<T>)
    requires h.items != [] && h.pos == 0 && h.items[0] !in doomed
    ensures Sweep(h, doomed).items == Survivors(h.items, doomed)
    ensures Visits(h, doomed) == Visited(h.items, doomed)
    ensures Sweep(h, doomed).Ok()
  {
    var s := h.items;
    assert s == [s[0]] + s[1..];
    if |s| == 1 {
      assert s[1..] == [];
    } else {
      SweepPastHead(h.Next(), doomed);
      assert s[..1] == [s[0]];
    }
  }

  // The cursor loop computes exactly the closed form, for every queue.
  lemma SweepFromHead<T>(q: Cursor<T>, doomed: set<T>)
    requires q.Ok()
    ensures Sweep(q.Rewind(), doomed).items == Survivors(q.items, doomed)
    ensures Visits(q.Rewind(), doomed) == Visited(q.items, doomed)
    ensures Sweep(q.Rewind(), doomed).Ok()
  {
    if q.items != [] {
      if q.items[0] in doomed {
        SweepDoomedHead(q.Rewind(), doomed);
      } else {
        SweepSparedHead(q.Rewind(), doomed);
      }
    }
  }

  // A sweep that does not delete the last element ends on it.
  lemma {:induction false} SweepEndsOnLast<T>(q: Cursor<T>, doomed: set<T>)
    requires q.Ok() && 0 <= q.pos < |q.items| && q.items[|q.items| - 1] !in doomed
    ensures var r := Sweep(q, doomed);
            r.items != [] && r.pos == |r.items| - 1 && r.items[r.pos] == q.items[|q.items| - 1]
    decreases |q.items| - q.pos
  {
    var r := if q.items[q.pos] in doomed then q.Delete(QdPrev) else q;
    assert r.items != [] && r.items[|r.items| - 1] == q.items[|q.items| - 1];
    if !r.AtEnd() { SweepEndsOnLast(r.Next(), doomed); }
  }

  // Consequences read off the closed form: survivors are the elements that were not both visited
  // and doomed; no element is visited twice; and at most one element is skipped, the original
  // second one, exactly when the first was deleted.
  lemma SweepCoverage<T>(s: seq<T>, doomed: set<T>)
    requires NoDup(s)
    ensures NoDup(Visited(s, doomed)) && NoDup(Survivors(s, doomed))
    ensures forall x :: x in Survivors(s, doomed) <==> x in s && !(x in doomed && x in Visited(s, doomed))
    ensures forall x :: x in s && x !in Visited(s, doomed)
                   <==> |s| >= 2 && s[0] in doomed && x == s[1]
  {
    if |s| >= 2 && s[0] in doomed {
      var t := s[2..];
      assert s == [s[0]] + ([s[1]] + t) && s[1..][1..] == t;
      NoDupTail(s);
      NoDupTail(s[1..]);
      SurvivorsOf(t, doomed);
    } else {
      SurvivorsOf(s, doomed);
    }
  }

  lemma SurvivorsOf<T>(s: seq<T>, doomed: set<T>)
    requires NoDup(s)
    ensures NoDup(Keep(s, doomed))
    ensures forall x :: x in Keep(s, doomed) <==> x in s && x !in doomed
  {
    KeepNoDup(s, doomed);
    forall x ensures x in Keep(s, doomed) <==> x in s && x !in doomed { KeepIsFilter(s, doomed, x); }
  }

  // ----- The queue in place -----

  class Queue<T(==)> {
    var items: seq<T>
    var position: int

    ghost function State(): Cursor<T>
      reads this
    {
      Cursor(items, position)
    }

    ghost predicate Valid()
      reads this
    {
      State().Ok()
    }

    constructor ()
      ensures State() == Cursor([], -1) && Valid()
    {
      items, position := [], -1;
    }

    function Length(): int
      reads this
    {
      |items|
    }

    method Rewind()
      modifies this
      ensures State() == old(State()).Rewind()
    {
      if position > 0 {
        position := 0;
      }
    }

    method End()
      modifies this
      ensures State() == old(State()).End()
    {
      position := Length() - 1;
    }

    method Next() returns (r: int)
      modifies this
      ensures State() == old(State()).Next()
      ensures r == if old(State()).AtEnd() then -1 else 0
    {
      if position >= Length() - 1 {
        return -1;
      }
      position := position + 1;
      return 0;
    }

    method NextPlusOne()
      modifies this
      ensures State() == old(State()).NextPlusOne()
    {
      if position < Length() {
        position := position + 1;
      }
    }

    method Prev()
      modifies this
      ensures State() == old(State()).Prev()
    {
      if position > 0 {
        position := position - 1;
      }
    }

    function Get(): (r: Option<T>)
      reads this
      ensures r == State().Get()
    {
      if position < 0 then None else PeekNth(items, position)
    }

    method GetFirst() returns (r: Option<T>)
      modifies this
      ensures State() == old(State()).Rewind()
      ensures r == State().Get()
    {
      Rewind();
      r := Get();
    }

    method GetNext() returns (r: Option<T>)
      modifies this
      ensures State() == old(State()).Next()
      ensures r == if old(State()).AtEnd() then None else State().Get()
    {
      var moved := Next();
      r := if moved == 0 then Get() else None;
    }

    method AddNode(x: T)
      modifies this
      ensures State() == old(State()).Add(x)
    {
      NextPlusOne();
      items := PushNth(items, x, position);
    }

    // Returns -1 when an insertion into an empty queue finds the cursor at 0: the element was
    // inserted all the same.
    method InsertNode(x: T) returns (r: int)
      modifies this
      ensures State() == old(State()).Insert(x)
      ensures old(Valid()) ==> (r == -1 <==> old(items) == [] && old(position) == 0)
    {
      Prev();
      items := PushNth(items, x, position);
      r := Next();
    }

    method DeleteNode(direction: Direction) returns (r: Option<T>)
      modifies this
      ensures State() == old(State()).Delete(direction)
      ensures r == old(State()).Get()
    {
      r := PeekNth(items, position);
      items := PopNth(items, position);
      match direction {
        case QdHead => Rewind();
        case QdTail => End();
        case QdPrev => Prev();
        case QdCurrent =>
        case QdNext =>
      }
    }

    method Remove(x: T, direction: Direction) returns (r: Option<T>)
      requires Valid()
      modifies this
      ensures State() == old(State()).Remove(x, direction)
      ensures r == if x in old(items) then Some(x) else None
    {
      var node := GetFirst();
      while node.Some?
        invariant items == old(items) && Valid()
        invariant node.Some? ==> 0 <= position < |items| && node == Some(items[position])
        invariant node.Some? ==> forall j :: 0 <= j < position ==> items[j] != x
        invariant node.None? ==> x !in items && State() == old(State()).Seek(x)
        decreases node.Some?, |items| - position
      {
        if node.value == x {
          FirstOccurrence(items, x, position);
          r := DeleteNode(direction);
          return;
        }
        node := GetNext();
      }
      return None;
    }

    // Forward from the current position to the first element that matches; targets are the
    // elements that do.
    method Find(matches: T -> bool, ghost targets: set<T>) returns (found: bool)
      requires Valid() && forall x :: x in items ==> (matches(x) <==> x in targets)
      modifies this
      ensures State() == old(State()).Find(targets)
      ensures found == old(State()).Finds(targets)
    {
      var node := Get();
      while node.Some?
        invariant items == old(items) && Valid()
        invariant node.Some? ==> node == State().Get() && State().Find(targets) == old(State()).Find(targets)
        invariant node.None? ==> State() == old(State()).Find(targets) && !old(State()).Finds(targets)
        decreases node.Some?, |items| - position
      {
        if matches(node.value) {
          return true;
        }
        node := GetNext();
      }
      return false;
    }

    method Pop() returns (r: Option<T>)
      modifies this
      ensures State() == old(State()).Pop()
      ensures r == if old(items) == [] then None else Some(old(items)[|old(items)| - 1])
    {
      End();
      r := DeleteNode(QdPrev);
    }

    method Push(x: T)
      modifies this
      ensures State() == old(State()).Push(x)
    {
      End();
      AddNode(x);
    }

    method Dequeue() returns (r: Option<T>)
      requires Valid()
      modifies this
      ensures State() == old(State()).Dequeue()
      ensures r == if old(items) == [] then None else Some(old(items)[0])
    {
      Rewind();
      r := DeleteNode(QdNext);
    }
  }

  lemma FirstOccurrence<T>(s: seq<T>, x: T, k: int)
    requires 0 <= k < |s| && s[k] == x && forall j :: 0 <= j < k ==> s[j] != x
    ensures IndexOf(s, x) == k
  {
  }
}
