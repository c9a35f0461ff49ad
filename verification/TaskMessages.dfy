/**
 * The live message list of a task (the `task:message` handler in packages/core/realtime/use-realtime-sync.ts).
 */
module TaskMessages {
  import opened Prelude
  import opened Sorting

  datatype Message = Message(taskId: string, seqNo: int, content: string)

  type Lists = map<string, seq<Message>>

  function Order(): Message -> int {
    (m: Message) => m.seqNo
  }

  predicate HasSeq(xs: seq<Message>, n: int) {
    exists m :: m in xs && m.seqNo == n
  }

  /** `old.some(same seq) ? old : [...old, payload].sort(by seq)` */
  function Insert(xs: seq<Message>, m: Message): seq<Message> {
    if HasSeq(xs, m.seqNo) then xs else SortBy(xs + [m], Order())
  }

  function ListOf(c: Lists, taskId: string): seq<Message> {
    if taskId in c then c[taskId] else []
  }

  function Delivered(c: Lists, m: Message): Lists {
    c[m.taskId := Insert(ListOf(c, m.taskId), m)]
  }

  function DeliverAll(c: Lists, ms: seq<Message>): Lists {
    if ms == [] then c else Delivered(DeliverAll(c, ms[..|ms| - 1]), ms[|ms| - 1])
  }

  class TaskMessageCache {
    var lists: Lists

    constructor (lists: Lists)
      ensures this.lists == lists
    {
      this.lists := lists;
    }

    method OnTaskMessage(payload: Message)
      modifies this
      ensures lists == Delivered(old(lists), payload)
    {
      var xs := ListOf(lists, payload.taskId);
      if !HasSeq(xs, payload.seqNo) {
        xs := SortBy(xs + [payload], Order());
      }
      lists := lists[payload.taskId := xs];
    }
  }

  // ----- convergence -----

  ghost predicate Ordered(xs: seq<Message>) {
    forall i, j :: 0 <= i < j < |xs| ==> xs[i].seqNo < xs[j].seqNo
  }

  /** A message is determined by its task and its sequence number. */
  ghost predicate Determined(ms: set<Message>) {
    forall a, b :: a in ms && b in ms && a.taskId == b.taskId && a.seqNo == b.seqNo ==> a == b
  }

  ghost function Received(c: Lists, taskId: string, ms: seq<Message>): set<Message> {
    (set m | m in ListOf(c, taskId)) + (set m | m in ms && m.taskId == taskId)
  }

  lemma InsertOrdered(xs: seq<Message>, m: Message)
    requires Ordered(xs)
    ensures Ordered(Insert(xs, m))
    ensures forall x :: x in Insert(xs, m) <==> x in xs || (x == m && !HasSeq(xs, m.seqNo))
  {
    if !HasSeq(xs, m.seqNo) {
      var r := SortBy(xs + [m], Order());
      SortSorts(xs + [m], Order());
      SortPermutes(xs + [m], Order());
      assert forall x :: x in xs ==> x.seqNo != m.seqNo;
      assert DistinctBy(xs + [m], Order());
      DistinctByPermuted(xs + [m], r, Order());
      assert forall i, j :: 0 <= i < j < |r| ==> Order()(r[i]) <= Order()(r[j]) && Order()(r[i]) != Order()(r[j]);
    }
  }

  /** After any deliveries a task's list is strictly increasing and holds exactly what it was given. */
  lemma {:induction false} DeliveredExactly(c: Lists, ms: seq<Message>, taskId: string)
    requires Ordered(ListOf(c, taskId))
    requires forall m :: m in ListOf(c, taskId) ==> m.taskId == taskId
    requires Determined(Received(c, taskId, ms))
    ensures var xs := ListOf(DeliverAll(c, ms), taskId);
      Ordered(xs) && forall m :: m in xs <==> m in Received(c, taskId, ms)
  {
    if ms != [] {
      var init, last := ms[..|ms| - 1], ms[|ms| - 1];
      assert ms == init + [last];
      assert Received(c, taskId, ms) == Received(c, taskId, init) + (if last.taskId == taskId then {last} else {});
      DeliveredExactly(c, init, taskId);
      if last.taskId == taskId {
        var xs := ListOf(DeliverAll(c, init), taskId);
        InsertOrdered(xs, last);
        forall m | m in xs && m.seqNo == last.seqNo ensures m == last {
          assert m in Received(c, taskId, ms) && last in Received(c, taskId, ms);
        }
      }
    }
  }

  /**
   * Convergence: deliveries of the same messages, in any order and with any repetitions, leave the
   * same list for every task.
   */
  lemma DeliveriesConverge(c: Lists, ms: seq<Message>, ns: seq<Message>, taskId: string)
    requires Ordered(ListOf(c, taskId))
    requires forall m :: m in ListOf(c, taskId) ==> m.taskId == taskId
    requires Determined(Received(c, taskId, ms))
    requires forall m :: m in ms <==> m in ns
    ensures ListOf(DeliverAll(c, ms), taskId) == ListOf(DeliverAll(c, ns), taskId)
  {
    assert Received(c, taskId, ms) == Received(c, taskId, ns);
    DeliveredExactly(c, ms, taskId);
    DeliveredExactly(c, ns, taskId);
    var xs, ys := ListOf(DeliverAll(c, ms), taskId), ListOf(DeliverAll(c, ns), taskId);
    assert forall i, j :: 0 <= i < j < |xs| ==> Order()(xs[i]) < Order()(xs[j]);
    assert forall i, j :: 0 <= i < j < |ys| ==> Order()(ys[i]) < Order()(ys[j]);
    StrictlySortedUnique(xs, ys, Order());
  }

  lemma FirstWins(x: Message, y: Message)
    requires x.taskId == y.taskId && x.seqNo == y.seqNo
    ensures Insert([], x) == [x] && Insert([x], y) == [x]
  {
    assert [] + [x] == [x];
    assert SortBy([x], Order()) == [x];
    assert x in [x] && HasSeq([x], y.seqNo);
  }

  /** The condition cannot be dropped: two different payloads for one number make the order matter. */
  lemma UndeterminedDiverges(a: Message, b: Message)
    requires a.taskId == b.taskId && a.seqNo == b.seqNo && a != b
    ensures Delivered(Delivered(map[], a), b) == map[a.taskId := [a]]
    ensures Delivered(Delivered(map[], b), a) == map[a.taskId := [b]]
  {
    FirstWins(a, b);
    FirstWins(b, a);
  }
}
