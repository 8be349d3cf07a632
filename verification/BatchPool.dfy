/**
 * The bounded worker pool of GetPlayerHistoriesBatch (endpoints/async.go:79-125) as a
 * transition system. Every interleaving of the workers, the closer, the consumer and a
 * cancellation is a run; when both arms of a worker's select are ready either may win.
 */
module BatchPool {
  import opened MachineWords
  import opened Wrappers

  const BATCH_WORKERS: nat := 4

  /** What a fetch brings back, a history or an error; opaque here. */
  type Outcome = int

  /** One PlayerHistoryResult, with the input position it answers. */
  datatype Item = Item(position: nat, id: int, outcome: Outcome)

  /**
   * Where a worker is: about to read the context, about to take the next position, fetching it,
   * in the select that sends its result, or returned (holding the result it gave up on, if any).
   */
  datatype Worker =
    | Checking
    | Claiming
    | Fetching(position: nat)
    | Sending(item: Item)
    | Returned(dropped: Option<nat>)

  /**
   * answers[i] is what fetching position i brings back: every position is fetched at most once, so
   * fixing the answers before the run loses nothing. next is the shared counter, running the wait group, received what the consumer has taken from the channel.
   */
  datatype State = State(
    ids: seq<int>, answers: seq<Outcome>, capacity: nat, next: nat, workers: seq<Worker>, running: int,
    buffer: seq<Item>, closed: bool, received: seq<Item>, cancelled: bool)

  datatype Step =
    | CheckContext(w: nat)
    | Claim(w: nat)
    | Fetched(w: nat)
    | Send(w: nat)
    | GiveUp(w: nat)
    | Close
    | Receive
    | Cancel

  function Start(ids: seq<int>, answers: seq<Outcome>): State {
    var workers := Min(BATCH_WORKERS, |ids|);
    State(ids, answers, workers, 0, seq(workers, _ => Checking), workers, [], workers == 0, [], false)
  }

  /** Empty input starts no worker and hands out a closed channel; any other starts four workers, or one for each input. */
  lemma WorkersStarted(ids: seq<int>, answers: seq<Outcome>)
    ensures ids == [] ==> Start(ids, answers).closed && Start(ids, answers).workers == []
    ensures ids != [] ==>
      !Start(ids, answers).closed && |Start(ids, answers).workers| == if |ids| < 4 then |ids| else 4
  {
  }

  predicate Can(s: State, l: Step) {
    match l
    case CheckContext(w) => w < |s.workers| && s.workers[w].Checking?
    case Claim(w) => w < |s.workers| && s.workers[w].Claiming?
    case Fetched(w) => w < |s.workers| && s.workers[w].Fetching? && s.workers[w].position < |s.ids| == |s.answers|
    case Send(w) => w < |s.workers| && s.workers[w].Sending? && |s.buffer| < s.capacity
    case GiveUp(w) => w < |s.workers| && s.workers[w].Sending? && s.cancelled
    case Close => s.running == 0 && !s.closed
    case Receive => s.buffer != []
    case Cancel => !s.cancelled
  }

  function Move(s: State, w: nat, to: Worker): State
    requires w < |s.workers|
  {
    s.(workers := s.workers[w := to])
  }

  /** A worker returns: its deferred Done counts the wait group down. */
  function Return(s: State, w: nat, dropped: Option<nat>): State
    requires w < |s.workers|
  {
    Move(s, w, Returned(dropped)).(running := s.running - 1)
  }

  function Do(s: State, l: Step): State
    requires Can(s, l)
  {
    match l
    case CheckContext(w) => if s.cancelled then Return(s, w, None) else Move(s, w, Claiming)
    case Claim(w) =>
      var t := s.(next := s.next + 1);
      if s.next >= |s.ids| then Return(t, w, None) else Move(t, w, Fetching(s.next))
    case Fetched(w) =>
      var i := s.workers[w].position;
      Move(s, w, Sending(Item(i, s.ids[i], s.answers[i])))
    case Send(w) => Move(s, w, Checking).(buffer := s.buffer + [s.workers[w].item])
    case GiveUp(w) => Return(s, w, Some(s.workers[w].item.position))
    case Close => s.(closed := true)
    case Receive => s.(buffer := s.buffer[1..], received := s.received + [s.buffer[0]])
    case Cancel => s.(cancelled := true)
  }

  predicate Legal(s: State, ls: seq<Step>)
    decreases |ls|
  {
    ls == [] || (Can(s, ls[0]) && Legal(Do(s, ls[0]), ls[1..]))
  }

  function Exec(s: State, ls: seq<Step>): State
    requires Legal(s, ls)
    decreases |ls|
  {
    if ls == [] then s else Exec(Do(s, ls[0]), ls[1..])
  }

  predicate Moves(l: Step) {
    l.CheckContext? || l.Claim? || l.Fetched? || l.Send? || l.GiveUp?
  }

  // ---------- conservation of positions ----------

  /** The claimed position a worker still answers for. */
  function Held(w: Worker): Option<nat> {
    match w
    case Fetching(i) => Some(i)
    case Sending(item) => Some(item.position)
    case Returned(dropped) => dropped
    case _ => None
  }

  function HoldersOf(workers: seq<Worker>, p: nat): nat {
    if workers == [] then 0 else HoldersOf(workers[1..], p) + if Held(workers[0]) == Some(p) then 1 else 0
  }

  function Holders(workers: seq<Worker>): nat {
    if workers == [] then 0 else Holders(workers[1..]) + if Held(workers[0]).Some? then 1 else 0
  }

  function Running(workers: seq<Worker>): nat {
    if workers == [] then 0 else Running(workers[1..]) + if workers[0].Returned? then 0 else 1
  }

  lemma {:induction false} HoldersAfterMove(workers: seq<Worker>, w: nat, to: Worker, p: nat)
    requires w < |workers|
    ensures HoldersOf(workers[w := to], p) + (if Held(workers[w]) == Some(p) then 1 else 0)
         == HoldersOf(workers, p) + (if Held(to) == Some(p) then 1 else 0)
    ensures Holders(workers[w := to]) + (if Held(workers[w]).Some? then 1 else 0)
         == Holders(workers) + (if Held(to).Some? then 1 else 0)
    decreases |workers|
  {
    if w == 0 {
      assert workers[w := to][1..] == workers[1..];
    } else {
      HoldersAfterMove(workers[1..], w - 1, to, p);
      assert workers[w := to][1..] == workers[1..][w - 1 := to];
    }
  }

  lemma {:induction false} NobodyHolds(workers: seq<Worker>, p: nat)
    requires forall w :: 0 <= w < |workers| ==> Held(workers[w]) == None
    ensures HoldersOf(workers, p) == 0 && Holders(workers) == 0
    decreases |workers|
  {
    if workers != [] {
      NobodyHolds(workers[1..], p);
    }
  }

  lemma {:induction false} HoldersBound(workers: seq<Worker>)
    ensures Holders(workers) <= |workers|
    decreases |workers|
  {
    if workers != [] {
      HoldersBound(workers[1..]);
    }
  }

  lemma {:induction false} HolderCounts(workers: seq<Worker>, w: nat, p: nat)
    requires w < |workers| && Held(workers[w]) == Some(p)
    ensures HoldersOf(workers, p) >= 1
    decreases |workers|
  {
    if w > 0 {
      HolderCounts(workers[1..], w - 1, p);
    }
  }

  lemma {:induction false} TwoHoldersCount(workers: seq<Worker>, v: nat, w: nat, p: nat)
    requires v < w < |workers| && Held(workers[v]) == Held(workers[w]) == Some(p)
    ensures HoldersOf(workers, p) >= 2
    decreases |workers|
  {
    if v == 0 {
      HolderCounts(workers[1..], w - 1, p);
    } else {
      TwoHoldersCount(workers[1..], v - 1, w - 1, p);
    }
  }

  lemma {:induction false} RunningAfterMove(workers: seq<Worker>, w: nat, to: Worker)
    requires w < |workers|
    ensures Running(workers[w := to]) + (if workers[w].Returned? then 0 else 1)
         == Running(workers) + (if to.Returned? then 0 else 1)
    decreases |workers|
  {
    if w == 0 {
      assert workers[w := to][1..] == workers[1..];
    } else {
      RunningAfterMove(workers[1..], w - 1, to);
      assert workers[w := to][1..] == workers[1..][w - 1 := to];
    }
  }

  lemma {:induction false} RunningPositive(workers: seq<Worker>, w: nat)
    requires w < |workers| && !workers[w].Returned?
    ensures Running(workers) > 0
    decreases |workers|
  {
    if w > 0 {
      RunningPositive(workers[1..], w - 1);
    }
  }

  lemma {:induction false} SomebodyRuns(workers: seq<Worker>) returns (w: nat)
    requires Running(workers) > 0
    ensures w < |workers| && !workers[w].Returned?
    decreases |workers|
  {
    if !workers[0].Returned? {
      return 0;
    }
    w := SomebodyRuns(workers[1..]);
    w := w + 1;
  }

  function Positions(items: seq<Item>): seq<nat> {
    seq(|items|, i requires 0 <= i < |items| => items[i].position)
  }

  function Claimed(s: State): nat {
    Min(s.next, |s.ids|)
  }

  function Queued(s: State, p: nat): nat {
    Count(s.received, p) + Count(s.buffer, p)
  }

  /** In how many places position p is: received, buffered, or answered for by a worker. */
  function Places(s: State, p: nat): nat {
    Queued(s, p) + HoldersOf(s.workers, p)
  }

  lemma PositionsAppend(a: seq<Item>, b: seq<Item>)
    ensures Positions(a + b) == Positions(a) + Positions(b)
  {
  }

  /** Every claimed position is in exactly one place, every other position in none. */
  ghost predicate Conserved(s: State) {
    && (forall p: nat :: Places(s, p) == if p < Claimed(s) then 1 else 0)
    && Claimed(s) == |s.received| + |s.buffer| + Holders(s.workers)
  }

  ghost predicate Genuine(s: State, item: Item) {
    && item.position < |s.ids| == |s.answers|
    && item.id == s.ids[item.position] && item.outcome == s.answers[item.position]
  }

  ghost predicate WorkerOk(s: State, w: Worker) {
    match w
    case Fetching(i) => i < |s.ids|
    case Sending(item) => Genuine(s, item)
    case Returned(dropped) =>
      (!s.cancelled ==> dropped == None) && (s.cancelled || s.next >= |s.ids|)
    case _ => true
  }

  ghost predicate Shape(s: State) {
    && |s.answers| == |s.ids|
    && s.capacity == |s.workers| == Min(BATCH_WORKERS, |s.ids|)
    && |s.buffer| <= s.capacity
    && s.running == Running(s.workers)
    && (s.closed ==> s.running == 0)
    && (forall w :: 0 <= w < |s.workers| ==> WorkerOk(s, s.workers[w]))
    && (forall i :: 0 <= i < |s.buffer| ==> Genuine(s, s.buffer[i]))
    && (forall i :: 0 <= i < |s.received| ==> Genuine(s, s.received[i]))
  }

  ghost predicate Inv(s: State) {
    Shape(s) && Conserved(s)
  }

  function Count(items: seq<Item>, p: nat): nat {
    multiset(Positions(items))[p]
  }

  lemma CountAppend(a: seq<Item>, b: seq<Item>, p: nat)
    ensures Count(a + b, p) == Count(a, p) + Count(b, p)
  {
    PositionsAppend(a, b);
  }

  lemma CountOne(item: Item, p: nat)
    ensures Count([item], p) == if item.position == p then 1 else 0
  {
    assert Positions([item]) == [item.position];
  }

  /** Receiving moves an item from the buffer to the consumer; only a send adds one. */
  lemma QueuesAfterStep(s: State, l: Step, p: nat)
    requires Can(s, l)
    ensures Queued(Do(s, l), p) == Queued(s, p) + if l.Send? && s.workers[l.w].item.position == p then 1 else 0
    ensures |Do(s, l).received| + |Do(s, l).buffer| == |s.received| + |s.buffer| + if l.Send? then 1 else 0
  {
    hide Count, Positions;
    if l.Send? {
      CountAppend(s.buffer, [s.workers[l.w].item], p);
      CountOne(s.workers[l.w].item, p);
    } else if l.Receive? {
      var first := [s.buffer[0]];
      assert s.buffer == first + s.buffer[1..];
      CountAppend(first, s.buffer[1..], p);
      CountAppend(s.received, first, p);
    }
  }

  lemma HoldersAfterStep(s: State, l: Step, p: nat)
    requires Can(s, l)
    ensures Moves(l) ==>
      && HoldersOf(Do(s, l).workers, p) + (if Held(s.workers[l.w]) == Some(p) then 1 else 0)
         == HoldersOf(s.workers, p) + (if Held(Do(s, l).workers[l.w]) == Some(p) then 1 else 0)
      && Holders(Do(s, l).workers) + (if Held(s.workers[l.w]).Some? then 1 else 0)
         == Holders(s.workers) + (if Held(Do(s, l).workers[l.w]).Some? then 1 else 0)
    ensures !Moves(l) ==> Do(s, l).workers == s.workers
  {
    if Moves(l) {
      var to := Do(s, l).workers[l.w];
      HoldersAfterMove(s.workers, l.w, to, p);
      assert Do(s, l).workers == s.workers[l.w := to];
    }
  }

  /** What the moving worker answers for before and after, and what it sends, accounts for the counter. */
  lemma ClaimsAfterStep(s: State, l: Step, p: nat)
    requires Can(s, l)
    ensures !Moves(l) ==> Claimed(Do(s, l)) == Claimed(s)
    ensures Moves(l) ==>
      var before, after := Held(s.workers[l.w]), Held(Do(s, l).workers[l.w]);
      && (if after == Some(p) then 1 else 0) + (if l.Send? && s.workers[l.w].item.position == p then 1 else 0)
           - (if before == Some(p) then 1 else 0)
         == (if p < Claimed(Do(s, l)) then 1 else 0) - (if p < Claimed(s) then 1 else 0)
      && (if after.Some? then 1 else 0) + (if l.Send? then 1 else 0) - (if before.Some? then 1 else 0)
         == Claimed(Do(s, l)) - Claimed(s)
  {
  }

  lemma StepKeepsPlaces(s: State, l: Step, p: nat)
    requires Inv(s) && Can(s, l)
    ensures Places(Do(s, l), p) == if p < Claimed(Do(s, l)) then 1 else 0
    ensures Claimed(Do(s, l)) == |Do(s, l).received| + |Do(s, l).buffer| + Holders(Do(s, l).workers)
  {
    assert Places(s, p) == if p < Claimed(s) then 1 else 0;
    QueuesAfterStep(s, l, p);
    HoldersAfterStep(s, l, p);
    ClaimsAfterStep(s, l, p);
    hide Do, Shape, Queued, HoldersOf, Holders, Claimed, Held;
  }

  lemma StepKeepsConserved(s: State, l: Step)
    requires Inv(s) && Can(s, l)
    ensures Conserved(Do(s, l))
  {
    StepKeepsPlaces(s, l, 0);
    forall p: nat ensures Places(Do(s, l), p) == if p < Claimed(Do(s, l)) then 1 else 0 {
      StepKeepsPlaces(s, l, p);
    }
  }

  lemma WorkerStaysOk(s: State, l: Step, w: Worker)
    requires Can(s, l) && |s.answers| == |s.ids| && WorkerOk(s, w)
    ensures WorkerOk(Do(s, l), w)
  {
  }

  lemma MoverOk(s: State, l: Step)
    requires Can(s, l) && Moves(l) && |s.answers| == |s.ids| && WorkerOk(s, s.workers[l.w])
    ensures WorkerOk(Do(s, l), Do(s, l).workers[l.w])
  {
  }

  lemma StepKeepsWorkersOk(s: State, l: Step)
    requires Shape(s) && Can(s, l)
    ensures forall w :: 0 <= w < |s.workers| ==> WorkerOk(Do(s, l), Do(s, l).workers[w])
  {
    forall w | 0 <= w < |s.workers| ensures WorkerOk(Do(s, l), Do(s, l).workers[w]) {
      assert WorkerOk(s, s.workers[w]);
      if Moves(l) && l.w == w {
        MoverOk(s, l);
      } else {
        WorkerStaysOk(s, l, s.workers[w]);
        hide WorkerOk, Shape;
      }
    }
  }

  lemma StepKeepsItemsGenuine(s: State, l: Step)
    requires Shape(s) && Can(s, l)
    ensures forall i :: 0 <= i < |Do(s, l).buffer| ==> Genuine(s, Do(s, l).buffer[i])
    ensures forall i :: 0 <= i < |Do(s, l).received| ==> Genuine(s, Do(s, l).received[i])
    ensures Do(s, l).ids == s.ids && Do(s, l).answers == s.answers && Do(s, l).capacity == s.capacity
  {
    if l.Send? {
      assert WorkerOk(s, s.workers[l.w]);
      assert Genuine(s, s.workers[l.w].item);
    }
    hide Running, Genuine, WorkerOk;
  }

  lemma StepKeepsCounts(s: State, l: Step)
    requires Shape(s) && Can(s, l)
    ensures Do(s, l).running == Running(Do(s, l).workers)
    ensures Moves(l) ==> s.running > 0
    ensures |Do(s, l).workers| == |s.workers| && |Do(s, l).buffer| <= s.capacity
  {
    if Moves(l) {
      var to := Do(s, l).workers[l.w];
      RunningAfterMove(s.workers, l.w, to);
      RunningPositive(s.workers, l.w);
      assert Do(s, l).workers == s.workers[l.w := to];
    }
    hide Running, WorkerOk, Genuine;
  }

  lemma StepKeepsShape(s: State, l: Step)
    requires Inv(s) && Can(s, l)
    ensures Shape(Do(s, l))
  {
    StepKeepsWorkersOk(s, l);
    StepKeepsItemsGenuine(s, l);
    StepKeepsCounts(s, l);
    hide Running, WorkerOk, Conserved, Do;
  }

  lemma StartInv(ids: seq<int>, answers: seq<Outcome>)
    requires |answers| == |ids|
    ensures Inv(Start(ids, answers))
  {
    var s := Start(ids, answers);
    AllRunning(|s.workers|);
    NobodyHolds(s.workers, 0);
    forall p: nat ensures Places(s, p) == 0 {
      NobodyHolds(s.workers, p);
    }
  }

  lemma {:induction false} AllRunning(n: nat)
    ensures Running(seq(n, _ => Checking)) == n
    decreases n
  {
    if n > 0 {
      AllRunning(n - 1);
      assert seq(n, _ => Checking)[1..] == seq(n - 1, _ => Checking);
    }
  }

  lemma {:induction false} RunKeepsInv(s: State, ls: seq<Step>)
    requires Inv(s) && Legal(s, ls)
    ensures Inv(Exec(s, ls))
    ensures Exec(s, ls).ids == s.ids && Exec(s, ls).answers == s.answers
    decreases |ls|
  {
    if ls != [] {
      StepKeepsConserved(s, ls[0]);
      StepKeepsShape(s, ls[0]);
      hide Shape, Conserved;
      RunKeepsInv(Do(s, ls[0]), ls[1..]);
    }
  }

  ghost predicate Reaches(ids: seq<int>, answers: seq<Outcome>, ls: seq<Step>, s: State) {
    |answers| == |ids| && Legal(Start(ids, answers), ls) && s == Exec(Start(ids, answers), ls)
  }

  lemma ReachableInv(ids: seq<int>, answers: seq<Outcome>, ls: seq<Step>, s: State)
    requires Reaches(ids, answers, ls, s)
    ensures Inv(s) && s.ids == ids && s.answers == answers
  {
    StartInv(ids, answers);
    RunKeepsInv(Start(ids, answers), ls);
  }

  // ---------- delivery ----------

  function Ids(items: seq<Item>): seq<int> {
    seq(|items|, i requires 0 <= i < |items| => items[i].id)
  }

  ghost predicate AllPositions(ids: seq<int>, positions: seq<nat>) {
    forall i :: 0 <= i < |positions| ==> positions[i] < |ids|
  }

  ghost function At(ids: seq<int>, positions: seq<nat>): seq<int>
    requires AllPositions(ids, positions)
  {
    seq(|positions|, i requires 0 <= i < |positions| => ids[positions[i]])
  }

  function Upto(n: nat): seq<nat> {
    seq(n, i => i)
  }

  lemma {:induction false} UptoOnce(n: nat, p: nat)
    ensures multiset(Upto(n))[p] == if p < n then 1 else 0
    decreases n
  {
    if n > 0 {
      UptoOnce(n - 1, p);
      assert Upto(n) == Upto(n - 1) + [n - 1];
    }
  }

  lemma RemoveAt<T>(b: seq<T>, k: nat)
    requires k < |b|
    ensures multiset(b) == multiset(b[..k] + b[k + 1..]) + multiset{b[k]}
  {
    assert b == b[..k] + [b[k]] + b[k + 1..];
  }

  lemma AtRemoveAt(ids: seq<int>, b: seq<nat>, k: nat)
    requires k < |b| && AllPositions(ids, b)
    ensures AllPositions(ids, b[..k] + b[k + 1..])
    ensures multiset(At(ids, b)) == multiset(At(ids, b[..k] + b[k + 1..])) + multiset{ids[b[k]]}
  {
    RemoveAt(At(ids, b), k);
    assert At(ids, b)[..k] + At(ids, b)[k + 1..] == At(ids, b[..k] + b[k + 1..]);
  }

  /** The first of one arrangement is somewhere in the other; without it they are still arrangements of each other. */
  lemma SameRest<T>(a: seq<T>, b: seq<T>) returns (k: nat)
    requires a != [] && multiset(a) == multiset(b)
    ensures k < |b| && b[k] == a[0]
    ensures multiset(a[..0] + a[1..]) == multiset(b[..k] + b[k + 1..])
  {
    assert a[0] in multiset(b);
    k :| 0 <= k < |b| && b[k] == a[0];
    RemoveAt(a, 0);
    RemoveAt(b, k);
    assert multiset(a[..0] + a[1..]) == multiset(a) - multiset{a[0]};
    assert multiset(b[..k] + b[k + 1..]) == multiset(b) - multiset{a[0]};
  }

  /** Reading ids at two arrangements of the same positions gives two arrangements of the same ids. */
  lemma {:induction false} SamePositionsSameIds(ids: seq<int>, a: seq<nat>, b: seq<nat>)
    requires AllPositions(ids, a) && AllPositions(ids, b)
    requires multiset(a) == multiset(b)
    ensures multiset(At(ids, a)) == multiset(At(ids, b))
    decreases |a|
  {
    hide At, AllPositions;
    if a == [] {
      assert |multiset(b)| == 0;
      assert a == b;
    } else {
      var k := SameRest(a, b);
      AtRemoveAt(ids, a, 0);
      AtRemoveAt(ids, b, k);
      SamePositionsSameIds(ids, a[..0] + a[1..], b[..k] + b[k + 1..]);
    }
  }

  /**
   * With the context active, a drained and closed pool delivered exactly one result for every
   * input occurrence: each position once, and hence the very multiset of IDs, duplicates kept.
   */
  lemma EveryOccurrenceDelivered(ids: seq<int>, answers: seq<Outcome>, ls: seq<Step>, s: State)
    requires Reaches(ids, answers, ls, s) && !s.cancelled && s.closed && s.buffer == []
    ensures multiset(Positions(s.received)) == multiset(Upto(|ids|))
    ensures multiset(Ids(s.received)) == multiset(ids)
    ensures |s.received| == |ids|
  {
    ReachableInv(ids, answers, ls, s);
    forall w | 0 <= w < |s.workers| ensures s.workers[w] == Returned(None) && s.next >= |ids| {
      if !s.workers[w].Returned? {
        RunningPositive(s.workers, w);
      }
      assert WorkerOk(s, s.workers[w]);
    }
    if |ids| > 0 {
      assert WorkerOk(s, s.workers[0]);
    }
    assert Claimed(s) == |ids|;
    NobodyHolds(s.workers, 0);
    var got: seq<nat>, all: seq<nat> := Positions(s.received), Upto(|ids|);
    forall p: nat ensures multiset(got)[p] == multiset(all)[p] {
      NobodyHolds(s.workers, p);
      UptoOnce(|ids|, p);
      assert Places(s, p) == if p < |ids| then 1 else 0;
    }
    SamePositionsSameIds(ids, all, got);
    assert At(ids, all) == ids;
    assert At(ids, got) == Ids(s.received);
  }

  lemma TwiceInSeq(s: seq<nat>, i: nat, j: nat)
    requires i < j < |s| && s[i] == s[j]
    ensures multiset(s)[s[i]] >= 2
  {
    assert s == s[..j] + [s[j]] + s[j + 1..];
    assert s[i] in s[..j];
  }

  /** Cancelled or not: no position is fetched or delivered twice, and each result carries the ID and the answer of its position. */
  lemma NothingTwice(ids: seq<int>, answers: seq<Outcome>, ls: seq<Step>, s: State)
    requires Reaches(ids, answers, ls, s)
    ensures forall i, j :: 0 <= i < j < |s.received| ==> s.received[i].position != s.received[j].position
    ensures forall v, w :: 0 <= v < w < |s.workers| && Held(s.workers[v]).Some? ==> Held(s.workers[v]) != Held(s.workers[w])
    ensures forall i, w :: 0 <= i < |s.received| && 0 <= w < |s.workers| ==> Held(s.workers[w]) != Some(s.received[i].position)
    ensures forall i :: 0 <= i < |s.received| ==> Genuine(s, s.received[i])
    ensures s.ids == ids && s.answers == answers
  {
    ReachableInv(ids, answers, ls, s);
    var got := Positions(s.received);
    forall i, j | 0 <= i < j < |got| ensures got[i] != got[j] {
      assert Places(s, got[i]) <= 1;
      if got[i] == got[j] {
        TwiceInSeq(got, i, j);
      }
    }
    forall v, w | 0 <= v < w < |s.workers| && Held(s.workers[v]).Some? ensures Held(s.workers[v]) != Held(s.workers[w]) {
      var p := Held(s.workers[v]).value;
      assert Places(s, p) <= 1;
      if Held(s.workers[w]) == Some(p) {
        TwoHoldersCount(s.workers, v, w, p);
      }
    }
    forall i, w | 0 <= i < |got| && 0 <= w < |s.workers| ensures Held(s.workers[w]) != Some(got[i]) {
      assert Places(s, got[i]) <= 1;
      assert got[i] in multiset(got);
      if Held(s.workers[w]) == Some(got[i]) {
        HolderCounts(s.workers, w, got[i]);
      }
    }
    assert forall i :: 0 <= i < |s.received| ==> got[i] == s.received[i].position;
  }

  /** At most two results per worker are ever claimed and not yet received, so an abandoned batch does bounded work. */
  lemma ClaimsTrackReceipts(ids: seq<int>, answers: seq<Outcome>, ls: seq<Step>, s: State)
    requires Reaches(ids, answers, ls, s)
    ensures |s.received| <= Claimed(s) <= |s.received| + 2 * |s.workers|
    ensures |s.workers| <= BATCH_WORKERS && |s.buffer| <= |s.workers|
  {
    ReachableInv(ids, answers, ls, s);
    HoldersBound(s.workers);
  }

  // ---------- closing ----------

  /** The channel is closed at most once, never while a worker runs, and nothing is sent after it. */
  lemma ClosedForGood(ids: seq<int>, answers: seq<Outcome>, ls: seq<Step>, s: State, l: Step)
    requires Reaches(ids, answers, ls, s) && s.closed && Can(s, l)
    ensures l.Receive? || l.Cancel?
    ensures Do(s, l).closed
  {
    ReachableInv(ids, answers, ls, s);
    if Moves(l) {
      RunningPositive(s.workers, l.w);
    }
  }

  // ---------- progress ----------

  function Rank(w: Worker): nat {
    match w
    case Returned(_) => 0
    case Claiming => 1
    case Checking => 2
    case Sending(_) => 4
    case Fetching(_) => 5
  }

  function Ranks(workers: seq<Worker>): nat {
    if workers == [] then 0 else Ranks(workers[1..]) + Rank(workers[0])
  }

  lemma {:induction false} RanksAfterMove(workers: seq<Worker>, w: nat, to: Worker)
    requires w < |workers|
    ensures Ranks(workers[w := to]) + Rank(workers[w]) == Ranks(workers) + Rank(to)
    decreases |workers|
  {
    if w == 0 {
      assert workers[w := to][1..] == workers[1..];
    } else {
      RanksAfterMove(workers[1..], w - 1, to);
      assert workers[w := to][1..] == workers[1..][w - 1 := to];
    }
  }

  /** What is left to do: unclaimed positions, worker program counters, buffered results, and the two one-off steps. */
  function Work(s: State): nat {
    5 * (|s.ids| - Claimed(s)) + Ranks(s.workers) + |s.buffer|
      + (if s.closed then 0 else 1) + (if s.cancelled then 0 else 1)
  }

  lemma EveryStepWorks(s: State, l: Step)
    requires Can(s, l)
    ensures Work(Do(s, l)) < Work(s)
  {
    if Moves(l) {
      RanksAfterMove(s.workers, l.w, Do(s, l).workers[l.w]);
    }
  }

  lemma {:induction false} RanksAtStart(n: nat)
    ensures Ranks(seq(n, _ => Checking)) == 2 * n
    decreases n
  {
    if n > 0 {
      RanksAtStart(n - 1);
      assert seq(n, _ => Checking)[1..] == seq(n - 1, _ => Checking);
    }
  }

  lemma {:induction false} RunsFitTheirWork(s: State, ls: seq<Step>)
    requires Legal(s, ls)
    ensures |ls| + Work(Exec(s, ls)) <= Work(s)
    decreases |ls|
  {
    if ls != [] {
      EveryStepWorks(s, ls[0]);
      hide Work;
      RunsFitTheirWork(Do(s, ls[0]), ls[1..]);
    }
  }

  /** No run is longer than 5 steps per input and 2 per worker, plus the close and a cancellation. */
  lemma RunsAreBounded(ids: seq<int>, answers: seq<Outcome>, ls: seq<Step>)
    requires |answers| == |ids| && Legal(Start(ids, answers), ls)
    ensures |ls| <= 5 * |ids| + 2 * Min(BATCH_WORKERS, |ids|) + 2
  {
    RanksAtStart(Min(BATCH_WORKERS, |ids|));
    RunsFitTheirWork(Start(ids, answers), ls);
  }

  /** The pool has nothing left to do: its channel is closed and drained. */
  predicate Finished(s: State) {
    s.closed && s.buffer == []
  }

  /**
   * Until it is finished, the pool or its consumer can move: no reachable state is stuck. When the
   * consumer has stopped receiving, cancelling is enough to keep the workers and the closer moving.
   */
  lemma NeverStuck(ids: seq<int>, answers: seq<Outcome>, ls: seq<Step>, s: State) returns (l: Step)
    requires Reaches(ids, answers, ls, s) && !Finished(s)
    ensures Can(s, l) && !l.Cancel?
    ensures s.cancelled && !s.closed ==> !l.Receive?
  {
    ReachableInv(ids, answers, ls, s);
    if s.closed {
      return Receive;
    }
    if s.running == 0 {
      return Close;
    }
    var w := SomebodyRuns(s.workers);
    assert WorkerOk(s, s.workers[w]);
    match s.workers[w] {
      case Checking => return CheckContext(w);
      case Claiming => return Claim(w);
      case Fetching(_) => return Fetched(w);
      case Sending(_) =>
        if s.cancelled {
          return GiveUp(w);
        }
        return if s.buffer == [] then Send(w) else Receive;
      case Returned(_) => assert false;
    }
  }

  /**
   * Every run goes on until the channel is closed and drained; one that was never cancelled has then
   * delivered every input occurrence.
   */
  lemma RunsEndDelivered(ids: seq<int>, answers: seq<Outcome>, ls: seq<Step>, s: State)
    requires Reaches(ids, answers, ls, s)
    requires forall l: Step :: Can(s, l) ==> l.Cancel?
    ensures Finished(s)
    ensures !s.cancelled ==> multiset(Ids(s.received)) == multiset(ids)
  {
    if !Finished(s) {
      var l := NeverStuck(ids, answers, ls, s);
      assert false;
    }
    if !s.cancelled {
      EveryOccurrenceDelivered(ids, answers, ls, s);
    }
  }

  // ---------- work after cancellation ----------

  function ClaimsBy(ls: seq<Step>, w: nat): nat {
    if ls == [] then 0 else (if ls[0] == Claim(w) then 1 else 0) + ClaimsBy(ls[1..], w)
  }

  lemma {:induction false} ClaimsAfterCancel(s: State, ls: seq<Step>, w: nat)
    requires s.cancelled && w < |s.workers| && Legal(s, ls)
    ensures ClaimsBy(ls, w) <= if s.workers[w].Claiming? then 1 else 0
    decreases |ls|
  {
    if ls != [] {
      ClaimsAfterCancel(Do(s, ls[0]), ls[1..], w);
    }
  }

  /** Once cancelled, each worker takes at most the one position it had already decided to take. */
  lemma CancellationStopsDispatch(ids: seq<int>, answers: seq<Outcome>, before: seq<Step>, s: State, after: seq<Step>, w: nat)
    requires Reaches(ids, answers, before, s) && s.cancelled && w < |s.workers| && Legal(s, after)
    ensures ClaimsBy(after, w) <= 1
    ensures Exec(s, after).next <= s.next + |s.workers|
  {
    ClaimsAfterCancel(s, after, w);
    NextAfterCancel(s, after);
    ClaimersSize(s.workers);
  }

  function Claimers(workers: seq<Worker>): nat {
    if workers == [] then 0 else Claimers(workers[1..]) + if workers[0].Claiming? then 1 else 0
  }

  lemma {:induction false} ClaimersSize(workers: seq<Worker>)
    ensures Claimers(workers) <= |workers|
    decreases |workers|
  {
    if workers != [] {
      ClaimersSize(workers[1..]);
    }
  }

  lemma {:induction false} ClaimersAfterMove(workers: seq<Worker>, w: nat, to: Worker)
    requires w < |workers|
    ensures Claimers(workers[w := to]) + (if workers[w].Claiming? then 1 else 0)
         == Claimers(workers) + (if to.Claiming? then 1 else 0)
    decreases |workers|
  {
    if w == 0 {
      assert workers[w := to][1..] == workers[1..];
    } else {
      ClaimersAfterMove(workers[1..], w - 1, to);
      assert workers[w := to][1..] == workers[1..][w - 1 := to];
    }
  }

  lemma {:induction false} NextAfterCancel(s: State, ls: seq<Step>)
    requires s.cancelled && Legal(s, ls)
    ensures Exec(s, ls).next + Claimers(Exec(s, ls).workers) <= s.next + Claimers(s.workers)
    decreases |ls|
  {
    if ls != [] {
      var l, t := ls[0], Do(s, ls[0]);
      if Moves(l) {
        ClaimersAfterMove(s.workers, l.w, t.workers[l.w]);
      }
      NextAfterCancel(t, ls[1..]);
    }
  }
}
