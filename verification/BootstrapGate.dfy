/**
 * Concurrent calls of bootstrapSection (endpoints/bootstrap.go:282-361): a cached read, the
 * process-wide one-slot gate, a second read, one fetch, and the warming of every section.
 * Callers may use different stores; entries may expire or be deleted by others at any moment.
 */
module BootstrapGate {
  import opened Wrappers
  import opened CachePolicy
  import opened Counting

  type StoreId = nat

  /** A decoded response, for which store, with the sections its payload contained, and when it arrived. */
  datatype Response = Response(store: StoreId, sections: set<Section>, received: int)

  /** A cached section: the response it was taken from, when it was stored, and the last instant it is served. */
  datatype Cell = Cell(response: nat, storedAt: int, expiration: int)

  datatype Slot = Slot(store: StoreId, section: Section)

  /** For the record only: when a value read from the store was stored, and when it was read. */
  datatype Lease = Lease(storedAt: int, readAt: int)

  /** The response a value comes from, and its lease if it was read from the store rather than fetched. */
  datatype Outcome = Value(response: nat, lease: Option<Lease>) | Error

  /**
   * FirstRead, Queued (in the gate's select), SecondRead, Missed (about to fetch; `unreadable` if the
   * second read failed rather than found nothing), Fetching, Storing (number of sections handled),
   * Leaving (deferred release pending), Returned.
   */
  datatype Phase =
    | FirstRead
    | Queued
    | SecondRead
    | Missed(unreadable: bool)
    | Fetching(unreadable: bool)
    | Storing(response: nat, handled: nat)
    | Leaving(outcome: Outcome)
    | Returned(outcome: Outcome)

  datatype Caller = Caller(store: StoreId, wanted: Section, cancelled: bool, phase: Phase) {
    function Wants(): Slot {
      Slot(store, wanted)
    }
  }

  /** gate is the number of tokens in the channel; completed the store of every fetch that returned a value. */
  datatype State = State(
    clock: int, gate: nat, cells: map<Slot, Cell>, callers: seq<Caller>,
    responses: seq<Response>, completed: seq<StoreId>)

  datatype Step =
    | Tick(to: int)
    | Drop(slot: Slot)
    | CancelContext(c: nat)
    | Read(c: nat, readable: bool)
    | Acquire(c: nat)
    | LeaveQueue(c: nat)
    | StartFetch(c: nat)
    | FetchFails(c: nat)
    | FetchReturns(c: nat, sections: set<Section>)
    | Store(c: nat, written: bool)
    | Finish(c: nat)
    | Release(c: nat)

  datatype Request = Request(store: StoreId, wanted: Section)

  function Start(now: int, requests: seq<Request>): State {
    State(now, 0, map[],
          seq(|requests|, i requires 0 <= i < |requests| => Caller(requests[i].store, requests[i].wanted, false, FirstRead)),
          [], [])
  }

  predicate Live(s: State, slot: Slot) {
    slot in s.cells && s.clock <= s.cells[slot].expiration
  }

  predicate Can(s: State, l: Step) {
    match l
    case Tick(to) => s.clock <= to
    case Drop(slot) => true
    case CancelContext(c) => c < |s.callers|
    case Read(c, _) => c < |s.callers| && (s.callers[c].phase.FirstRead? || s.callers[c].phase.SecondRead?)
    case Acquire(c) => c < |s.callers| && s.callers[c].phase.Queued? && s.gate < 1
    case LeaveQueue(c) => c < |s.callers| && s.callers[c].phase.Queued? && s.callers[c].cancelled
    case StartFetch(c) => c < |s.callers| && s.callers[c].phase.Missed?
    case FetchFails(c) => c < |s.callers| && s.callers[c].phase.Fetching?
    case FetchReturns(c, _) => c < |s.callers| && s.callers[c].phase.Fetching?
    case Store(c, written) =>
      && c < |s.callers| && s.callers[c].phase.Storing?
      && s.callers[c].phase.handled < |WARMING_ORDER| && s.callers[c].phase.response < |s.responses|
    case Finish(c) => c < |s.callers| && s.callers[c].phase.Storing? && s.callers[c].phase.handled >= |WARMING_ORDER|
    case Release(c) => c < |s.callers| && s.callers[c].phase.Leaving?
  }

  function Move(s: State, c: nat, to: Phase): State
    requires c < |s.callers|
  {
    s.(callers := s.callers[c := s.callers[c].(phase := to)])
  }

  /** Where a read leaves its caller: the first read has no gate to release. */
  function AfterRead(s: State, caller: Caller, readable: bool): Phase {
    if caller.cancelled then (if caller.phase.FirstRead? then Returned(Error) else Leaving(Error))
    else if Live(s, caller.Wants()) && readable then
      var cell := s.cells[caller.Wants()];
      var v := Value(cell.response, Some(Lease(cell.storedAt, s.clock)));
      if caller.phase.FirstRead? then Returned(v) else Leaving(v)
    else if caller.phase.FirstRead? then Queued
    else Missed(Live(s, caller.Wants()))
  }

  /** One round of the warming loop; `written` is whether the store accepted the write. */
  function AfterStore(s: State, c: nat, written: bool): State
    requires Can(s, Store(c, written))
  {
    var caller := s.callers[c];
    var section := WARMING_ORDER[caller.phase.handled];
    if section !in s.responses[caller.phase.response].sections then
      Move(s, c, Storing(caller.phase.response, caller.phase.handled + 1))
    else
      var t := if written
               then s.(cells := s.cells[Slot(caller.store, section) :=
                                        Cell(caller.phase.response, s.clock, s.clock + SectionTtl(section))])
               else s;
      Move(t, c, if caller.cancelled then Leaving(Error) else Storing(caller.phase.response, caller.phase.handled + 1))
  }

  function Do(s: State, l: Step): State
    requires Can(s, l)
  {
    match l
    case Tick(to) => s.(clock := to)
    case Drop(slot) => s.(cells := s.cells - {slot})
    case CancelContext(c) => s.(callers := s.callers[c := s.callers[c].(cancelled := true)])
    case Read(c, readable) => Move(s, c, AfterRead(s, s.callers[c], readable))
    case Acquire(c) => Move(s, c, SecondRead).(gate := s.gate + 1)
    case LeaveQueue(c) => Move(s, c, Returned(Error))
    case StartFetch(c) => Move(s, c, Fetching(s.callers[c].phase.unreadable))
    case FetchFails(c) => Move(s, c, Leaving(Error))
    case FetchReturns(c, sections) =>
      Move(s, c, if s.callers[c].wanted in sections then Storing(|s.responses|, 0) else Leaving(Error))
        .(responses := s.responses + [Response(s.callers[c].store, sections, s.clock)])
    case Store(c, written) => AfterStore(s, c, written)
    case Finish(c) =>
      Move(s, c, Leaving(Value(s.callers[c].phase.response, None))).(completed := s.completed + [s.callers[c].store])
    case Release(c) =>
      Move(s, c, Returned(s.callers[c].phase.outcome)).(gate := if s.gate > 0 then s.gate - 1 else 0)
  }

  predicate Legal(s: State, ls: seq<Step>)
    decreases |ls|
  {
    ls == [] || (Can(s, ls[0]) && Legal(Do(s, ls[0]), ls[1..]))
  }

  function Exec(s: State, ls: seq<Step>): State
    requires Legal(s, ls)
    decreases |ls|
  {
    if ls == [] then s else Exec(Do(s, ls[0]), ls[1..])
  }

  // ---------- the gate ----------

  /** Past the acquisition and not yet through the deferred release. */
  predicate Inside(caller: Caller) {
    caller.phase.SecondRead? || caller.phase.Missed? || caller.phase.Fetching? || caller.phase.Storing? || caller.phase.Leaving?
  }

  function CountInside(callers: seq<Caller>): nat {
    if callers == [] then 0 else CountInside(callers[1..]) + if Inside(callers[0]) then 1 else 0
  }

  lemma {:induction false} InsideAfterMove(callers: seq<Caller>, c: nat, to: Caller)
    requires c < |callers|
    ensures CountInside(callers[c := to]) + (if Inside(callers[c]) then 1 else 0)
         == CountInside(callers) + (if Inside(to) then 1 else 0)
    decreases |callers|
  {
    if c == 0 {
      assert callers[c := to][1..] == callers[1..];
    } else {
      InsideAfterMove(callers[1..], c - 1, to);
      assert callers[c := to][1..] == callers[1..][c - 1 := to];
    }
  }

  lemma {:induction false} CountCovers(callers: seq<Caller>, c: nat)
    requires c < |callers| && Inside(callers[c])
    ensures CountInside(callers) >= 1
    ensures forall d :: 0 <= d < |callers| && d != c && Inside(callers[d]) ==> CountInside(callers) >= 2
    decreases |callers|
  {
    if c == 0 {
      forall d | 1 <= d < |callers| && Inside(callers[d]) ensures CountInside(callers[1..]) >= 1 {
        CountCovers(callers[1..], d - 1);
      }
    } else {
      CountCovers(callers[1..], c - 1);
      forall d | 0 <= d < |callers| && d != c && Inside(callers[d]) ensures CountInside(callers) >= 2 {
        assert d > 0 ==> callers[d] == callers[1..][d - 1];
      }
    }
  }

  lemma {:induction false} NobodyInside(callers: seq<Caller>)
    requires forall c :: 0 <= c < |callers| ==> !Inside(callers[c])
    ensures CountInside(callers) == 0
    decreases |callers|
  {
    if callers != [] {
      NobodyInside(callers[1..]);
    }
  }

  lemma {:induction false} SomebodyInside(callers: seq<Caller>) returns (c: nat)
    requires CountInside(callers) > 0
    ensures c < |callers| && Inside(callers[c])
    decreases |callers|
  {
    if Inside(callers[0]) {
      return 0;
    }
    c := SomebodyInside(callers[1..]);
    c := c + 1;
  }

  ghost predicate GateInv(s: State) {
    s.gate == CountInside(s.callers) <= 1
  }

  /** The caller a step belongs to. */
  function Actor(l: Step): Option<nat> {
    match l
    case Tick(_) => None
    case Drop(_) => None
    case CancelContext(c) => Some(c)
    case Read(c, _) => Some(c)
    case Acquire(c) => Some(c)
    case LeaveQueue(c) => Some(c)
    case StartFetch(c) => Some(c)
    case FetchFails(c) => Some(c)
    case FetchReturns(c, _) => Some(c)
    case Store(c, _) => Some(c)
    case Finish(c) => Some(c)
    case Release(c) => Some(c)
  }

  lemma StepKeepsOthers(s: State, l: Step)
    requires Can(s, l)
    ensures Actor(l) == None ==> Do(s, l).callers == s.callers
    ensures Actor(l).Some? ==> Actor(l).value < |s.callers| == |Do(s, l).callers|
    ensures Actor(l).Some? ==> Do(s, l).callers == s.callers[Actor(l).value := Do(s, l).callers[Actor(l).value]]
    ensures forall c :: 0 <= c < |s.callers| ==>
      Do(s, l).callers[c].store == s.callers[c].store && Do(s, l).callers[c].wanted == s.callers[c].wanted
  {
  }

  lemma StepKeepsGate(s: State, l: Step)
    requires GateInv(s) && Can(s, l)
    ensures GateInv(Do(s, l))
  {
    StepKeepsOthers(s, l);
    if Actor(l).Some? {
      var c := Actor(l).value;
      InsideAfterMove(s.callers, c, Do(s, l).callers[c]);
      if Inside(s.callers[c]) {
        CountCovers(s.callers, c);
      }
    }
    hide CountInside;
  }

  // ---------- where values come from ----------

  ghost predicate OutcomeOk(s: State, caller: Caller, o: Outcome) {
    o.Value? ==>
      && o.response < |s.responses| && s.responses[o.response].store == caller.store
      && caller.wanted in s.responses[o.response].sections
      && s.responses[o.response].received <= s.clock
      && (o.lease.Some? ==>
            && s.responses[o.response].received <= o.lease.value.storedAt <= o.lease.value.readAt <= s.clock
            && o.lease.value.readAt <= o.lease.value.storedAt + SectionTtl(caller.wanted))
  }

  ghost predicate CallerOk(s: State, caller: Caller) {
    match caller.phase
    case Storing(response, handled) => handled <= |WARMING_ORDER| && OutcomeOk(s, caller, Value(response, None))
    case Leaving(o) => OutcomeOk(s, caller, o)
    case Returned(o) => OutcomeOk(s, caller, o)
    case _ => true
  }

  ghost predicate CellOk(s: State, slot: Slot, cell: Cell) {
    && cell.response < |s.responses| && s.responses[cell.response].store == slot.store
    && slot.section in s.responses[cell.response].sections
    && s.responses[cell.response].received <= cell.storedAt <= s.clock
    && cell.expiration == cell.storedAt + SectionTtl(slot.section)
  }

  ghost predicate StoredOk(s: State) {
    && (forall slot <- s.cells :: CellOk(s, slot, s.cells[slot]))
    && (forall c :: 0 <= c < |s.callers| ==> CallerOk(s, s.callers[c]))
  }

  lemma StepKeepsCells(s: State, l: Step)
    requires StoredOk(s) && Can(s, l)
    ensures forall slot <- Do(s, l).cells :: CellOk(Do(s, l), slot, Do(s, l).cells[slot])
  {
  }

  lemma CallerStaysOk(s: State, l: Step, caller: Caller)
    requires Can(s, l) && CallerOk(s, caller)
    ensures CallerOk(Do(s, l), caller)
    ensures CallerOk(Do(s, l), caller.(cancelled := true))
  {
  }

  lemma ActorStaysOk(s: State, l: Step)
    requires StoredOk(s) && Can(s, l) && Actor(l).Some?
    ensures CallerOk(Do(s, l), Do(s, l).callers[Actor(l).value])
  {
  }

  lemma StepKeepsCallers(s: State, l: Step)
    requires StoredOk(s) && Can(s, l)
    ensures forall c :: 0 <= c < |Do(s, l).callers| ==> CallerOk(Do(s, l), Do(s, l).callers[c])
  {
    StepKeepsOthers(s, l);
    if Actor(l).Some? {
      ActorStaysOk(s, l);
    }
    forall c | 0 <= c < |s.callers| ensures CallerOk(Do(s, l), Do(s, l).callers[c]) {
      CallerStaysOk(s, l, s.callers[c]);
      hide Do, CallerOk;
    }
  }

  // ---------- single flight ----------

  /** Past a miss, about to fetch or fetching. */
  predicate Flying(p: Phase) {
    p.Missed? || p.Fetching?
  }

  /** A flying caller's slot is not served, unless its second read could not read it. */
  ghost predicate FlightsJustified(s: State) {
    forall c :: 0 <= c < |s.callers| && Flying(s.callers[c].phase) && !s.callers[c].phase.unreadable ==>
      !Live(s, s.callers[c].Wants())
  }

  /** Only a Store can make a slot served that was not. */
  lemma StaysUnserved(s: State, l: Step, slot: Slot)
    requires Can(s, l) && !l.Store? && !Live(s, slot)
    ensures !Live(Do(s, l), slot)
  {
  }

  lemma StepKeepsFlights(s: State, l: Step)
    requires GateInv(s) && FlightsJustified(s) && Can(s, l)
    ensures FlightsJustified(Do(s, l))
  {
    var t := Do(s, l);
    StepKeepsOthers(s, l);
    forall c | 0 <= c < |t.callers| && Flying(t.callers[c].phase) && !t.callers[c].phase.unreadable
      ensures !Live(t, t.callers[c].Wants())
    {
      if l.Store? {
        CountCovers(s.callers, l.c);
      } else if !Live(s, s.callers[c].Wants()) {
        StaysUnserved(s, l, s.callers[c].Wants());
      }
    }
  }

  ghost predicate Inv(s: State) {
    GateInv(s) && StoredOk(s) && FlightsJustified(s)
  }

  lemma StepKeepsInv(s: State, l: Step)
    requires Inv(s) && Can(s, l)
    ensures Inv(Do(s, l))
  {
    StepKeepsGate(s, l);
    StepKeepsCells(s, l);
    StepKeepsCallers(s, l);
    StepKeepsFlights(s, l);
    hide Do;
  }

  lemma {:induction false} RunKeepsInv(s: State, ls: seq<Step>)
    requires Inv(s) && Legal(s, ls)
    ensures Inv(Exec(s, ls))
    decreases |ls|
  {
    if ls != [] {
      StepKeepsInv(s, ls[0]);
      hide Do, GateInv, StoredOk, FlightsJustified;
      RunKeepsInv(Do(s, ls[0]), ls[1..]);
    }
  }

  ghost predicate Reaches(now: int, requests: seq<Request>, ls: seq<Step>, s: State) {
    Legal(Start(now, requests), ls) && s == Exec(Start(now, requests), ls)
  }

  lemma StartInv(now: int, requests: seq<Request>)
    ensures Inv(Start(now, requests))
  {
    NobodyInside(Start(now, requests).callers);
  }

  lemma ReachableInv(now: int, requests: seq<Request>, ls: seq<Step>, s: State)
    requires Reaches(now, requests, ls, s)
    ensures Inv(s)
  {
    StartInv(now, requests);
    RunKeepsInv(Start(now, requests), ls);
  }

  /** At most one caller is past the gate, and the channel holds exactly one token for it; with everybody back it is empty. */
  lemma GateHoldsOne(now: int, requests: seq<Request>, ls: seq<Step>, s: State)
    requires Reaches(now, requests, ls, s)
    ensures s.gate == CountInside(s.callers) <= 1
    ensures forall c, d :: 0 <= c < d < |s.callers| && Inside(s.callers[c]) ==> !Inside(s.callers[d])
    ensures (forall c :: 0 <= c < |s.callers| ==> s.callers[c].phase.Returned?) ==> s.gate == 0
  {
    ReachableInv(now, requests, ls, s);
    forall c, d | 0 <= c < d < |s.callers| && Inside(s.callers[c]) ensures !Inside(s.callers[d]) {
      CountCovers(s.callers, c);
    }
    if forall c :: 0 <= c < |s.callers| ==> s.callers[c].phase.Returned? {
      NobodyInside(s.callers);
    }
  }

  /** No cancellation strands the gate: while a call is open, some caller's own step is enabled. */
  lemma NeverStranded(now: int, requests: seq<Request>, ls: seq<Step>, s: State, open: nat) returns (l: Step)
    requires Reaches(now, requests, ls, s)
    requires open < |s.callers| && !s.callers[open].phase.Returned?
    ensures Can(s, l) && Actor(l).Some? && !l.CancelContext?
  {
    ReachableInv(now, requests, ls, s);
    var c := open;
    if s.callers[open].phase.Queued? {
      if s.gate == 0 {
        return Acquire(open);
      }
      c := SomebodyInside(s.callers);
    }
    assert CallerOk(s, s.callers[c]);
    match s.callers[c].phase {
      case FirstRead => return Read(c, true);
      case SecondRead => return Read(c, true);
      case Missed(_) => return StartFetch(c);
      case Fetching(_) => return FetchFails(c);
      case Storing(_, handled) => return if handled < |WARMING_ORDER| then Store(c, true) else Finish(c);
      case Leaving(_) => return Release(c);
      case Queued => assert false;
      case Returned(_) => assert false;
    }
  }

  /** An upper bound on the steps a caller still takes itself. */
  function Rank(p: Phase): nat {
    match p
    case FirstRead => 11
    case Queued => 10
    case SecondRead => 9
    case Missed(_) => 8
    case Fetching(_) => 7
    case Storing(_, handled) => if handled < |WARMING_ORDER| then 2 + |WARMING_ORDER| - handled else 2
    case Leaving(_) => 1
    case Returned(_) => 0
  }

  predicate OwnStep(l: Step, c: nat) {
    Actor(l) == Some(c) && !l.CancelContext?
  }

  function OwnSteps(ls: seq<Step>, c: nat): nat {
    if ls == [] then 0 else (if OwnStep(ls[0], c) then 1 else 0) + OwnSteps(ls[1..], c)
  }

  lemma OwnStepsLowerRank(s: State, l: Step, c: nat)
    requires Can(s, l) && c < |s.callers|
    ensures Rank(Do(s, l).callers[c].phase) + (if OwnStep(l, c) then 1 else 0) <= Rank(s.callers[c].phase)
  {
  }

  lemma {:induction false} OwnStepsFitRank(s: State, ls: seq<Step>, c: nat)
    requires Legal(s, ls) && c < |s.callers|
    ensures c < |Exec(s, ls).callers|
    ensures OwnSteps(ls, c) + Rank(Exec(s, ls).callers[c].phase) <= Rank(s.callers[c].phase)
    decreases |ls|
  {
    if ls != [] {
      OwnStepsLowerRank(s, ls[0], c);
      StepKeepsOthers(s, ls[0]);
      OwnStepsFitRank(Do(s, ls[0]), ls[1..], c);
    }
  }

  lemma {:induction false} CallersStay(s: State, ls: seq<Step>)
    requires Legal(s, ls)
    ensures |Exec(s, ls).callers| == |s.callers|
    decreases |ls|
  {
    if ls != [] {
      CallersStay(Do(s, ls[0]), ls[1..]);
    }
  }

  /**
   * Every call takes at most eleven steps of its own, whatever the others, the clock and the store do,
   * and a run in which no call can take a step has returned them all and left the gate empty.
   */
  lemma CallsReturn(now: int, requests: seq<Request>, ls: seq<Step>, s: State)
    requires Reaches(now, requests, ls, s)
    ensures |s.callers| == |requests| && forall c :: 0 <= c < |requests| ==> OwnSteps(ls, c) <= 11
    ensures (forall l: Step, c: nat :: c < |requests| && OwnStep(l, c) ==> !Can(s, l)) ==>
      s.gate == 0 && forall c :: 0 <= c < |requests| ==> s.callers[c].phase.Returned?
  {
    forall c | 0 <= c < |requests| ensures OwnSteps(ls, c) <= 11 {
      OwnStepsFitRank(Start(now, requests), ls, c);
    }
    CallersStay(Start(now, requests), ls);
    GateHoldsOne(now, requests, ls, s);
    forall c | 0 <= c < |requests| && !s.callers[c].phase.Returned?
      ensures exists l: Step, d: nat :: d < |requests| && OwnStep(l, d) && Can(s, l)
    {
      var l := NeverStranded(now, requests, ls, s, c);
      StepKeepsOthers(s, l);
      assert OwnStep(l, Actor(l).value);
    }
  }

  /** A fetch starts only while its caller holds the gate and its section is absent, expired, or was unreadable just before. */
  lemma FetchesAreJustified(now: int, requests: seq<Request>, ls: seq<Step>, s: State, c: nat)
    requires Reaches(now, requests, ls, s) && Can(s, StartFetch(c))
    ensures s.gate == 1 && Inside(s.callers[c])
    ensures forall d :: 0 <= d < |s.callers| && d != c ==> !Inside(s.callers[d])
    ensures !s.callers[c].phase.unreadable ==> !Live(s, s.callers[c].Wants())
  {
    ReachableInv(now, requests, ls, s);
    CountCovers(s.callers, c);
  }

  /** Every value returned was in a response fetched for the caller's own store, and contains the section asked for. */
  lemma ValuesComeFromTheirStore(now: int, requests: seq<Request>, ls: seq<Step>, s: State, c: nat)
    requires Reaches(now, requests, ls, s) && c < |s.callers|
    requires s.callers[c].phase.Returned? && s.callers[c].phase.outcome.Value?
    ensures
      var v := s.callers[c].phase.outcome.response;
      v < |s.responses| && s.responses[v].store == s.callers[c].store && s.callers[c].wanted in s.responses[v].sections
  {
    ReachableInv(now, requests, ls, s);
    assert CallerOk(s, s.callers[c]);
  }

  /** A value read from the store was stored there after it was received, and at most its lifetime before the read. */
  lemma CachedValuesAreUnexpired(now: int, requests: seq<Request>, ls: seq<Step>, s: State, c: nat)
    requires Reaches(now, requests, ls, s) && c < |s.callers|
    requires s.callers[c].phase.Returned? && s.callers[c].phase.outcome.Value? && s.callers[c].phase.outcome.lease.Some?
    ensures
      var o := s.callers[c].phase.outcome;
      var lease := o.lease.value;
      && o.response < |s.responses|
      && s.responses[o.response].received <= lease.storedAt <= lease.readAt <= s.clock
      && lease.readAt - lease.storedAt <= SectionTtl(s.callers[c].wanted)
  {
    ReachableInv(now, requests, ls, s);
    assert CallerOk(s, s.callers[c]);
  }

  /**
   * In every reachable state a read by a caller whose context is active answers from the store exactly if
   * its section was stored there at most its lifetime ago, with the response it was stored from. Otherwise
   * the first read goes to the gate and the second to a fetch.
   */
  lemma ReadsAnswerExactly(now: int, requests: seq<Request>, ls: seq<Step>, s: State, c: nat)
    requires Reaches(now, requests, ls, s) && Can(s, Read(c, true)) && !s.callers[c].cancelled
    ensures
      var slot, first, after := s.callers[c].Wants(), s.callers[c].phase.FirstRead?, Do(s, Read(c, true)).callers[c].phase;
      if slot in s.cells && s.clock - s.cells[slot].storedAt <= SectionTtl(slot.section) then
        var v := Value(s.cells[slot].response, Some(Lease(s.cells[slot].storedAt, s.clock)));
        after == if first then Returned(v) else Leaving(v)
      else
        after == if first then Queued else Missed(false)
  {
    ReachableInv(now, requests, ls, s);
    var slot := s.callers[c].Wants();
    if slot in s.cells {
      assert CellOk(s, slot, s.cells[slot]);
    }
  }

  predicate Failed(p: Phase) {
    (p.Leaving? || p.Returned?) && p.outcome.Error?
  }

  /**
   * A call fails only because its own context is done, its fetch fails, or the response lacks the section it
   * asked for. In particular a store that cannot be read or written never fails it, and neither does anybody else.
   */
  lemma FailuresHaveCauses(s: State, l: Step, c: nat)
    requires Can(s, l) && c < |s.callers| && !Failed(s.callers[c].phase) && Failed(Do(s, l).callers[c].phase)
    ensures
      || s.callers[c].cancelled
      || l == FetchFails(c)
      || (l.FetchReturns? && l.c == c && s.callers[c].wanted !in l.sections)
  {
  }

  /** A caller whose context is done keeps warming no further than the write that finds out, and its call fails. */
  lemma CancelledCallerStopsWarming(s: State, c: nat, written: bool)
    requires Can(s, Store(c, written)) && s.callers[c].cancelled
    requires WARMING_ORDER[s.callers[c].phase.handled] in s.responses[s.callers[c].phase.response].sections
    ensures Failed(Do(s, Store(c, written)).callers[c].phase)
    ensures !written ==> Do(s, Store(c, written)).cells == s.cells
  {
  }

  predicate ContextDone(s: State, c: nat) {
    c < |s.callers| && s.callers[c].cancelled
  }

  /**
   * Nothing expires or is deleted, payloads are complete, and every read and write of the store that is
   * attempted succeeds; a caller whose context is done attempts none.
   */
  ghost predicate Calm(s: State, l: Step) {
    match l
    case Tick(to) => forall slot <- s.cells :: to <= s.cells[slot].expiration
    case Drop(_) => false
    case Read(c, readable) => readable || ContextDone(s, c)
    case FetchReturns(_, sections) => forall section :: section in sections
    case Store(c, written) => written || ContextDone(s, c)
    case _ => true
  }

  ghost predicate CalmRun(s: State, ls: seq<Step>)
    requires Legal(s, ls)
    decreases |ls|
  {
    ls == [] || (Calm(s, ls[0]) && CalmRun(Do(s, ls[0]), ls[1..]))
  }

  ghost predicate AllLive(s: State, store: StoreId) {
    forall section :: Live(s, Slot(store, section))
  }

  /** What a caller past its miss knows in a calm run: nobody has warmed its store before. */
  ghost predicate Pioneer(s: State, caller: Caller) {
    && (Flying(caller.phase) ==> !caller.phase.unreadable)
    && (Flying(caller.phase) || caller.phase.Storing? ==> caller.store !in s.completed)
    && (caller.phase.Storing? ==>
          && caller.phase.response < |s.responses|
          && (forall section :: section in s.responses[caller.phase.response].sections)
          && caller.phase.handled <= |WARMING_ORDER|
          && (forall j :: 0 <= j < caller.phase.handled ==> Live(s, Slot(caller.store, WARMING_ORDER[j]))))
  }

  ghost predicate SingleFlight(s: State) {
    && Distinct(s.completed)
    && (forall store <- s.completed :: AllLive(s, store))
    && (forall c :: 0 <= c < |s.callers| ==> Pioneer(s, s.callers[c]))
    && (forall slot <- s.cells :: s.clock <= s.cells[slot].expiration)
  }

  lemma CalmKeepsLive(s: State, l: Step, slot: Slot)
    requires Can(s, l) && Calm(s, l) && Live(s, slot)
    requires forall k <- s.cells :: s.clock <= s.cells[k].expiration
    ensures Live(Do(s, l), slot)
    ensures forall k <- Do(s, l).cells :: Do(s, l).clock <= Do(s, l).cells[k].expiration
  {
  }

  lemma CalmKeepsUnexpired(s: State, l: Step)
    requires Can(s, l) && Calm(s, l)
    requires forall k <- s.cells :: s.clock <= s.cells[k].expiration
    ensures forall k <- Do(s, l).cells :: Do(s, l).clock <= Do(s, l).cells[k].expiration
  {
  }

  lemma WholeOrder(s: State, store: StoreId)
    requires forall j :: 0 <= j < |WARMING_ORDER| ==> Live(s, Slot(store, WARMING_ORDER[j]))
    ensures AllLive(s, store)
  {
    assert WARMING_ORDER[0] == Teams && WARMING_ORDER[1] == Players && WARMING_ORDER[2] == Gameweeks && WARMING_ORDER[3] == Settings;
    forall section ensures Live(s, Slot(store, section)) {
      match section {
        case Teams => assert Live(s, Slot(store, WARMING_ORDER[0]));
        case Players => assert Live(s, Slot(store, WARMING_ORDER[1]));
        case Gameweeks => assert Live(s, Slot(store, WARMING_ORDER[2]));
        case Settings => assert Live(s, Slot(store, WARMING_ORDER[3]));
      }
    }
  }

  lemma CalmKeepsPioneer(s: State, l: Step, c: nat)
    requires GateInv(s) && SingleFlight(s) && Can(s, l) && Calm(s, l) && c < |s.callers|
    ensures Pioneer(Do(s, l), Do(s, l).callers[c])
  {
    var t := Do(s, l);
    StepKeepsOthers(s, l);
    assert Pioneer(s, s.callers[c]);
    if l.Finish? && c != l.c {
      CountCovers(s.callers, l.c);
    }
    if s.callers[c].phase.Storing? {
      forall j | 0 <= j < s.callers[c].phase.handled
        ensures Live(t, Slot(s.callers[c].store, WARMING_ORDER[j]))
      {
        CalmKeepsLive(s, l, Slot(s.callers[c].store, WARMING_ORDER[j]));
      }
    }
    if l.Read? && l.c == c && s.callers[c].store in s.completed {
      assert Live(s, Slot(s.callers[c].store, s.callers[c].wanted));
    }
  }

  lemma CalmKeepsCompleted(s: State, l: Step)
    requires SingleFlight(s) && Can(s, l) && Calm(s, l)
    ensures Distinct(Do(s, l).completed)
    ensures forall store <- Do(s, l).completed :: AllLive(Do(s, l), store)
  {
    var t := Do(s, l);
    if l.Finish? {
      assert Pioneer(s, s.callers[l.c]);
      WholeOrder(s, s.callers[l.c].store);
    }
    forall store <- t.completed ensures AllLive(t, store) {
      assert AllLive(s, store);
      forall section ensures Live(t, Slot(store, section)) {
        CalmKeepsLive(s, l, Slot(store, section));
      }
    }
  }

  lemma CalmKeepsSingleFlight(s: State, l: Step)
    requires GateInv(s) && SingleFlight(s) && Can(s, l) && Calm(s, l)
    ensures SingleFlight(Do(s, l))
  {
    CalmKeepsUnexpired(s, l);
    CalmKeepsCompleted(s, l);
    StepKeepsOthers(s, l);
    forall c | 0 <= c < |Do(s, l).callers| ensures Pioneer(Do(s, l), Do(s, l).callers[c]) {
      CalmKeepsPioneer(s, l, c);
    }
    hide Do, AllLive, Pioneer;
  }

  lemma {:induction false} CalmRunKeepsSingleFlight(s: State, ls: seq<Step>)
    requires GateInv(s) && SingleFlight(s) && Legal(s, ls) && CalmRun(s, ls)
    ensures SingleFlight(Exec(s, ls))
    decreases |ls|
  {
    if ls != [] {
      StepKeepsGate(s, ls[0]);
      CalmKeepsSingleFlight(s, ls[0]);
      hide Do, GateInv, SingleFlight;
      CalmRunKeepsSingleFlight(Do(s, ls[0]), ls[1..]);
    }
  }

  /**
   * Single flight: from empty stores, while nothing expires, is deleted or fails to be stored, at most
   * one fetch per store completes however many callers ask; after it every section is served, and
   * nobody is on the way to fetching for that store again.
   */
  lemma OneFetchPerStore(now: int, requests: seq<Request>, ls: seq<Step>, s: State)
    requires Reaches(now, requests, ls, s) && CalmRun(Start(now, requests), ls)
    ensures Distinct(s.completed)
    ensures forall store <- s.completed, section :: Live(s, Slot(store, section))
    ensures forall c :: 0 <= c < |s.callers| && s.callers[c].store in s.completed ==> !Flying(s.callers[c].phase)
  {
    StartInv(now, requests);
    CalmRunKeepsSingleFlight(Start(now, requests), ls);
    forall store, section | store in s.completed ensures Live(s, Slot(store, section)) {
      assert AllLive(s, store);
    }
    forall c | 0 <= c < |s.callers| && s.callers[c].store in s.completed ensures !Flying(s.callers[c].phase) {
      assert Pioneer(s, s.callers[c]);
    }
  }
}
