/**
 * The same store under any interleaving of readers, writers, deletions and cleanups.
 * A read is three separate steps: the snapshot under the read lock, the later clock
 * check, and the re-check under the write lock that may evict.
 */
module CacheRuns {
  import opened Wrappers
  import opened MemoryCache

  /**
   * A reader remembers the entry it found and, for the record only, what the plain map served for
   * the key at that instant. Evicting: found its entry expired. Answered: finished at `checked`, after
   * decoding the bytes it found if `decoded`.
   */
  datatype Reader =
    | Idle
    | Snapped(key: string, found: Option<Entry>, served: Option<Entry>, at: int)
    | Evicting(key: string, found: Option<Entry>, served: Option<Entry>, at: int, checked: int)
    | Answered(key: string, found: Option<Entry>, served: Option<Entry>, at: int, checked: int, decoded: bool, result: ReadResult)

  datatype State = State(clock: int, items: Items, written: Items, readers: seq<Reader>)

  datatype Step =
    | Tick(to: int)
    | Set(key: string, value: string, ttl: int)
    | Delete(key: string)
    | Clear
    | Cleanup
    | Snap(r: nat, key: string)
    | Check(r: nat, decodes: bool)
    | Recheck(r: nat)
    | Abandon(r: nat)

  function Start(now: int, readers: nat): State {
    State(now, map[], map[], seq(readers, _ => Idle))
  }

  predicate Can(s: State, l: Step) {
    match l
    case Tick(to) => s.clock <= to
    case Snap(r, _) => r < |s.readers| && (s.readers[r].Idle? || s.readers[r].Answered?)
    case Check(r, _) => r < |s.readers| && s.readers[r].Snapped?
    case Recheck(r) => r < |s.readers| && s.readers[r].Evicting?
    case Abandon(r) => r < |s.readers| && !s.readers[r].Idle?
    case _ => true
  }

  function Move(s: State, r: nat, to: Reader): State
    requires r < |s.readers|
  {
    s.(readers := s.readers[r := to])
  }

  function Lookup(m: Items, key: string): Option<Entry> {
    if key in m then Some(m[key]) else None
  }

  function Checked(rd: Reader, now: int, decodes: bool): Reader
    requires rd.Snapped?
  {
    match rd.found
    case None => Answered(rd.key, rd.found, rd.served, rd.at, now, false, Miss)
    case Some(e) =>
      if Expired(e, now) then Evicting(rd.key, rd.found, rd.served, rd.at, now)
      else Answered(rd.key, rd.found, rd.served, rd.at, now, decodes, if decodes then Hit(e.value) else Failed(DecodeFailed))
  }

  function Do(s: State, l: Step): State
    requires Can(s, l)
  {
    match l
    case Tick(to) => s.(clock := to)
    case Set(key, value, ttl) =>
      var e := Entry(value, s.clock + ttl);
      s.(items := s.items[key := e], written := s.written[key := e])
    case Delete(key) => s.(items := s.items - {key}, written := s.written - {key})
    case Clear => s.(items := map[], written := map[])
    case Cleanup => s.(items := LiveItems(s.items, s.clock))
    case Snap(r, key) => Move(s, r, Snapped(key, Lookup(s.items, key), LiveEntry(s.written, key, s.clock), s.clock))
    case Check(r, decodes) => Move(s, r, Checked(s.readers[r], s.clock, decodes))
    case Recheck(r) =>
      var rd := s.readers[r];
      Move(s.(items := Evict(s.items, rd.key, s.clock)), r, Answered(rd.key, rd.found, rd.served, rd.at, rd.checked, false, Miss))
    case Abandon(r) => Move(s, r, Idle)
  }

  predicate Legal(s: State, ls: seq<Step>)
    decreases |ls|
  {
    ls == [] || (Can(s, ls[0]) && Legal(Do(s, ls[0]), ls[1..]))
  }

  function Exec(s: State, ls: seq<Step>): State
    requires Legal(s, ls)
    decreases |ls|
  {
    if ls == [] then s else Exec(Do(s, ls[0]), ls[1..])
  }

  /** The found entry and the served one agree while the found entry was still live at the snapshot. */
  ghost predicate Honest(found: Option<Entry>, served: Option<Entry>, at: int) {
    served == if found.Some? && !Expired(found.value, at) then found else None
  }

  /** The justification of an answer. */
  ghost predicate ReaderOk(rd: Reader, clock: int) {
    match rd
    case Idle => true
    case Snapped(_, found, served, at) => Honest(found, served, at) && at <= clock
    case Evicting(_, found, served, at, checked) =>
      Honest(found, served, at) && at <= checked <= clock && found.Some? && Expired(found.value, checked)
    case Answered(_, found, served, at, checked, decoded, result) =>
      && Honest(found, served, at) && at <= checked <= clock
      && (result.Hit? ==> found.Some? && served == found && found.value.value == result.value && !Expired(found.value, checked))
      && (result.Hit? ==> decoded)
      && (result.Failed? ==> !decoded && result.error == DecodeFailed && found.Some? && served == found && !Expired(found.value, checked))
      && (result.Miss? ==> found == None || Expired(found.value, checked))
  }

  ghost predicate Inv(s: State) {
    && Simulates(s.items, s.written, s.clock)
    && forall r :: 0 <= r < |s.readers| ==> ReaderOk(s.readers[r], s.clock)
  }

  lemma SnapshotIsHonest(s: State, key: string)
    requires Simulates(s.items, s.written, s.clock)
    ensures Honest(Lookup(s.items, key), LiveEntry(s.written, key, s.clock), s.clock)
  {
  }

  lemma StepKeepsSimulation(s: State, l: Step)
    requires Simulates(s.items, s.written, s.clock) && Can(s, l)
    ensures Simulates(Do(s, l).items, Do(s, l).written, Do(s, l).clock)
    ensures s.clock <= Do(s, l).clock
  {
  }

  lemma StepKeepsReaders(s: State, l: Step)
    requires Inv(s) && Can(s, l)
    ensures forall r :: 0 <= r < |Do(s, l).readers| ==> ReaderOk(Do(s, l).readers[r], Do(s, l).clock)
  {
  }

  lemma {:induction false} RunKeepsInv(s: State, ls: seq<Step>)
    requires Inv(s) && Legal(s, ls)
    ensures Inv(Exec(s, ls)) && s.clock <= Exec(s, ls).clock
    decreases |ls|
  {
    if ls != [] {
      StepKeepsSimulation(s, ls[0]);
      StepKeepsReaders(s, ls[0]);
      hide Do, Simulates;
      RunKeepsInv(Do(s, ls[0]), ls[1..]);
    }
  }

  ghost predicate Reaches(now: int, readers: nat, ls: seq<Step>, s: State) {
    Legal(Start(now, readers), ls) && s == Exec(Start(now, readers), ls)
  }

  /** Eviction is invisible: at every instant from now on, the store reads like a map nobody evicts from. */
  lemma EvictionIsInvisible(now: int, readers: nat, ls: seq<Step>, s: State, later: int)
    requires Reaches(now, readers, ls, s) && s.clock <= later
    ensures LiveItems(s.items, later) == LiveItems(s.written, later)
    ensures forall k :: LiveEntry(s.items, k, later) == LiveEntry(s.written, k, later)
  {
    RunKeepsInv(Start(now, readers), ls);
    SimulationReadsTheSame(s.items, s.written, s.clock, later);
  }

  predicate Writes(l: Step, key: string) {
    (l.Set? && l.key == key) || (l.Delete? && l.key == key) || l.Clear?
  }

  /** No unexpired entry leaves the store except by a Set, Delete or Clear that names it. */
  lemma LiveEntriesStay(s: State, l: Step, key: string)
    requires Can(s, l) && !Writes(l, key) && LiveEntry(s.items, key, s.clock).Some?
    ensures key in Do(s, l).items && Do(s, l).items[key] == s.items[key]
  {
  }

  /**
   * What the clock check makes of a snapshot, exactly: nothing found is a miss, an expired entry goes on to
   * the eviction, and a live one is a hit or a decode failure.
   */
  lemma CheckIsExact(s: State, r: nat, decodes: bool)
    requires Can(s, Check(r, decodes))
    ensures
      var rd, after := s.readers[r], Do(s, Check(r, decodes)).readers[r];
      if rd.found == None then after.Answered? && after.result == Miss
      else if rd.found.value.expiration < s.clock then after.Evicting? && after.checked == s.clock
      else
        && after.Answered? && after.checked == s.clock && after.decoded == decodes
        && after.result == (if decodes then Hit(rd.found.value.value) else Failed(DecodeFailed))
  {
  }

  /** Nothing expired survives a cleanup, nor, under its own key, the re-check of a read that found it expired. */
  lemma ExpiredIsReclaimed(s: State, l: Step, key: string)
    requires Can(s, l) && (l.Cleanup? || (l.Recheck? && s.readers[l.r].key == key))
    ensures key in Do(s, l).items <==> key in s.items && s.clock <= s.items[key].expiration
  {
  }

  /**
   * A hit returns the very entry the plain map served at the snapshot, unexpired even at the later
   * check, and whose bytes decoded; a miss found nothing, or found an entry expired at the check; a
   * failure found a live entry whose bytes did not decode.
   */
  lemma AnswersAreJustified(now: int, readers: nat, ls: seq<Step>, s: State, r: nat)
    requires Reaches(now, readers, ls, s) && r < |s.readers| && s.readers[r].Answered?
    ensures
      var rd := s.readers[r];
      && rd.at <= rd.checked <= s.clock
      && (rd.result.Hit? ==>
            && rd.decoded && rd.served.Some? && rd.served.value.value == rd.result.value
            && rd.checked <= rd.served.value.expiration)
      && (rd.result.Failed? ==>
            !rd.decoded && rd.result.error == DecodeFailed && rd.served.Some? && rd.checked <= rd.served.value.expiration)
      && (rd.result.Miss? ==>
            rd.served == None || (rd.found == rd.served && rd.served.value.expiration < rd.checked))
  {
    RunKeepsInv(Start(now, readers), ls);
    assert ReaderOk(s.readers[r], s.clock);
  }

  // ---------- misses and concurrent writers ----------

  /** The last write of a key in a run: a Set leaves its value, expiring ttl later. */
  datatype LastWrite = Untouched | Gone | Put(value: string, expiration: int)

  function WriteOf(s: State, l: Step, key: string): LastWrite {
    if !Writes(l, key) then Untouched else if l.Set? then Put(l.value, s.clock + l.ttl) else Gone
  }

  function LastWriteOf(s: State, ls: seq<Step>, key: string): LastWrite
    requires Legal(s, ls)
    decreases |ls|
  {
    if ls == [] then Untouched
    else
      var later := LastWriteOf(Do(s, ls[0]), ls[1..], key);
      if later.Untouched? then WriteOf(s, ls[0], key) else later
  }

  /** The last write of a key decides what the plain map holds for it, whatever else interleaves. */
  lemma {:induction false} LastWriteDecides(s: State, ls: seq<Step>, key: string)
    requires Legal(s, ls)
    ensures
      var after := Exec(s, ls).written;
      match LastWriteOf(s, ls, key)
      case Untouched => Lookup(after, key) == Lookup(s.written, key)
      case Gone => key !in after
      case Put(value, expiration) => key in after && after[key] == Entry(value, expiration)
    ensures s.clock <= Exec(s, ls).clock
    decreases |ls|
  {
    if ls != [] {
      LastWriteDecides(Do(s, ls[0]), ls[1..], key);
    }
  }

  ghost predicate NoSet(ls: seq<Step>, key: string) {
    forall i :: 0 <= i < |ls| && ls[i].Set? ==> ls[i].key != key
  }

  lemma {:induction false} NoSetNoPut(s: State, ls: seq<Step>, key: string)
    requires Legal(s, ls) && NoSet(ls, key)
    ensures !LastWriteOf(s, ls, key).Put?
    decreases |ls|
  {
    if ls != [] {
      NoSetNoPut(Do(s, ls[0]), ls[1..], key);
    }
  }

  /** While nobody sets the key, the plain map keeps its entry or loses it; it never gains another. */
  lemma WithoutSetNothingNew(s: State, ls: seq<Step>, key: string)
    requires Legal(s, ls) && NoSet(ls, key)
    ensures key in Exec(s, ls).written ==> key in s.written && Exec(s, ls).written[key] == s.written[key]
    ensures s.clock <= Exec(s, ls).clock
  {
    LastWriteDecides(s, ls, key);
    NoSetNoPut(s, ls, key);
  }

  /** A read of the key that began in s is turned into a miss in t, its snapshot untouched in between. */
  ghost predicate MissesAt(s: State, r: nat, key: string, t: State)
    requires Can(s, Snap(r, key))
  {
    && r < |t.readers| && t.readers[r] == Do(s, Snap(r, key)).readers[r]
    && (Checked(t.readers[r], t.clock, true).Evicting? || Checked(t.readers[r], t.clock, true).result.Miss?)
  }

  /**
   * A read behaves as if it were atomic at its clock check, a miss meaning that the plain map serves
   * nothing at that moment, if and only if the last write of its key since the snapshot is not a Set
   * still unexpired at the check.
   */
  lemma MissIsAtomicIff(now: int, readers: nat, before: seq<Step>, s: State, r: nat, key: string, during: seq<Step>)
    requires Reaches(now, readers, before, s) && Can(s, Snap(r, key))
    requires Legal(Do(s, Snap(r, key)), during) && MissesAt(s, r, key, Exec(Do(s, Snap(r, key)), during))
    ensures
      var t := Exec(Do(s, Snap(r, key)), during);
      var last := LastWriteOf(Do(s, Snap(r, key)), during, key);
      LiveEntry(t.written, key, t.clock) == None <==> !(last.Put? && t.clock <= last.expiration)
  {
    RunKeepsInv(Start(now, readers), before);
    var snapped := Do(s, Snap(r, key));
    SnapshotIsHonest(s, key);
    LastWriteDecides(snapped, during, key);
    assert snapped.readers[r] == Snapped(key, Lookup(s.items, key), LiveEntry(s.written, key, s.clock), s.clock);
  }

  /** In particular, a read that no Set of its key overlaps is atomic. */
  lemma MissWithoutSetIsAtomic(now: int, readers: nat, before: seq<Step>, s: State, r: nat, key: string, during: seq<Step>)
    requires Reaches(now, readers, before, s) && Can(s, Snap(r, key))
    requires Legal(Do(s, Snap(r, key)), during) && NoSet(during, key)
    requires MissesAt(s, r, key, Exec(Do(s, Snap(r, key)), during))
    ensures
      var t := Exec(Do(s, Snap(r, key)), during);
      LiveEntry(t.written, key, t.clock) == None
  {
    MissIsAtomicIff(now, readers, before, s, r, key, during);
    NoSetNoPut(Do(s, Snap(r, key)), during, key);
  }

  /** The plain map serves the key in every state of the run, first and last included. */
  ghost predicate ServedThroughout(s: State, ls: seq<Step>, key: string)
    requires Legal(s, ls)
    decreases |ls|
  {
    LiveEntry(s.written, key, s.clock).Some? && (ls == [] || ServedThroughout(Do(s, ls[0]), ls[1..], key))
  }

  lemma Prepend(s: State, l: Step, rest: seq<Step>, key: string)
    requires Can(s, l) && LiveEntry(s.written, key, s.clock).Some?
    requires Legal(Do(s, l), rest) && ServedThroughout(Do(s, l), rest, key)
    ensures Legal(s, [l] + rest) && ServedThroughout(s, [l] + rest, key)
    ensures Exec(s, [l] + rest) == Exec(Do(s, l), rest)
  {
  }

  const STALE: Entry := Entry("old", 10)
  const FRESH: Entry := Entry("new", 109)
  const BEFORE_READ: State := State(0, map["k" := STALE], map["k" := STALE], [Idle])
  const REFRESH_THEN_CHECK: seq<Step> := [Set("k", "new", 100)] + ([Tick(11)] + ([Check(0, true)] + ([Recheck(0)] + [])))

  lemma RefreshThenCheckMisses()
    ensures
      var m := map["k" := STALE];
      var s := State(9, m, m, [Snapped("k", Some(STALE), Some(STALE), 0)]);
      && Legal(s, REFRESH_THEN_CHECK) && ServedThroughout(s, REFRESH_THEN_CHECK, "k")
      && Exec(s, REFRESH_THEN_CHECK).readers == [Answered("k", Some(STALE), Some(STALE), 0, 11, false, Miss)]
  {
    var m := map["k" := STALE];
    var s := State(9, m, m, [Snapped("k", Some(STALE), Some(STALE), 0)]);
    var s1 := Do(s, Set("k", "new", 100));
    var s2 := Do(s1, Tick(11));
    var s3 := Do(s2, Check(0, true));
    assert s3.readers[0] == Evicting("k", Some(STALE), Some(STALE), 0, 11);
    Prepend(s3, Recheck(0), [], "k");
    Prepend(s2, Check(0, true), [Recheck(0)] + [], "k");
    Prepend(s1, Tick(11), [Check(0, true)] + ([Recheck(0)] + []), "k");
    Prepend(s, Set("k", "new", 100), [Tick(11)] + ([Check(0, true)] + ([Recheck(0)] + [])), "k");
  }

  /**
   * The condition can fail: here the key is refreshed between the snapshot and the clock
   * check, so the plain map serves it at every moment of the read, and yet the read misses.
   */
  lemma RefreshCanCauseMiss()
    ensures Reaches(0, 1, [Set("k", "old", 10)], BEFORE_READ)
    ensures
      var read := [Snap(0, "k")] + ([Tick(9)] + REFRESH_THEN_CHECK);
      && Legal(BEFORE_READ, read) && ServedThroughout(BEFORE_READ, read, "k")
      && Exec(BEFORE_READ, read).readers == [Answered("k", Some(STALE), Some(STALE), 0, 11, false, Miss)]
  {
    assert [Set("k", "old", 10)][1..] == [];
    assert Do(Start(0, 1), Set("k", "old", 10)) == BEFORE_READ;
    RefreshThenCheckMisses();
    var s1 := Do(BEFORE_READ, Snap(0, "k"));
    assert s1.readers == [Snapped("k", Some(STALE), Some(STALE), 0)];
    Prepend(s1, Tick(9), REFRESH_THEN_CHECK, "k");
    Prepend(BEFORE_READ, Snap(0, "k"), [Tick(9)] + REFRESH_THEN_CHECK, "k");
  }
}
