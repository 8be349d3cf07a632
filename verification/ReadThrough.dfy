/**
 * The read-through services over one store and one upstream, operation by operation:
 * endpoints/cache_provider.go, bootstrap.go, fixtures.go, manager.go, players.go, leagues.go, live.go.
 *
 * `upstream` is the history of decoded responses. The invariant says of every stored entry from
 * which response it came and how old that response may be; keys keep resources apart.
 */
module ReadThrough {
  import opened MachineWords
  import opened Wrappers
  import opened Keys
  import opened CachePolicy

  datatype FixtureData = FixtureData(id: int, details: int)
  datatype Week = Week(id: int, isCurrent: bool, isNext: bool)

  /** Decoded payloads; those the services do not look into stay opaque. */
  datatype Value =
    | FixtureList(fixtures: seq<FixtureData>)
    | OneFixture(fixture: FixtureData)
    | WeekList(weeks: seq<Week>)
    | WeekId(id: int)
    | Opaque(payload: int)

  datatype Entry = Entry(value: Value, expiration: int)

  datatype Reply = Reply(resource: Resource, value: Value, time: int)

  datatype Result<T> = Ok(value: T) | Err

  predicate Derived(r: Resource) {
    r.Fixture? || r.NextGameweek?
  }

  /** The resource whose responses a cached value is computed from. */
  function SourceOf(r: Resource): Resource {
    match r
    case Fixture(_) => Fixtures
    case NextGameweek => Bootstrap(Gameweeks)
    case _ => r
  }

  function TtlOf(r: Resource): int {
    match r
    case Bootstrap(section) => SectionTtl(section)
    case NextGameweek => GAMEWEEKS_TTL
    case Fixtures => FIXTURES_TTL
    case Fixture(_) => FIXTURES_TTL
    case Manager(_) => MANAGER_TTL
    case ManagerTeam(_, _) => MANAGER_TTL
    case ManagerHistory(_) => MANAGER_TTL
    case ClassicLeague(_, _) => LEAGUE_TTL
    case PlayerHistory(_) => PLAYERS_TTL
    case EventLive(_) => EVENT_LIVE_TTL
  }

  /** The oldest a served value may be: its own time in the store, and for derived entries that of the list too. */
  function MaxAge(r: Resource): int {
    if Derived(r) then TtlOf(r) + TtlOf(SourceOf(r)) else TtlOf(r)
  }

  function FirstFixture(list: seq<FixtureData>, id: int): Option<FixtureData> {
    if list == [] then None else if list[0].id == id then Some(list[0]) else FirstFixture(list[1..], id)
  }

  function FirstNext(weeks: seq<Week>): Option<int> {
    if weeks == [] then None else if weeks[0].isNext then Some(weeks[0].id) else FirstNext(weeks[1..])
  }

  function FirstCurrent(weeks: seq<Week>): Option<int> {
    if weeks == [] then None else if weeks[0].isCurrent then Some(weeks[0].id) else FirstCurrent(weeks[1..])
  }

  /** What resource r is, read off a response for its source. */
  function Derive(r: Resource, v: Value): Option<Value> {
    match r
    case Fixture(id) =>
      (match v
       case FixtureList(list) =>
         var f := FirstFixture(list, id);
         if f.Some? then Some(OneFixture(f.value)) else None
       case _ => None)
    case NextGameweek =>
      (match v
       case WeekList(weeks) =>
         var w := FirstNext(weeks);
         if w.Some? then Some(WeekId(w.value)) else None
       case _ => None)
    case _ => Some(v)
  }

  predicate WellTyped(r: Resource, v: Value) {
    match r
    case Fixtures => v.FixtureList?
    case Bootstrap(Gameweeks) => v.WeekList?
    case Fixture(_) => v.OneFixture?
    case NextGameweek => v.WeekId?
    case _ => v.Opaque?
  }

  /** v is what r was in some response no older than `since`. */
  ghost predicate Fresh(upstream: seq<Reply>, r: Resource, v: Value, since: int) {
    exists i :: 0 <= i < |upstream| && From(upstream[i], r, v, since)
  }

  ghost predicate From(reply: Reply, r: Resource, v: Value, since: int) {
    && reply.resource == SourceOf(r) && since <= reply.time
    && WellTyped(SourceOf(r), reply.value) && Derive(r, reply.value) == Some(v)
  }

  function AsResult<T>(o: Option<T>): Result<T> {
    if o.Some? then Ok(o.value) else Err
  }

  type Items = map<string, Entry>

  /** Every entry under a resource's key is that resource, from a response within its maximal age of its expiry. */
  ghost predicate Sound(items: Items, upstream: seq<Reply>) {
    forall r: Resource :: Key(r) in items ==> EntrySound(items[Key(r)], upstream, r)
  }

  ghost predicate EntrySound(e: Entry, upstream: seq<Reply>, r: Resource) {
    Fresh(upstream, r, e.value, e.expiration - MaxAge(r))
  }

  lemma SoundEntry(items: Items, upstream: seq<Reply>, r: Resource)
    requires Sound(items, upstream) && Key(r) in items
    ensures EntrySound(items[Key(r)], upstream, r)
  {
  }

  lemma FreshKeeps(upstream: seq<Reply>, more: seq<Reply>, r: Resource, v: Value, since: int, earlier: int)
    requires Fresh(upstream, r, v, since) && upstream <= more && earlier <= since
    ensures Fresh(more, r, v, earlier)
  {
  }

  lemma FreshIsWellTyped(upstream: seq<Reply>, r: Resource, v: Value, since: int)
    requires Fresh(upstream, r, v, since)
    ensures WellTyped(r, v)
  {
  }

  lemma SoundKeeps(items: Items, upstream: seq<Reply>, more: seq<Reply>)
    requires Sound(items, upstream) && upstream <= more
    ensures Sound(items, more)
  {
  }

  /** Writing one resource disturbs no other: this is where keys must be injective. */
  lemma WriteKeepsSound(items: Items, upstream: seq<Reply>, r: Resource, v: Value, now: int)
    requires Sound(items, upstream)
    requires Fresh(upstream, r, v, now + TtlOf(r) - MaxAge(r))
    ensures Sound(items[Key(r) := Entry(v, now + TtlOf(r))], upstream)
  {
    var after := items[Key(r) := Entry(v, now + TtlOf(r))];
    forall s: Resource | Key(s) in after ensures EntrySound(after[Key(s)], upstream, s) {
      if Key(s) == Key(r) {
        KeyInjective(s, r);
      } else {
        assert EntrySound(items[Key(s)], upstream, s);
      }
    }
  }

  lemma ReplyIsFresh(upstream: seq<Reply>, r: Resource, v: Value, now: int)
    requires !Derived(r) && WellTyped(r, v)
    ensures Fresh(upstream + [Reply(r, v, now)], r, v, now)
  {
    var all := upstream + [Reply(r, v, now)];
    assert From(all[|upstream|], r, v, now);
  }

  /** A derived value is as fresh as the list it was found in. */
  lemma DerivedIsFresh(upstream: seq<Reply>, r: Resource, source: Value, v: Value, since: int)
    requires Derived(r) && Fresh(upstream, SourceOf(r), source, since) && Derive(r, source) == Some(v)
    ensures Fresh(upstream, r, v, since)
  {
  }

  /** f is the fixture numbered id, and the first of that number in the list. */
  ghost predicate IsFirstFixture(list: seq<FixtureData>, id: int, f: FixtureData) {
    exists k :: 0 <= k < |list| && list[k] == f && f.id == id && forall i :: 0 <= i < k ==> list[i].id != id
  }

  /** gw is the number of the first week in the list marked current. */
  ghost predicate IsFirstCurrent(list: seq<Week>, gw: int) {
    exists k :: 0 <= k < |list| && list[k].isCurrent && list[k].id == gw && forall i :: 0 <= i < k ==> !list[i].isCurrent
  }

  /** gw is the number of the first week in the list marked next. */
  ghost predicate IsFirstNext(list: seq<Week>, gw: int) {
    exists k :: 0 <= k < |list| && list[k].isNext && list[k].id == gw && forall i :: 0 <= i < k ==> !list[i].isNext
  }

  lemma {:induction false} FirstFixtureMatches(list: seq<FixtureData>, id: int)
    ensures FirstFixture(list, id) == None <==> forall i :: 0 <= i < |list| ==> list[i].id != id
    ensures forall f :: FirstFixture(list, id) == Some(f) <==> IsFirstFixture(list, id, f)
    decreases |list|
  {
    if list != [] {
      var rest := list[1..];
      FirstFixtureMatches(rest, id);
      assert forall i :: 1 <= i < |list| ==> list[i] == rest[i - 1];
      forall f ensures FirstFixture(list, id) == Some(f) <==> IsFirstFixture(list, id, f) {
        if list[0].id != id && IsFirstFixture(rest, id, f) {
          var k :| 0 <= k < |rest| && rest[k] == f && f.id == id && forall i :: 0 <= i < k ==> rest[i].id != id;
          assert list[k + 1] == f;
        }
      }
    }
  }

  lemma {:induction false} FirstCurrentMatches(list: seq<Week>)
    ensures FirstCurrent(list) == None <==> forall i :: 0 <= i < |list| ==> !list[i].isCurrent
    ensures forall gw :: FirstCurrent(list) == Some(gw) <==> IsFirstCurrent(list, gw)
    decreases |list|
  {
    if list != [] {
      var rest := list[1..];
      FirstCurrentMatches(rest);
      assert forall i :: 1 <= i < |list| ==> list[i] == rest[i - 1];
      forall gw ensures FirstCurrent(list) == Some(gw) <==> IsFirstCurrent(list, gw) {
        if !list[0].isCurrent && IsFirstCurrent(rest, gw) {
          var k :| 0 <= k < |rest| && rest[k].isCurrent && rest[k].id == gw && forall i :: 0 <= i < k ==> !rest[i].isCurrent;
          assert list[k + 1].id == gw;
        }
      }
    }
  }

  lemma {:induction false} FirstNextMatches(list: seq<Week>)
    ensures FirstNext(list) == None <==> forall i :: 0 <= i < |list| ==> !list[i].isNext
    ensures forall gw :: FirstNext(list) == Some(gw) <==> IsFirstNext(list, gw)
    decreases |list|
  {
    if list != [] {
      var rest := list[1..];
      FirstNextMatches(rest);
      assert forall i :: 1 <= i < |list| ==> list[i] == rest[i - 1];
      forall gw ensures FirstNext(list) == Some(gw) <==> IsFirstNext(list, gw) {
        if !list[0].isNext && IsFirstNext(rest, gw) {
          var k :| 0 <= k < |rest| && rest[k].isNext && rest[k].id == gw && forall i :: 0 <= i < k ==> !rest[i].isNext;
          assert list[k + 1].id == gw;
        }
      }
    }
  }

  /** Some response for this very resource, no older than `since`, was v. */
  ghost predicate Answered(upstream: seq<Reply>, r: Resource, v: Value, since: int) {
    exists i :: 0 <= i < |upstream| && upstream[i].resource == r && upstream[i].value == v && since <= upstream[i].time
  }

  /** Some fixture list no older than `since` has f first among the fixtures numbered id. */
  ghost predicate FixtureSeen(upstream: seq<Reply>, id: int, f: FixtureData, since: int) {
    exists list :: Answered(upstream, Fixtures, FixtureList(list), since) && IsFirstFixture(list, id, f)
  }

  /** Some gameweeks list no older than `since` marks gw first among its next weeks. */
  ghost predicate NamedNext(upstream: seq<Reply>, gw: int, since: int) {
    exists list :: Answered(upstream, Bootstrap(Gameweeks), WeekList(list), since) && IsFirstNext(list, gw)
  }

  /** Some gameweeks list no older than `since` marks gw first among its current weeks. */
  ghost predicate NamedCurrent(upstream: seq<Reply>, gw: int, since: int) {
    exists list :: Answered(upstream, Bootstrap(Gameweeks), WeekList(list), since) && IsFirstCurrent(list, gw)
  }

  /** Freshness in plain words: the value was answered for that resource, or read off a list that was. */
  lemma FreshMeaning(upstream: seq<Reply>, r: Resource, v: Value, since: int)
    requires Fresh(upstream, r, v, since)
    ensures !Derived(r) ==> Answered(upstream, r, v, since)
    ensures r.Fixture? ==> v.OneFixture? && FixtureSeen(upstream, r.id, v.fixture, since)
    ensures r.NextGameweek? ==> v.WeekId? && NamedNext(upstream, v.id, since)
  {
    var i :| 0 <= i < |upstream| && From(upstream[i], r, v, since);
    var source := upstream[i].value;
    assert Answered(upstream, SourceOf(r), source, since);
    if r.Fixture? {
      FirstFixtureMatches(source.fixtures, r.id);
    } else if r.NextGameweek? {
      FirstNextMatches(source.weeks);
    }
  }

  /** How long each answer may be served, in plain numbers. */
  lemma Lifetimes(id: int, page: int)
    ensures TtlOf(Bootstrap(Teams)) == TtlOf(Bootstrap(Settings)) == 24 * 3600 * SECOND
    ensures TtlOf(Bootstrap(Players)) == TtlOf(PlayerHistory(id)) == TtlOf(Fixtures) == TtlOf(Fixture(id)) == 600 * SECOND
    ensures TtlOf(Bootstrap(Gameweeks)) == TtlOf(NextGameweek) == 180 * SECOND
    ensures TtlOf(Manager(id)) == TtlOf(ManagerTeam(id, page)) == TtlOf(ManagerHistory(id)) == 300 * SECOND
    ensures TtlOf(ClassicLeague(id, page)) == 300 * SECOND && TtlOf(EventLive(id)) == 30 * SECOND
    ensures Cacheable(ClassicLeague(id, page)) <==> page <= 3
  {
  }

  lemma FreshFixtureHasId(upstream: seq<Reply>, id: int, v: Value, since: int)
    requires Fresh(upstream, Fixture(id), v, since)
    ensures v.OneFixture? && v.fixture.id == id
  {
    var i :| 0 <= i < |upstream| && From(upstream[i], Fixture(id), v, since);
    FirstFixtureMatches(upstream[i].value.fixtures, id);
    assert IsFirstFixture(upstream[i].value.fixtures, id, v.fixture);
  }

  lemma DropKeepsSound(items: Items, upstream: seq<Reply>, keys: set<string>)
    requires Sound(items, upstream)
    ensures Sound(items - keys, upstream)
  {
  }

  /** What a store access meets: the context before and after it, and whether the store reports an error. */
  datatype Access = Access(doneBefore: bool, doneAfter: bool, fails: bool)

  predicate Active(a: Access) {
    !a.doneBefore && !a.doneAfter
  }

  /** Whether a write of this access gets into the store; a context that ends later does not undo it. */
  predicate Stores(a: Access) {
    !a.doneBefore && !a.fails
  }

  predicate Live(items: Items, key: string, now: int) {
    key in items && now <= items[key].expiration
  }

  /** A read of this access is answered from the store. */
  predicate Serves(items: Items, key: string, a: Access, now: int) {
    Active(a) && !a.fails && Live(items, key, now)
  }

  /** What one fetch-through meets: its read, the decoded and validated reply if there is one, and its write. */
  datatype Turn = Turn(done: bool, read: Access, reply: Option<Value>, write: Access)

  /** Whether the service keeps this resource in the store at all. */
  predicate Cacheable(r: Resource) {
    r.ClassicLeague? ==> r.page <= MAX_PAGE_CACHE
  }

  ghost predicate ThroughFetches(items: Items, turn: Turn, r: Resource, now: int) {
    && !turn.done && turn.reply.Some?
    && (Cacheable(r) ==> Active(turn.read) && !Serves(items, Key(r), turn.read, now))
  }

  /**
   * The answer of a fetch-through, None for an error. Store errors are never the reason: with an active
   * context and a reply there is an answer.
   */
  ghost function ThroughAnswer(items: Items, turn: Turn, r: Resource, now: int): (answer: Option<Value>)
    ensures !turn.done && Active(turn.read) && Active(turn.write) && turn.reply.Some? ==> answer.Some?
  {
    if turn.done || (Cacheable(r) && !Active(turn.read)) then None
    else if Cacheable(r) && Serves(items, Key(r), turn.read, now) then Some(items[Key(r)].value)
    else if Cacheable(r) && !Active(turn.write) then None
    else turn.reply
  }

  /**
   * What one bootstrapSection meets: the read before and the read under the gate, the sections of the
   * decoded response if it arrives, and the four warming writes.
   */
  datatype SectionTurn = SectionTurn(
    first: Access, second: Access, fetched: bool, sections: map<Section, Value>, writes: seq<Access>)
  {
    ghost predicate Ok() {
      |writes| == |WARMING_ORDER| && forall s <- sections :: WellTyped(Bootstrap(s), sections[s])
    }

    ghost predicate WritesActive()
      requires Ok()
    {
      forall j :: 0 <= j < |WARMING_ORDER| && WARMING_ORDER[j] in sections ==> Active(writes[j])
    }

    /** No earlier write of the warming loop found the context finished. */
    ghost predicate Reaches(j: nat)
      requires Ok() && j <= |WARMING_ORDER|
    {
      forall i :: 0 <= i < j && WARMING_ORDER[i] in sections ==> !writes[i].doneBefore && !writes[i].doneAfter
    }

    /** What the response adds to the upstream history, section by section. */
    function Arrivals(n: nat, now: int): seq<Reply>
      requires n <= |WARMING_ORDER|
    {
      if n == 0 then []
      else
        var s := WARMING_ORDER[n - 1];
        Arrivals(n - 1, now) + if s in sections then [Reply(Bootstrap(s), sections[s], now)] else []
    }

    ghost function Keys(): set<string> {
      set s | s in sections :: Key(Bootstrap(s))
    }
  }

  /** Only sections the response contains arrive, with their values and at that time. */
  lemma {:induction false} ArrivalsAreTheResponse(turn: SectionTurn, n: nat, now: int)
    requires n <= |WARMING_ORDER|
    ensures forall reply <- turn.Arrivals(n, now) ::
      && reply.resource.Bootstrap? && reply.resource.section in turn.sections
      && reply.value == turn.sections[reply.resource.section] && reply.time == now
    decreases n
  {
    if n > 0 {
      ArrivalsAreTheResponse(turn, n - 1, now);
    }
  }

  ghost predicate SectionFetches(items: Items, turn: SectionTurn, s: Section, now: int) {
    && Active(turn.first) && !Serves(items, Key(Bootstrap(s)), turn.first, now)
    && Active(turn.second) && !Serves(items, Key(Bootstrap(s)), turn.second, now)
    && turn.fetched && s in turn.sections
  }

  /** The answer of a section lookup, None for an error; again store errors are never the reason. */
  ghost function SectionAnswer(items: Items, turn: SectionTurn, s: Section, now: int): (answer: Option<Value>)
    requires turn.Ok()
    ensures Active(turn.first) && Active(turn.second) && turn.fetched && s in turn.sections && turn.WritesActive() ==>
      answer.Some?
  {
    var key := Key(Bootstrap(s));
    if !Active(turn.first) then None
    else if Serves(items, key, turn.first, now) then Some(items[key].value)
    else if !Active(turn.second) then None
    else if Serves(items, key, turn.second, now) then Some(items[key].value)
    else if turn.fetched && s in turn.sections && turn.WritesActive() then Some(turn.sections[s])
    else None
  }

  /**
   * A fetch-through case by case. A finished context is an error and touches nothing further; a kept
   * resource whose entry is readable and unexpired is answered from it; everything else is fetched.
   */
  lemma ThroughMeaning(items: Items, turn: Turn, r: Resource, now: int)
    ensures
      var kept := !r.ClassicLeague? || r.page <= 3;
      var hit := !turn.read.fails && Key(r) in items && now <= items[Key(r)].expiration;
      var stopped := turn.done || (kept && (turn.read.doneBefore || turn.read.doneAfter));
      var answer := ThroughAnswer(items, turn, r, now);
      && (stopped ==> answer == None)
      && (!stopped && kept && hit ==> answer == Some(items[Key(r)].value))
      && (!stopped && kept && !hit && turn.reply.Some? ==>
            answer == if turn.write.doneBefore || turn.write.doneAfter then None else turn.reply)
      && (!stopped && !kept ==> answer == turn.reply)
      && (ThroughFetches(items, turn, r, now) <==> !stopped && !(kept && hit) && turn.reply.Some?)
      && (turn.reply == None && !(kept && hit) ==> answer == None)
  {
    hide Key;
  }

  /** A section lookup case by case, in the same way. */
  lemma SectionMeaning(items: Items, turn: SectionTurn, s: Section, now: int)
    requires turn.Ok()
    ensures
      var key := Key(Bootstrap(s));
      var live := key in items && now <= items[key].expiration;
      var stopped := turn.first.doneBefore || turn.first.doneAfter;
      var stoppedUnderGate := turn.second.doneBefore || turn.second.doneAfter;
      var answer := SectionAnswer(items, turn, s, now);
      && (stopped ==> answer == None)
      && (!stopped && live && !turn.first.fails ==> answer == Some(items[key].value))
      && (!stopped && !(live && !turn.first.fails) ==>
            && (stoppedUnderGate ==> answer == None)
            && (!stoppedUnderGate && live && !turn.second.fails ==> answer == Some(items[key].value))
            && (!stoppedUnderGate && !(live && !turn.second.fails) ==>
                  answer == if turn.fetched && s in turn.sections && turn.Reaches(|WARMING_ORDER|)
                            then Some(turn.sections[s]) else None))
      && (SectionFetches(items, turn, s, now) <==>
            && !stopped && !(live && !turn.first.fails) && !stoppedUnderGate && !(live && !turn.second.fails)
            && turn.fetched && s in turn.sections)
  {
    hide Key;
  }

  ghost predicate SameAt(a: Items, b: Items, key: string) {
    (key in a <==> key in b) && (key in a ==> a[key] == b[key])
  }

  ghost predicate SameExcept(a: Items, b: Items, keys: set<string>) {
    forall k :: k !in keys ==> SameAt(a, b, k)
  }

  /** One section after the loop has handled n: stored if it was reached and its write got in, else untouched. */
  ghost predicate WarmedAt(before: Items, items: Items, turn: SectionTurn, j: nat, n: nat, now: int)
    requires turn.Ok() && j < |WARMING_ORDER|
  {
    var s := WARMING_ORDER[j];
    var key := Key(Bootstrap(s));
    if j < n && s in turn.sections && turn.Reaches(j) && !turn.writes[j].doneBefore && !turn.writes[j].fails
    then key in items && items[key] == Entry(turn.sections[s], now + SectionTtl(s))
    else SameAt(before, items, key)
  }

  /** The first n sections were handled and the others not; after the whole loop n is the length of the order. */
  ghost predicate Warmed(before: Items, items: Items, turn: SectionTurn, n: nat, now: int)
    requires turn.Ok()
  {
    forall j :: 0 <= j < |WARMING_ORDER| ==> WarmedAt(before, items, turn, j, n, now)
  }

  lemma OtherKey(r: Resource, s: Resource)
    requires r != s
    ensures Key(r) != Key(s)
  {
    hide Key;
    if Key(r) == Key(s) {
      KeyInjective(r, s);
    }
  }

  /** The next section is handled by writing it if its write gets in, and by nothing otherwise. */
  lemma WarmNext(before: Items, items: Items, after: Items, turn: SectionTurn, i: nat, now: int)
    requires turn.Ok() && i < |WARMING_ORDER| && Warmed(before, items, turn, i, now) && turn.Reaches(i)
    requires
      var s := WARMING_ORDER[i];
      after == if s in turn.sections && Stores(turn.writes[i])
               then items[Key(Bootstrap(s)) := Entry(turn.sections[s], now + SectionTtl(s))] else items
    ensures Warmed(before, after, turn, i + 1, now)
  {
    hide Key;
    var n := i + 1;
    forall j | 0 <= j < |WARMING_ORDER| ensures WarmedAt(before, after, turn, j, n, now) {
      assert WarmedAt(before, items, turn, j, i, now);
      if j != i {
        OtherKey(Bootstrap(WARMING_ORDER[i]), Bootstrap(WARMING_ORDER[j]));
      }
    }
  }

  /** Once a write found the context finished, the rest of the sections are as they should stay. */
  lemma WarmingStops(before: Items, items: Items, turn: SectionTurn, i: nat, now: int)
    requires turn.Ok() && i < |WARMING_ORDER| && Warmed(before, items, turn, i + 1, now)
    requires WARMING_ORDER[i] in turn.sections && !Active(turn.writes[i])
    ensures Warmed(before, items, turn, |WARMING_ORDER|, now)
  {
    hide Key;
    var n := i + 1;
    forall j | 0 <= j < |WARMING_ORDER| ensures WarmedAt(before, items, turn, j, |WARMING_ORDER|, now) {
      assert WarmedAt(before, items, turn, j, n, now);
    }
  }

  /** Writing anything but a section leaves the sections as they were warmed. */
  lemma WarmedKeeps(before: Items, items: Items, turn: SectionTurn, n: nat, now: int, r: Resource, e: Entry)
    requires turn.Ok() && Warmed(before, items, turn, n, now) && !r.Bootstrap?
    ensures Warmed(before, items[Key(r) := e], turn, n, now)
  {
    hide Key;
    var after := items[Key(r) := e];
    forall j | 0 <= j < |WARMING_ORDER| ensures WarmedAt(before, after, turn, j, n, now) {
      assert WarmedAt(before, items, turn, j, n, now);
      OtherKey(Bootstrap(WARMING_ORDER[j]), r);
    }
  }

  /** Warming the sections never touches the entry of anything else. */
  lemma OtherKeysUntouched(before: Items, after: Items, turn: SectionTurn, r: Resource)
    requires SameExcept(before, after, turn.Keys()) && !r.Bootstrap?
    ensures SameAt(before, after, Key(r))
  {
    hide Key;
    if Key(r) in turn.Keys() {
      var s :| s in turn.sections && Key(Bootstrap(s)) == Key(r);
      KeyInjective(Bootstrap(s), r);
    }
  }

  /** GetNextGameWeek's answer, None for an error. */
  ghost function NextAnswer(items: Items, done: bool, read: Access, weeks: SectionTurn, write: Access, now: int): Option<int>
    requires weeks.Ok()
  {
    if done || !Active(read) then None
    else if Serves(items, Key(NextGameweek), read, now) then
      match items[Key(NextGameweek)].value
      case WeekId(id) => Some(id)
      case _ => None
    else
      var next := NextOf(SectionAnswer(items, weeks, Gameweeks, now));
      if Active(write) then next else None
  }

  function NextOf(weeks: Option<Value>): Option<int> {
    if weeks.Some? && weeks.value.WeekList? then FirstNext(weeks.value.weeks) else None
  }

  function FixtureOf(list: Option<Value>, id: int): Option<FixtureData> {
    if list.Some? && list.value.FixtureList? then FirstFixture(list.value.fixtures, id) else None
  }

  function CurrentOf(weeks: Option<Value>): Option<int> {
    if weeks.Some? && weeks.value.WeekList? then FirstCurrent(weeks.value.weeks) else None
  }

  /** GetFixture's answer: None for an error, Some(None) for a fixture that does not exist. */
  ghost function FixtureAnswer(items: Items, id: int, done: bool, read: Access, list: Turn, write: Access, now: int)
    : Option<Option<FixtureData>>
  {
    if done || !Active(read) then None
    else if Serves(items, Key(Fixture(id)), read, now) then
      match items[Key(Fixture(id))].value
      case OneFixture(f) => Some(Some(f))
      case _ => None
    else
      var all := ThroughAnswer(items, list, Fixtures, now);
      var found := FixtureOf(all, id);
      if all == None || (found.Some? && !Active(write)) then None else Some(found)
  }

  /** GetCurrentTeam's answer: the picks of the gameweek the section names current. */
  ghost function TeamAnswer(items: Items, manager: int, done: bool, weeks: SectionTurn, picks: int -> Turn, now: int)
    : Option<Value>
    requires weeks.Ok()
  {
    var gw := CurrentOf(SectionAnswer(items, weeks, Gameweeks, now));
    if done || gw == None then None
    else ThroughAnswer(items, picks(gw.value).(done := false), ManagerTeam(manager, gw.value), now)
  }

  /** The search loop of GetFixture. */
  method FindFixture(list: seq<FixtureData>, id: int) returns (found: Option<FixtureData>)
    ensures found == FirstFixture(list, id)
    ensures found == None <==> forall i :: 0 <= i < |list| ==> list[i].id != id
    ensures found.Some? ==> IsFirstFixture(list, id, found.value)
  {
    FirstFixtureMatches(list, id);
    for i := 0 to |list|
      invariant forall j :: 0 <= j < i ==> list[j].id != id
    {
      if list[i].id == id {
        assert IsFirstFixture(list, id, list[i]);
        return Some(list[i]);
      }
    }
    return None;
  }

  /** The search loop of GetNextGameWeek. */
  method FindNext(list: seq<Week>) returns (found: Option<int>)
    ensures found == FirstNext(list)
    ensures found == None <==> forall i :: 0 <= i < |list| ==> !list[i].isNext
    ensures found.Some? ==> IsFirstNext(list, found.value)
  {
    FirstNextMatches(list);
    for i := 0 to |list|
      invariant forall j :: 0 <= j < i ==> !list[j].isNext
    {
      if list[i].isNext {
        assert IsFirstNext(list, list[i].id);
        return Some(list[i].id);
      }
    }
    return None;
  }

  /** The search loop of getCurrentGameWeek. */
  method FindCurrent(list: seq<Week>) returns (found: Option<int>)
    ensures found == FirstCurrent(list)
    ensures found == None <==> forall i :: 0 <= i < |list| ==> !list[i].isCurrent
    ensures found.Some? ==> IsFirstCurrent(list, found.value)
  {
    FirstCurrentMatches(list);
    for i := 0 to |list|
      invariant forall j :: 0 <= j < i ==> !list[j].isCurrent
    {
      if list[i].isCurrent {
        assert IsFirstCurrent(list, list[i].id);
        return Some(list[i].id);
      }
    }
    return None;
  }

  class Service {
    var items: Items
    ghost var upstream: seq<Reply>

    ghost predicate Valid()
      reads this
    {
      Sound(items, upstream)
    }

    constructor ()
      ensures Valid() && items == map[] && upstream == []
    {
      items, upstream := map[], [];
    }

    /** Eviction, deletion or clearing by anybody, at any moment between operations. */
    method Forget(keys: set<string>)
      requires Valid()
      modifies this`items
      ensures Valid() && items == old(items) - keys
    {
      DropKeepsSound(items, upstream, keys);
      items := items - keys;
    }

    /** cacheGet: a store error is reported and counts as a miss; only a finished context is an error. */
    method CacheGet(key: string, a: Access, now: int) returns (r: Result<Option<Value>>)
      ensures r ==
        if a.doneBefore || a.doneAfter then Err
        else if !a.fails && key in items && now <= items[key].expiration then Ok(Some(items[key].value))
        else Ok(None)
    {
      if a.doneBefore {
        return Err;
      }
      var hit := !a.fails && Live(items, key, now);
      if a.doneAfter {
        return Err;
      }
      if a.fails {
        return Ok(None);
      }
      return Ok(if hit then Some(items[key].value) else None);
    }

    /** cacheSet: best effort, except that a finished context is an error even after a successful write. */
    method CacheSet(r: Resource, v: Value, a: Access, now: int) returns (ok: bool)
      requires Valid() && Fresh(upstream, r, v, now + TtlOf(r) - MaxAge(r))
      modifies this`items
      ensures Valid()
      ensures ok <==> !a.doneBefore && !a.doneAfter
      ensures items == if !a.doneBefore && !a.fails then old(items)[Key(r) := Entry(v, now + TtlOf(r))] else old(items)
    {
      if a.doneBefore {
        return false;
      }
      if !a.fails {
        WriteKeepsSound(items, upstream, r, v, now);
        items := items[Key(r) := Entry(v, now + TtlOf(r))];
      }
      return !a.doneAfter;
    }

    /** A decoded response arrives. */
    ghost method Receive(r: Resource, v: Value, now: int)
      requires Valid() && !Derived(r) && WellTyped(r, v)
      modifies this`upstream
      ensures Valid() && upstream == old(upstream) + [Reply(r, v, now)]
      ensures Fresh(upstream, r, v, now)
    {
      upstream := upstream + [Reply(r, v, now)];
      SoundKeeps(items, old(upstream), upstream);
      ReplyIsFresh(old(upstream), r, v, now);
    }

    /**
     * The shape of getAllFixtures, GetManager, GetManagerHistory, getPlayerHistory, GetEventLive and
     * GetClassicLeagueStandings: read, else fetch and write, both best effort. Whatever is answered is
     * at most one TTL old.
     */
    method GetThrough(r: Resource, turn: Turn, now: int) returns (result: Result<Value>)
      requires Valid() && !Derived(r)
      requires turn.reply.Some? ==> WellTyped(r, turn.reply.value)
      modifies this
      ensures Valid()
      ensures result.Ok? ==>
        Fresh(upstream, r, result.value, now - TtlOf(r)) && Answered(upstream, r, result.value, now - TtlOf(r))
      ensures result == AsResult(ThroughAnswer(old(items), turn, r, now))
      ensures upstream == old(upstream) + if ThroughFetches(old(items), turn, r, now) then [Reply(r, turn.reply.value, now)] else []
      ensures items ==
        if ThroughFetches(old(items), turn, r, now) && Cacheable(r) && Stores(turn.write)
        then old(items)[Key(r) := Entry(turn.reply.value, now + TtlOf(r))] else old(items)
    {
      hide Key, Fresh, Sound, Answered;
      if turn.done {
        return Err;
      }
      if Cacheable(r) {
        var cached := CacheGet(Key(r), turn.read, now);
        if cached.Err? {
          return Err;
        }
        if cached.value.Some? {
          SoundEntry(items, upstream, r);
          FreshKeeps(upstream, upstream, r, cached.value.value, items[Key(r)].expiration - MaxAge(r), now - TtlOf(r));
          FreshMeaning(upstream, r, cached.value.value, now - TtlOf(r));
          return Ok(cached.value.value);
        }
      }
      if turn.reply == None {
        return Err;
      }
      var v := turn.reply.value;
      Receive(r, v, now);
      FreshKeeps(upstream, upstream, r, v, now, now - TtlOf(r));
      FreshMeaning(upstream, r, v, now - TtlOf(r));
      if Cacheable(r) {
        var ok := CacheSet(r, v, turn.write, now);
        if !ok {
          return Err;
        }
      }
      return Ok(v);
    }

    /** A live entry under its own key is the answer of a derived read; it is at most two TTLs old. */
    method ReadDerived(r: Resource, read: Access, now: int) returns (cached: Result<Option<Value>>)
      requires Valid() && Derived(r)
      ensures cached.Err? <==> !Active(read)
      ensures Active(read) ==>
        cached == Ok(if Serves(items, Key(r), read, now) then Some(items[Key(r)].value) else None)
      ensures cached.Ok? && cached.value.Some? ==>
        Fresh(upstream, r, cached.value.value, now - MaxAge(r)) && WellTyped(r, cached.value.value)
    {
      hide Key, Fresh, Sound;
      cached := CacheGet(Key(r), read, now);
      if cached.Ok? && cached.value.Some? {
        SoundEntry(items, upstream, r);
        FreshKeeps(upstream, upstream, r, cached.value.value, items[Key(r)].expiration - MaxAge(r), now - MaxAge(r));
        FreshIsWellTyped(upstream, r, cached.value.value, now - MaxAge(r));
      }
    }

    /**
     * GetFixture: a fixture of its own key, else the first match in the list, stored for another TTL.
     * A fixture is reported missing only when a list at most one TTL old does not have it.
     */
    method GetFixture(id: int, done: bool, read: Access, list: Turn, write: Access, now: int)
      returns (result: Result<Option<FixtureData>>)
      requires Valid() && (list.reply.Some? ==> list.reply.value.FixtureList?)
      modifies this
      ensures Valid()
      ensures result.Ok? && result.value.Some? ==>
        && FixtureSeen(upstream, id, result.value.value, now - 20 * MINUTE)
        && result.value.value.id == id
      ensures result.Ok? && result.value == None ==>
        exists list: seq<FixtureData> :: Answered(upstream, Fixtures, FixtureList(list), now - 10 * MINUTE) && forall i :: 0 <= i < |list| ==> list[i].id != id
      ensures result == AsResult(FixtureAnswer(old(items), id, done, read, list, write, now))
      ensures
        var onward := !done && Active(read) && !Serves(old(items), Key(Fixture(id)), read, now);
        && SameExcept(old(items), items, {Key(Fixture(id)), Key(Fixtures)})
        && upstream == old(upstream) +
             (if onward && ThroughFetches(old(items), list, Fixtures, now) then [Reply(Fixtures, list.reply.value, now)] else [])
      ensures
        var onward := !done && Active(read) && !Serves(old(items), Key(Fixture(id)), read, now);
        var found := FixtureOf(ThroughAnswer(old(items), list, Fixtures, now), id);
        if onward && found.Some? && Stores(write)
        then Key(Fixture(id)) in items && items[Key(Fixture(id))] == Entry(OneFixture(found.value), now + FIXTURES_TTL)
        else SameAt(old(items), items, Key(Fixture(id)))
      ensures
        var onward := !done && Active(read) && !Serves(old(items), Key(Fixture(id)), read, now);
        if onward && ThroughFetches(old(items), list, Fixtures, now) && Stores(list.write)
        then Key(Fixtures) in items && items[Key(Fixtures)] == Entry(list.reply.value, now + FIXTURES_TTL)
        else SameAt(old(items), items, Key(Fixtures))
    {
      hide Key, Fresh, Sound, Answered, FixtureSeen, IsFirstFixture, ThroughAnswer;
      if done {
        return Err;
      }
      var r := Fixture(id);
      var cached := ReadDerived(r, read, now);
      if cached.Err? {
        return Err;
      }
      if cached.value.Some? {
        FreshFixtureHasId(upstream, id, cached.value.value, now - MaxAge(r));
        FreshMeaning(upstream, r, cached.value.value, now - MaxAge(r));
        return Ok(Some(cached.value.value.fixture));
      }
      OtherKey(r, Fixtures);
      var all := GetThrough(Fixtures, list, now);
      if all.Err? {
        return Err;
      }
      FreshIsWellTyped(upstream, Fixtures, all.value, now - FIXTURES_TTL);
      var found := FindFixture(all.value.fixtures, id);
      if found == None {
        return Ok(None);
      }
      var v := OneFixture(found.value);
      DerivedIsFresh(upstream, r, all.value, v, now - FIXTURES_TTL);
      FreshKeeps(upstream, upstream, r, v, now - FIXTURES_TTL, now - 2 * FIXTURES_TTL);
      FreshMeaning(upstream, r, v, now - 2 * FIXTURES_TTL);
      var ok := CacheSet(r, v, write, now);
      return if ok then Ok(found) else Err;
    }

    /**
     * The warming loop of bootstrapSection: each section the response has, in order, best effort, until
     * the context is found finished. A section the response lacks is never written.
     */
    method Warm(turn: SectionTurn, now: int) returns (ok: bool)
      requires Valid() && turn.Ok()
      requires forall s <- turn.sections :: Fresh(upstream, Bootstrap(s), turn.sections[s], now)
      modifies this`items
      ensures Valid()
      ensures ok <==> turn.WritesActive()
      ensures SameExcept(old(items), items, turn.Keys())
      ensures Warmed(old(items), items, turn, |WARMING_ORDER|, now)
    {
      hide Key, Sound, Fresh, Warmed;
      var i := 0;
      NothingWarmed(items, turn, now);
      while i < |WARMING_ORDER|
        invariant 0 <= i <= |WARMING_ORDER| && Valid()
        invariant SameExcept(old(items), items, turn.Keys())
        invariant Warmed(old(items), items, turn, i, now)
        invariant turn.Reaches(i)
      {
        var s := WARMING_ORDER[i];
        ghost var before := items;
        if s in turn.sections {
          FreshKeeps(upstream, upstream, Bootstrap(s), turn.sections[s], now, now + SectionTtl(s) - MaxAge(Bootstrap(s)));
          ok := CacheSet(Bootstrap(s), turn.sections[s], turn.writes[i], now);
          WarmNext(old(items), before, items, turn, i, now);
          if !ok {
            WarmingStops(old(items), items, turn, i, now);
            return;
          }
        } else {
          WarmNext(old(items), before, items, turn, i, now);
        }
        i := i + 1;
      }
      return true;
    }

    /** The sections of a decoded response arrive together. */
    ghost method ReceiveAll(turn: SectionTurn, now: int)
      requires Valid() && turn.Ok()
      modifies this`upstream
      ensures Valid() && upstream == old(upstream) + turn.Arrivals(|WARMING_ORDER|, now)
      ensures forall s <- turn.sections :: Fresh(upstream, Bootstrap(s), turn.sections[s], now)
    {
      hide Key, Fresh, Sound;
      var i := 0;
      while i < |WARMING_ORDER|
        invariant 0 <= i <= |WARMING_ORDER| && Valid()
        invariant upstream == old(upstream) + turn.Arrivals(i, now)
        invariant forall j :: 0 <= j < i && WARMING_ORDER[j] in turn.sections ==>
          Fresh(upstream, Bootstrap(WARMING_ORDER[j]), turn.sections[WARMING_ORDER[j]], now)
      {
        var s := WARMING_ORDER[i];
        if s in turn.sections {
          ghost var before := upstream;
          Receive(Bootstrap(s), turn.sections[s], now);
          forall j | 0 <= j < i && WARMING_ORDER[j] in turn.sections
            ensures Fresh(upstream, Bootstrap(WARMING_ORDER[j]), turn.sections[WARMING_ORDER[j]], now)
          {
            FreshKeeps(before, upstream, Bootstrap(WARMING_ORDER[j]), turn.sections[WARMING_ORDER[j]], now, now);
          }
        }
        i := i + 1;
      }
      forall s <- turn.sections ensures Fresh(upstream, Bootstrap(s), turn.sections[s], now) {
        var j := PlaceOf(s);
      }
    }

    /**
     * bootstrapSection, uncontended: read, read again under the gate, then one fetch that warms every
     * section present. The answer is at most one TTL old.
     */
    method GetSection(s: Section, turn: SectionTurn, now: int) returns (result: Result<Value>)
      requires Valid() && turn.Ok()
      modifies this
      ensures Valid()
      ensures result.Ok? ==>
        && Fresh(upstream, Bootstrap(s), result.value, now - SectionTtl(s))
        && Answered(upstream, Bootstrap(s), result.value, now - SectionTtl(s))
      ensures result == AsResult(SectionAnswer(old(items), turn, s, now))
      ensures SameExcept(old(items), items, turn.Keys())
      ensures SectionFetches(old(items), turn, s, now) ==>
        && upstream == old(upstream) + turn.Arrivals(|WARMING_ORDER|, now)
        && Warmed(old(items), items, turn, |WARMING_ORDER|, now)
      ensures !SectionFetches(old(items), turn, s, now) ==> items == old(items) && upstream == old(upstream)
    {
      hide Key, Fresh, Sound, Warmed, Answered;
      var r := Bootstrap(s);
      var cached := CacheGet(Key(r), turn.first, now);
      if cached.Err? {
        return Err;
      }
      if cached.value == None {
        cached := CacheGet(Key(r), turn.second, now);
        if cached.Err? {
          return Err;
        }
      }
      if cached.value.Some? {
        SoundEntry(items, upstream, r);
        FreshKeeps(upstream, upstream, r, cached.value.value, items[Key(r)].expiration - MaxAge(r), now - TtlOf(r));
        FreshMeaning(upstream, r, cached.value.value, now - TtlOf(r));
        return Ok(cached.value.value);
      }
      if !turn.fetched || s !in turn.sections {
        return Err;
      }
      ReceiveAll(turn, now);
      var ok := Warm(turn, now);
      if !ok {
        return Err;
      }
      FreshKeeps(upstream, upstream, r, turn.sections[s], now, now - TtlOf(r));
      FreshMeaning(upstream, r, turn.sections[s], now - TtlOf(r));
      return Ok(turn.sections[s]);
    }

    /** GetNextGameWeek: its own entry, else the first week marked next, stored for another TTL. */
    method GetNextGameweek(done: bool, read: Access, weeks: SectionTurn, write: Access, now: int) returns (result: Result<int>)
      requires Valid() && weeks.Ok()
      modifies this
      ensures Valid()
      ensures result.Ok? ==> NamedNext(upstream, result.value, now - 6 * MINUTE)
      ensures !done && Active(read) && !Serves(old(items), Key(NextGameweek), read, now) && Active(write) ==>
        match SectionAnswer(old(items), weeks, Gameweeks, now)
        case Some(WeekList(list)) =>
          && (result == Err <==> forall i :: 0 <= i < |list| ==> !list[i].isNext)
          && (result.Ok? ==> IsFirstNext(list, result.value))
        case _ => true
      ensures result == AsResult(NextAnswer(old(items), done, read, weeks, write, now))
      ensures
        var onward := !done && Active(read) && !Serves(old(items), Key(NextGameweek), read, now);
        && SameExcept(old(items), items, weeks.Keys() + {Key(NextGameweek)})
        && upstream == old(upstream) +
             (if onward && SectionFetches(old(items), weeks, Gameweeks, now) then weeks.Arrivals(|WARMING_ORDER|, now) else [])
        && (if onward && SectionFetches(old(items), weeks, Gameweeks, now)
            then Warmed(old(items), items, weeks, |WARMING_ORDER|, now)
            else SameExcept(old(items), items, {Key(NextGameweek)}))
      ensures
        var onward := !done && Active(read) && !Serves(old(items), Key(NextGameweek), read, now);
        var next := NextOf(SectionAnswer(old(items), weeks, Gameweeks, now));
        if onward && next.Some? && Stores(write)
        then Key(NextGameweek) in items && items[Key(NextGameweek)] == Entry(WeekId(next.value), now + GAMEWEEKS_TTL)
        else SameAt(old(items), items, Key(NextGameweek))
    {
      hide Key, Fresh, Sound, Warmed, Answered, NamedNext, IsFirstNext, SectionAnswer, SectionFetches;
      if done {
        return Err;
      }
      var r := NextGameweek;
      var cached := ReadDerived(r, read, now);
      if cached.Err? {
        return Err;
      }
      if cached.value.Some? {
        FreshMeaning(upstream, r, cached.value.value, now - MaxAge(r));
        return Ok(cached.value.value.id);
      }
      var all := GetSection(Gameweeks, weeks, now);
      OtherKeysUntouched(old(items), items, weeks, r);
      if all.Err? {
        return Err;
      }
      FreshIsWellTyped(upstream, Bootstrap(Gameweeks), all.value, now - GAMEWEEKS_TTL);
      var found := FindNext(all.value.weeks);
      if found == None {
        return Err;
      }
      var v := WeekId(found.value);
      DerivedIsFresh(upstream, r, all.value, v, now - GAMEWEEKS_TTL);
      FreshKeeps(upstream, upstream, r, v, now - GAMEWEEKS_TTL, now - 2 * GAMEWEEKS_TTL);
      FreshMeaning(upstream, r, v, now - 2 * GAMEWEEKS_TTL);
      if SectionFetches(old(items), weeks, Gameweeks, now) {
        WarmedKeeps(old(items), items, weeks, |WARMING_ORDER|, now, r, Entry(v, now + TtlOf(r)));
      }
      var ok := CacheSet(r, v, write, now);
      return if ok then Ok(found.value) else Err;
    }

    method GetCurrentGameweek(weeks: SectionTurn, now: int) returns (result: Result<int>)
      requires Valid() && weeks.Ok()
      modifies this
      ensures Valid()
      ensures result.Ok? ==> NamedCurrent(upstream, result.value, now - 3 * MINUTE)
      ensures
        match SectionAnswer(old(items), weeks, Gameweeks, now)
        case Some(WeekList(list)) =>
          && (result == Err <==> forall i :: 0 <= i < |list| ==> !list[i].isCurrent)
          && (result.Ok? ==> IsFirstCurrent(list, result.value))
        case _ => result == Err
      ensures result == AsResult(CurrentOf(SectionAnswer(old(items), weeks, Gameweeks, now)))
      ensures SameExcept(old(items), items, weeks.Keys())
      ensures
        if SectionFetches(old(items), weeks, Gameweeks, now)
        then upstream == old(upstream) + weeks.Arrivals(|WARMING_ORDER|, now)
          && Warmed(old(items), items, weeks, |WARMING_ORDER|, now)
        else upstream == old(upstream) && items == old(items)
    {
      hide Key, Sound, Warmed, Answered, IsFirstCurrent, SectionAnswer, SectionFetches;
      var all := GetSection(Gameweeks, weeks, now);
      if all.Err? {
        return Err;
      }
      FreshIsWellTyped(upstream, Bootstrap(Gameweeks), all.value, now - GAMEWEEKS_TTL);
      var found := FindCurrent(all.value.weeks);
      return AsResult(found);
    }

    /**
     * GetCurrentTeam: the picks answered belong to the very gameweek that metadata at most three
     * minutes old named current, and are themselves at most five minutes old.
     */
    method GetCurrentTeam(manager: int, done: bool, weeks: SectionTurn, picks: int -> Turn, now: int)
      returns (result: Result<Value>)
      requires Valid() && weeks.Ok()
      requires forall gw :: picks(gw).reply.Some? ==> picks(gw).reply.value.Opaque?
      modifies this
      ensures Valid()
      ensures result.Ok? ==>
        exists gw: int ::
          && NamedCurrent(upstream, gw, now - 3 * MINUTE)
          && Answered(upstream, ManagerTeam(manager, gw), result.value, now - 5 * MINUTE)
      ensures !done ==> PicksOfCurrent(old(items), manager, weeks, picks, now, result)
      ensures result == AsResult(TeamAnswer(old(items), manager, done, weeks, picks, now))
      ensures done ==> items == old(items) && upstream == old(upstream)
      ensures !done ==>
        var gw := CurrentOf(SectionAnswer(old(items), weeks, Gameweeks, now));
        var arrivals := if SectionFetches(old(items), weeks, Gameweeks, now) then weeks.Arrivals(|WARMING_ORDER|, now) else [];
        if gw == None then upstream == old(upstream) + arrivals && SameExcept(old(items), items, weeks.Keys())
        else
          var r, turn := ManagerTeam(manager, gw.value), picks(gw.value).(done := false);
          && SameExcept(old(items), items, weeks.Keys() + {Key(r)})
          && upstream == old(upstream) + arrivals + (if ThroughFetches(old(items), turn, r, now) then [Reply(r, turn.reply.value, now)] else [])
          && (if ThroughFetches(old(items), turn, r, now) && Stores(turn.write)
              then Key(r) in items && items[Key(r)] == Entry(turn.reply.value, now + MANAGER_TTL)
              else SameAt(old(items), items, Key(r)))
      ensures !done ==>
        if SectionFetches(old(items), weeks, Gameweeks, now)
        then Warmed(old(items), items, weeks, |WARMING_ORDER|, now)
        else forall s: Section :: SameAt(old(items), items, Key(Bootstrap(s)))
    {
      hide Key, Fresh, Sound, Warmed, Answered, NamedCurrent, PicksOfCurrent, SectionAnswer, SectionFetches;
      if done {
        return Err;
      }
      var current := GetCurrentGameweek(weeks, now);
      TeamMeaning(old(items), manager, weeks, picks, now);
      if current.Err? {
        return Err;
      }
      ghost var before := upstream;
      var r, turn := ManagerTeam(manager, current.value), picks(current.value).(done := false);
      OtherKeysUntouched(old(items), items, weeks, r);
      if SectionFetches(old(items), weeks, Gameweeks, now) && turn.reply.Some? {
        WarmedKeeps(old(items), items, weeks, |WARMING_ORDER|, now, r, Entry(turn.reply.value, now + TtlOf(r)));
      }
      forall s: Section ensures Key(Bootstrap(s)) != Key(r) {
        OtherKey(Bootstrap(s), r);
      }
      result := GetThrough(r, turn, now);
      NamedCurrentKeeps(before, upstream, current.value, now - 3 * MINUTE);
    }
  }

  lemma NothingWarmed(items: Items, turn: SectionTurn, now: int)
    requires turn.Ok()
    ensures Warmed(items, items, turn, 0, now)
  {
  }

  lemma PlaceOf(s: Section) returns (j: nat)
    ensures j < |WARMING_ORDER| && WARMING_ORDER[j] == s
  {
    j := match s case Teams => 0 case Players => 1 case Gameweeks => 2 case Settings => 3;
  }

  /** Said of the week list itself: the picks of its first current week, and an error without one. */
  ghost predicate PicksOfCurrent(
    items: Items, manager: int, weeks: SectionTurn, picks: int -> Turn, now: int, result: Result<Value>)
    requires weeks.Ok()
  {
    match SectionAnswer(items, weeks, Gameweeks, now)
    case Some(WeekList(list)) =>
      && ((forall i :: 0 <= i < |list| ==> !list[i].isCurrent) ==> result == Err)
      && (forall gw :: IsFirstCurrent(list, gw) ==>
            result == AsResult(ThroughAnswer(items, picks(gw).(done := false), ManagerTeam(manager, gw), now)))
    case _ => result == Err
  }

  lemma TeamMeaning(items: Items, manager: int, weeks: SectionTurn, picks: int -> Turn, now: int)
    requires weeks.Ok()
    ensures PicksOfCurrent(items, manager, weeks, picks, now, AsResult(TeamAnswer(items, manager, false, weeks, picks, now)))
  {
    hide SectionAnswer, ThroughAnswer, IsFirstCurrent;
    match SectionAnswer(items, weeks, Gameweeks, now) {
      case Some(WeekList(list)) => FirstCurrentMatches(list);
      case _ =>
    }
  }

  lemma NamedCurrentKeeps(upstream: seq<Reply>, more: seq<Reply>, gw: int, since: int)
    requires NamedCurrent(upstream, gw, since) && upstream <= more
    ensures NamedCurrent(more, gw, since)
  {
    var list :| Answered(upstream, Bootstrap(Gameweeks), WeekList(list), since) && IsFirstCurrent(list, gw);
    var i :| 0 <= i < |upstream| && upstream[i].resource == Bootstrap(Gameweeks) && upstream[i].value == WeekList(list)
      && since <= upstream[i].time;
    assert more[i] == upstream[i];
    assert Answered(more, Bootstrap(Gameweeks), WeekList(list), since);
  }
}
