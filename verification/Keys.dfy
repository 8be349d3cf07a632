/** The cache keys of every resource the SDK stores, and the Redis prefixing of keys. */
module Keys {
  import opened Throttle
  import opened CachePolicy

  datatype Resource =
    | Bootstrap(section: Section)
    | NextGameweek
    | Fixtures
    | Fixture(id: int)
    | Manager(id: int)
    | ManagerTeam(manager: int, gameweek: int)
    | ManagerHistory(id: int)
    | ClassicLeague(league: int, page: int)
    | PlayerHistory(id: int)
    | EventLive(id: int)

  function DigitChar(d: nat): char
    requires d < 10
  {
    ('0' as int + d) as char
  }

  function Digits(n: nat): string {
    if n < 10 then [DigitChar(n)] else Digits(n / 10) + [DigitChar(n % 10)]
  }

  /** fmt's %d. */
  function Decimal(n: int): string {
    if n < 0 then "-" + Digits(-n) else Digits(n)
  }

  function Key(r: Resource): string {
    match r
    case Bootstrap(Teams) => "teams"
    case Bootstrap(Players) => "players"
    case Bootstrap(Gameweeks) => "gameweeks"
    case Bootstrap(Settings) => "settings"
    case NextGameweek => "next_gameweek"
    case Fixtures => "fixtures"
    case Fixture(id) => "fixture_" + Decimal(id)
    case Manager(id) => "manager_" + Decimal(id)
    case ManagerTeam(manager, gameweek) => "manager_team_" + Decimal(manager) + "_gw" + Decimal(gameweek)
    case ManagerHistory(id) => "manager_history_" + Decimal(id)
    case ClassicLeague(league, page) => "classic_league_" + Decimal(league) + "_page_" + Decimal(page)
    case PlayerHistory(id) => "player_history_" + Decimal(id)
    case EventLive(id) => "event_live_" + Decimal(id)
  }

  // ---------- decimal printing ----------

  ghost predicate AllDigits(s: string) {
    forall i :: 0 <= i < |s| ==> IsDigit(s[i])
  }

  lemma {:induction false} DigitsDenote(n: nat)
    ensures Digits(n) != "" && AllDigits(Digits(n)) && ValueOf(Digits(n)) == n
    decreases n
  {
    if n < 10 {
      assert Digits(n)[..0] == "";
    } else {
      DigitsDenote(n / 10);
      var s := Digits(n / 10);
      assert (s + [DigitChar(n % 10)])[..|s|] == s;
    }
  }

  /** A digit or a minus sign: all that %d ever prints. */
  predicate IsNumeral(c: char) {
    IsDigit(c) || c == '-'
  }

  ghost predicate OnlyNumerals(s: string) {
    forall i :: 0 <= i < |s| ==> IsNumeral(s[i])
  }

  lemma DecimalShape(n: int)
    ensures Decimal(n) != "" && OnlyNumerals(Decimal(n))
    ensures n < 0 <==> Decimal(n)[0] == '-'
  {
    DigitsDenote(if n < 0 then -n else n);
    if n >= 0 {
      assert IsDigit(Decimal(n)[0]);
    }
  }

  lemma DecimalInjective(m: int, n: int)
    requires Decimal(m) == Decimal(n)
    ensures m == n
  {
    DecimalShape(m);
    DecimalShape(n);
    DigitsDenote(if m < 0 then -m else m);
    DigitsDenote(if n < 0 then -n else n);
    if m < 0 {
      assert Decimal(m)[1..] == Digits(-m) && Decimal(n)[1..] == Digits(-n);
    }
  }

  // ---------- telling keys apart ----------

  /** Which resource class a key belongs to, read off a few of its characters. */
  function KindOf(key: string): nat {
    if |key| < 5 then 0
    else match key[0]
      case 't' => 1
      case 'g' => 2
      case 's' => 3
      case 'n' => 4
      case 'c' => 5
      case 'e' => 6
      case 'p' => if |key| > 6 && key[6] == '_' then 7 else 8
      case 'f' => if |key| > 7 && key[7] == '_' then 9 else 10
      case 'm' => if |key| <= 8 then 0 else if key[8] == 't' then 11 else if key[8] == 'h' then 12 else 13
      case _ => 0
  }

  function KindOfResource(r: Resource): nat {
    match r
    case Bootstrap(Teams) => 1
    case Bootstrap(Players) => 8
    case Bootstrap(Gameweeks) => 2
    case Bootstrap(Settings) => 3
    case NextGameweek => 4
    case Fixtures => 10
    case Fixture(_) => 9
    case Manager(_) => 13
    case ManagerTeam(_, _) => 11
    case ManagerHistory(_) => 12
    case ClassicLeague(_, _) => 5
    case PlayerHistory(_) => 7
    case EventLive(_) => 6
  }

  lemma KeyShowsItsKind(r: Resource)
    ensures KindOf(Key(r)) == KindOfResource(r)
  {
    match r {
      case Manager(id) =>
        DecimalShape(id);
        assert Key(r)[8] == Decimal(id)[0];
        assert IsNumeral(Decimal(id)[0]);
      case _ =>
    }
  }

  lemma SameTail(prefix: string, a: string, b: string)
    requires prefix + a == prefix + b
    ensures a == b
  {
    assert (prefix + a)[|prefix|..] == a && (prefix + b)[|prefix|..] == b;
  }

  lemma BeyondNumerals(prefix: string, a: string, rest: string, i: nat)
    requires OnlyNumerals(a) && |prefix| + i < |prefix + a + rest| && !IsNumeral((prefix + a + rest)[|prefix| + i])
    ensures |a| <= i
  {
  }

  /** Two runs of numerals in front of the same mark are equal, and so is what follows the mark. */
  lemma SameAroundMark(prefix: string, a: string, b: string, mark: string, x: string, y: string)
    requires OnlyNumerals(a) && OnlyNumerals(b)
    requires mark != "" && !IsNumeral(mark[0])
    requires prefix + a + mark + x == prefix + b + mark + y
    ensures a == b && x == y
  {
    var whole, n := prefix + a + mark + x, |prefix|;
    assert whole == prefix + b + mark + y == prefix + b + (mark + y) == prefix + a + (mark + x);
    assert whole[n + |a|] == mark[0] && whole[n + |b|] == mark[0];
    BeyondNumerals(prefix, b, mark + y, |a|);
    BeyondNumerals(prefix, a, mark + x, |b|);
    assert whole[n..n + |a|] == a && whole[n..n + |b|] == b;
    assert whole[n + |a| + |mark|..] == x && whole[n + |b| + |mark|..] == y;
  }

  lemma PairTail(prefix: string, mark: string, m: int, n: int, p: int, q: int)
    requires mark != "" && !IsNumeral(mark[0])
    requires prefix + Decimal(m) + mark + Decimal(n) == prefix + Decimal(p) + mark + Decimal(q)
    ensures m == p && n == q
  {
    DecimalShape(m);
    DecimalShape(p);
    hide Decimal, OnlyNumerals;
    SameAroundMark(prefix, Decimal(m), Decimal(p), mark, Decimal(n), Decimal(q));
    DecimalInjective(m, p);
    DecimalInjective(n, q);
  }

  lemma NumberTail(prefix: string, m: int, n: int)
    requires prefix + Decimal(m) == prefix + Decimal(n)
    ensures m == n
  {
    SameTail(prefix, Decimal(m), Decimal(n));
    DecimalInjective(m, n);
  }

  /** Distinct resources never share a key, whatever integers they are numbered by. */
  lemma KeyInjective(r: Resource, s: Resource)
    requires Key(r) == Key(s)
    ensures r == s
  {
    KeyShowsItsKind(r);
    KeyShowsItsKind(s);
    hide Decimal, KindOf;
    match r {
      case Fixture(id) => NumberTail("fixture_", id, s.id);
      case Manager(id) => NumberTail("manager_", id, s.id);
      case ManagerTeam(m, g) => PairTail("manager_team_", "_gw", m, g, s.manager, s.gameweek);
      case ManagerHistory(id) => NumberTail("manager_history_", id, s.id);
      case ClassicLeague(l, p) => PairTail("classic_league_", "_page_", l, p, s.league, s.page);
      case PlayerHistory(id) => NumberTail("player_history_", id, s.id);
      case EventLive(id) => NumberTail("event_live_", id, s.id);
      case _ =>
    }
  }

  // ---------- Redis prefixes ----------

  function PrefixedKey(prefix: string, key: string): string {
    if prefix == "" then key else prefix + ":" + key
  }

  ghost predicate NoColon(s: string) {
    forall i :: 0 <= i < |s| ==> s[i] != ':'
  }

  lemma DecimalHasNoColon(prefix: string, n: int)
    requires NoColon(prefix)
    ensures NoColon(prefix + Decimal(n))
  {
    DecimalShape(n);
    hide Decimal;
  }

  lemma NoColonBetween(a: string, b: string)
    requires NoColon(a) && NoColon(b)
    ensures NoColon(a + b)
  {
  }

  lemma KeyHasNoColon(r: Resource)
    ensures NoColon(Key(r))
  {
    match r {
      case Fixture(id) => DecimalHasNoColon("fixture_", id);
      case Manager(id) => DecimalHasNoColon("manager_", id);
      case ManagerTeam(m, g) =>
        DecimalHasNoColon("manager_team_", m);
        NoColonBetween("manager_team_" + Decimal(m), "_gw");
        DecimalHasNoColon("manager_team_" + Decimal(m) + "_gw", g);
      case ManagerHistory(id) => DecimalHasNoColon("manager_history_", id);
      case ClassicLeague(l, p) =>
        DecimalHasNoColon("classic_league_", l);
        NoColonBetween("classic_league_" + Decimal(l), "_page_");
        DecimalHasNoColon("classic_league_" + Decimal(l) + "_page_", p);
      case PlayerHistory(id) => DecimalHasNoColon("player_history_", id);
      case EventLive(id) => DecimalHasNoColon("event_live_", id);
      case _ =>
    }
    hide Decimal;
  }

  lemma NotAfterLastColon(p: string, k: string, i: nat)
    requires NoColon(k) && i < |p + ":" + k| && (p + ":" + k)[i] == ':'
    ensures i <= |p|
  {
  }

  lemma LastColonSplits(p: string, q: string, k: string, l: string)
    requires NoColon(k) && NoColon(l)
    requires p + ":" + k == q + ":" + l
    ensures p == q && k == l
  {
    var whole := p + ":" + k;
    assert whole[|p|] == ':' && whole[|q|] == ':';
    NotAfterLastColon(p, k, |q|);
    NotAfterLastColon(q, l, |p|);
    assert whole[..|p|] == p && whole[..|q|] == q;
    assert whole[|p| + 1..] == k && whole[|q| + 1..] == l;
  }

  /** Stored keys are distinct over all prefixes at once, including the empty one and prefixes with colons in them. */
  lemma StoredKeyInjective(p: string, r: Resource, q: string, s: Resource)
    requires PrefixedKey(p, Key(r)) == PrefixedKey(q, Key(s))
    ensures p == q && r == s
  {
    KeyHasNoColon(r);
    KeyHasNoColon(s);
    hide Key;
    if p != "" && q != "" {
      LastColonSplits(p, q, Key(r), Key(s));
    }
    assert p != "" ==> PrefixedKey(p, Key(r))[|p|] == ':';
    assert q != "" ==> PrefixedKey(q, Key(s))[|q|] == ':';
    KeyInjective(r, s);
  }
}
