/**
 * The tracker's state and what happens to it: the `stats` and `history`
 * tables, the poll cycle that the 15-minute timer runs once a value has been
 * fetched, and the read side that the weekday and `today` routes serve.
 */
module Tracker {
  import opened Wrappers
  import opened Collation
  import opened TimeKeys
  import opened Averaging

  /** What the upstream request gave: a `value`, or a failure of the request or of reading its body. */
  datatype Fetch = Fetched(value: real) | Unavailable

  /** How one poll cycle ended. */
  datatype Outcome =
    | Stored           // both writes happened
    | Skipped          // the fetch failed: nothing was written
    | HistoryConflict  // the `stats` write happened, the `history` key was already taken

  /** The two tables: `stats` keyed by slot key, `history` keyed by history key. */
  datatype Tables = Tables(stats: map<string, Stat>, history: map<string, real>)

  /** `SELECT value, weight FROM stats WHERE timestamp = ?`: the row, if there is one. */
  function Lookup(stats: map<string, Stat>, key: string): Option<Stat>
  {
    if key in stats then Some(stats[key]) else None
  }

  /** Observations recorded for a slot key so far. */
  ghost function Observations(observed: map<string, seq<real>>, key: string): seq<real>
  {
    if key in observed then observed[key] else []
  }

  /**
   * The cron callback once the request is made. A failed fetch writes nothing.
   * Otherwise the slot key is taken from one clock reading and its `stats` row
   * folded with the value; then a `history` row is inserted under the key of a
   * second clock reading, unless that key is already taken, in which case the
   * insert fails and the `stats` write stays.
   */
  function Poll(t: Tables, fetch: Fetch, slotClock: LocalTime, historyClock: LocalTime): (Tables, Outcome)
    requires slotClock.Valid() && historyClock.Valid()
  {
    match fetch
    case Unavailable => (t, Skipped)
    case Fetched(value) =>
      var key := SlotKey(slotClock.WeeklySlot());
      var stats := t.stats[key := Fold(Lookup(t.stats, key), value)];
      var historyKey := HistoryKey(historyClock.CalendarStamp());
      if historyKey in t.history then (Tables(stats, t.history), HistoryConflict)
      else (Tables(stats, t.history[historyKey := value]), Stored)
  }

  /**
   * What a poll cycle changes: nothing when the fetch fails; otherwise the
   * `stats` row of the slot key and no other, and at most one new `history`
   * row, the insert failing exactly when its key is already taken.
   */
  lemma PollEffect(t: Tables, fetch: Fetch, slotClock: LocalTime, historyClock: LocalTime, after: Tables, outcome: Outcome)
    requires slotClock.Valid() && historyClock.Valid()
    requires (after, outcome) == Poll(t, fetch, slotClock, historyClock)
    ensures fetch.Unavailable? ==> after == t && outcome == Skipped
    ensures fetch.Fetched? ==>
      && after.stats.Keys == t.stats.Keys + {SlotKey(slotClock.WeeklySlot())}
      && after.stats[SlotKey(slotClock.WeeklySlot())] == Fold(Lookup(t.stats, SlotKey(slotClock.WeeklySlot())), fetch.value)
      && forall k :: k in t.stats && k != SlotKey(slotClock.WeeklySlot()) ==> after.stats[k] == t.stats[k]
    ensures fetch.Fetched? ==>
      && after.history.Keys == t.history.Keys + {HistoryKey(historyClock.CalendarStamp())}
      && (forall k :: k in t.history ==> after.history[k] == t.history[k])
      && (HistoryKey(historyClock.CalendarStamp()) in t.history <==> outcome == HistoryConflict)
      && (HistoryKey(historyClock.CalendarStamp()) !in t.history ==>
            after.history[HistoryKey(historyClock.CalendarStamp())] == fetch.value && outcome == Stored)
  {
  }

  /**
   * The `history` insert of a successful poll fails exactly when an earlier
   * poll fell in the same calendar minute.
   */
  lemma PollConflict(t: Tables, fetch: Fetch, slotClock: LocalTime, historyClock: LocalTime)
    requires WellFormed(t) && slotClock.Valid() && historyClock.Valid() && fetch.Fetched?
    ensures Poll(t, fetch, slotClock, historyClock).1 == HistoryConflict
        <==> exists k :: k in t.history && StampOfKey(k) == historyClock.CalendarStamp()
  {
    var stamp := historyClock.CalendarStamp();
    if k :| k in t.history && StampOfKey(k) == stamp {
      assert HistoryKey(stamp) in t.history;
    }
    if HistoryKey(stamp) in t.history {
      var k := HistoryKey(stamp);
      HistoryKeyInjective(StampOfKey(k), stamp);
    }
  }

  /** `k` is the slot key of some slot. */
  ghost predicate IsSlotKey(k: string)
  {
    exists s: Slot :: s.Valid() && SlotKey(s) == k
  }

  /** `k` is the history key of some calendar minute. */
  ghost predicate IsHistoryKey(k: string)
  {
    exists s: Stamp :: s.Valid() && HistoryKey(s) == k
  }

  /** Both keys of a clock reading are well-formed. */
  lemma ClockKeys(c: LocalTime)
    requires c.Valid()
    ensures IsSlotKey(SlotKey(c.WeeklySlot())) && IsHistoryKey(HistoryKey(c.CalendarStamp()))
  {
    var s, m := c.WeeklySlot(), c.CalendarStamp();
    assert s.Valid() && SlotKey(s) == SlotKey(c.WeeklySlot());
    assert m.Valid() && HistoryKey(m) == HistoryKey(c.CalendarStamp());
  }

  /** Every key has the format the poll cycle writes into its table. */
  ghost predicate WellFormed(t: Tables)
  {
    && (forall k :: k in t.stats ==> IsSlotKey(k))
    && (forall k :: k in t.history ==> IsHistoryKey(k))
  }

  /** A poll cycle writes well-formed keys only. */
  lemma PollKeepsWellFormed(t: Tables, fetch: Fetch, slotClock: LocalTime, historyClock: LocalTime)
    requires WellFormed(t) && slotClock.Valid() && historyClock.Valid()
    ensures WellFormed(Poll(t, fetch, slotClock, historyClock).0)
  {
    ClockKeys(slotClock);
    ClockKeys(historyClock);
  }

  /** Each `stats` row holds the mean of the values observed at its slot and their number (at least 1). */
  ghost predicate Consistent(stats: map<string, Stat>, observed: map<string, seq<real>>)
  {
    && observed.Keys == stats.Keys
    && forall k :: k in stats ==> observed[k] != [] && stats[k] == MeanOf(observed[k])
  }

  /**
   * Folding a value into the row for `key` and recording it as observed there
   * keeps every row the mean and count of its observations.
   */
  lemma FoldKeepsConsistent(stats: map<string, Stat>, observed: map<string, seq<real>>, key: string, v: real)
    requires Consistent(stats, observed)
    ensures Consistent(stats[key := Fold(Lookup(stats, key), v)],
                       observed[key := Observations(observed, key) + [v]])
  {
    FoldStep(Observations(observed, key), v);
  }

  /** The database file, with its two tables. */
  class Database {
    var stats: map<string, Stat>
    var history: map<string, real>
    /** Every value folded into each `stats` row so far, oldest first. */
    ghost var observed: map<string, seq<real>>

    /** Every row holds the mean and count of the values observed at its slot. */
    ghost predicate Averaged()
      reads this
    {
      Consistent(stats, observed)
    }

    /** The invariant the poll cycle keeps: well-formed keys and averaged rows. */
    ghost predicate Valid()
      reads this
    {
      WellFormed(Tables(stats, history)) && Averaged()
    }

    /** `CREATE TABLE IF NOT EXISTS` on a fresh database file: both tables empty. */
    constructor ()
      ensures Valid()
      ensures stats == map[] && history == map[] && observed == map[]
    {
      stats, history := map[], map[];
      observed := map[];
    }

    /** One run of the cron callback (api/index.js:26-57), after the fetch has returned `fetch`. */
    method PollCycle(fetch: Fetch, slotClock: LocalTime, historyClock: LocalTime) returns (outcome: Outcome)
      requires Valid() && slotClock.Valid() && historyClock.Valid()
      modifies this
      ensures Valid()
      ensures Tables(stats, history) == Poll(Tables(old(stats), old(history)), fetch, slotClock, historyClock).0
      ensures outcome == Poll(Tables(old(stats), old(history)), fetch, slotClock, historyClock).1
      ensures fetch.Unavailable? ==> observed == old(observed)
      ensures fetch.Fetched? ==>
        observed == old(observed)[SlotKey(slotClock.WeeklySlot())
          := Observations(old(observed), SlotKey(slotClock.WeeklySlot())) + [fetch.value]]
    {
      if fetch.Unavailable? {
        return Skipped;
      }
      var value := fetch.value;
      var timestamp := SlotKey(slotClock.WeeklySlot());
      var historyKey := HistoryKey(historyClock.CalendarStamp());
      ghost var expected := Poll(Tables(stats, history), fetch, slotClock, historyClock);
      UpsertStats(timestamp, value);
      outcome := InsertHistory(historyKey, value);
      assert expected == (Tables(stats, history), outcome);
      PollKeepsWellFormed(Tables(old(stats), old(history)), fetch, slotClock, historyClock);
    }

    /**
     * The `stats` write (api/index.js:33-50): read the row under `key`, then
     * UPDATE it to the folded average and weight, or INSERT it with weight 1.
     */
    method UpsertStats(key: string, value: real)
      requires Averaged()
      modifies this
      ensures Averaged()
      ensures stats == old(stats)[key := Fold(Lookup(old(stats), key), value)]
      ensures observed == old(observed)[key := Observations(old(observed), key) + [value]]
      ensures history == old(history)
    {
      var existingRecord := Lookup(stats, key);
      var row: Stat;
      if existingRecord.Some? {
        row := Fold(existingRecord, value);  // UPDATE to the new average and weight
      } else {
        row := Stat(value, 1);  // INSERT with weight 1
      }
      FoldKeepsConsistent(stats, observed, key, value);
      stats := stats[key := row];
      observed := observed[key := Observations(observed, key) + [value]];
    }

    /**
     * The `history` write (api/index.js:51): INSERT under `key`, which fails on
     * the PRIMARY KEY when the key is taken and then changes nothing.
     */
    method InsertHistory(key: string, value: real) returns (outcome: Outcome)
      requires Averaged()
      modifies this`history
      ensures Averaged()
      ensures key in old(history) ==> history == old(history) && outcome == HistoryConflict
      ensures key !in old(history) ==> history == old(history)[key := value] && outcome == Stored
    {
      if key in history {
        outcome := HistoryConflict;
      } else {
        history := history[key := value];
        outcome := Stored;
      }
    }
  }

  /** A row as `SELECT *` returns it from either table. */
  datatype Record =
    | StatsRecord(timestamp: string, value: real, weight: nat)
    | HistoryRecord(timestamp: string, value: real)

  /** A row as the route handler sends it: `{ timestamp, value }`. */
  datatype Row = Row(timestamp: string, value: real)

  /** The `stats` rows under `keys`, in that order. */
  function StatsRecords(stats: map<string, Stat>, keys: seq<string>): (r: seq<Record>)
    requires forall i :: 0 <= i < |keys| ==> keys[i] in stats
    ensures |r| == |keys|
    ensures forall i :: 0 <= i < |keys| ==> r[i] == StatsRecord(keys[i], stats[keys[i]].value, stats[keys[i]].weight)
  {
    seq(|keys|, i requires 0 <= i < |keys| => StatsRecord(keys[i], stats[keys[i]].value, stats[keys[i]].weight))
  }

  /** The `history` rows under `keys`, in that order. */
  function HistoryRecords(history: map<string, real>, keys: seq<string>): (r: seq<Record>)
    requires forall i :: 0 <= i < |keys| ==> keys[i] in history
    ensures |r| == |keys|
    ensures forall i :: 0 <= i < |keys| ==> r[i] == HistoryRecord(keys[i], history[keys[i]])
  {
    seq(|keys|, i requires 0 <= i < |keys| => HistoryRecord(keys[i], history[keys[i]]))
  }

  /** The keys among `keys` that `LIKE pattern` selects. */
  function Matching(keys: set<string>, pattern: string): (r: set<string>)
    ensures forall k :: k in r <==> k in keys && Like(pattern, k)
  {
    set k | k in keys && Like(pattern, k)
  }

  /** The keys among `keys` that `LIKE pattern` selects, in `ORDER BY timestamp` order. */
  ghost function SelectKeys(keys: set<string>, pattern: string): (r: seq<string>)
    ensures forall i :: 0 <= i < |r| ==> r[i] in keys && Like(pattern, r[i])
    ensures forall k :: k in keys && Like(pattern, k) ==> k in r
    ensures forall i, j :: 0 <= i < j < |r| ==> Less(r[i], r[j])
  {
    var r := Ascending(Matching(keys, pattern));
    assert forall i :: 0 <= i < |r| ==> r[i] in r;
    r
  }

  /**
   * `SELECT * FROM stats WHERE timestamp LIKE ? ORDER BY timestamp`: one record
   * per matching row and no other, with its columns, in ascending key order.
   */
  ghost function SelectStats(stats: map<string, Stat>, pattern: string): (r: seq<Record>)
    ensures forall i :: 0 <= i < |r| ==>
      && r[i].timestamp in stats && Like(pattern, r[i].timestamp)
      && r[i] == StatsRecord(r[i].timestamp, stats[r[i].timestamp].value, stats[r[i].timestamp].weight)
    ensures forall k :: k in stats && Like(pattern, k) ==> exists i :: 0 <= i < |r| && r[i].timestamp == k
    ensures forall i, j :: 0 <= i < j < |r| ==> Less(r[i].timestamp, r[j].timestamp)
  {
    StatsRecords(stats, SelectKeys(stats.Keys, pattern))
  }

  /**
   * `SELECT * FROM history WHERE timestamp LIKE ? ORDER BY timestamp`: one record
   * per matching row and no other, with its columns, in ascending key order.
   */
  ghost function SelectHistory(history: map<string, real>, pattern: string): (r: seq<Record>)
    ensures forall i :: 0 <= i < |r| ==>
      && r[i].timestamp in history && Like(pattern, r[i].timestamp)
      && r[i] == HistoryRecord(r[i].timestamp, history[r[i].timestamp])
    ensures forall k :: k in history && Like(pattern, k) ==> exists i :: 0 <= i < |r| && r[i].timestamp == k
    ensures forall i, j :: 0 <= i < j < |r| ==> Less(r[i].timestamp, r[j].timestamp)
  {
    HistoryRecords(history, SelectKeys(history.Keys, pattern))
  }

  /** `requestDataFromDB(day)`: `today` reads today's `history` rows, any other name the `stats` rows it prefixes. */
  ghost function RequestData(t: Tables, day: string, today: Date): seq<Record>
    requires today.Valid()
  {
    if day == "today" then SelectHistory(t.history, DateKey(today) + "%")
    else SelectStats(t.stats, day + "%")
  }

  /** The handler's projection of each row to `{ timestamp, value }`. */
  function Project(rs: seq<Record>): (r: seq<Row>)
    ensures |r| == |rs|
    ensures forall i :: 0 <= i < |rs| ==> r[i].timestamp == rs[i].timestamp && r[i].value == rs[i].value
  {
    seq(|rs|, i requires 0 <= i < |rs| => Row(rs[i].timestamp, rs[i].value))
  }

  /** `path.replace("/", "")`: the path without its first slash, if it has one. */
  function DropFirstSlash(path: string): (r: string)
    ensures '/' in path ==> |r| == |path| - 1
    ensures '/' !in path ==> r == path
    ensures |path| > 0 && path[0] == '/' ==> r == path[1..]
  {
    if path == [] then []
    else if path[0] == '/' then path[1..]
    else [path[0]] + DropFirstSlash(path[1..])
  }

  /** The slash `replace` removes is the first one: the path loses that character and no other. */
  lemma {:induction false} DropFirstSlashAt(path: string, i: nat)
    requires i < |path| && path[i] == '/' && '/' !in path[..i]
    ensures DropFirstSlash(path) == path[..i] + path[i + 1..]
  {
    if i > 0 {
      assert path[0] != '/' by {
        assert path[0] == path[..i][0];
      }
      assert path[1..][..i - 1] == path[..i][1..];
      DropFirstSlashAt(path[1..], i - 1);
      assert path[..i] == [path[0]] + path[1..][..i - 1];
      assert path[1..][i..] == path[i + 1..];
    }
  }

  /** The served paths: "/" and each lower-case weekday name, then "/today". */
  function Routes(): seq<string>
  {
    WeekdayRoutes(Weekdays) + ["/today"]
  }

  /** `weekdays.map((day) => "/" + day)`. */
  function WeekdayRoutes(ws: seq<Weekday>): (r: seq<string>)
    ensures |r| == |ws|
    ensures forall i :: 0 <= i < |ws| ==> r[i] == "/" + LowerName(ws[i])
  {
    if ws == [] then [] else ["/" + LowerName(ws[0])] + WeekdayRoutes(ws[1..])
  }

  /** The served paths are exactly "/today" and "/" followed by a lower-case weekday name. */
  lemma RoutesAre(path: string)
    ensures path in Routes() <==> path == "/today" || exists w: Weekday :: path == "/" + LowerName(w)
  {
    if path in Routes() && path != "/today" {
      var i :| 0 <= i < |Routes()| && Routes()[i] == path;
      assert i < 7;
      assert path == "/" + LowerName(Weekdays[i]);
    }
    if w: Weekday :| path == "/" + LowerName(w) {
      WeekdayRouteServed(w);
    }
    assert Routes()[7] == "/today";
  }

  /** `app.get(routes, ...)`: a served path answers its rows, any other path is not served here. */
  ghost function Serve(t: Tables, path: string, today: Date): (r: Option<seq<Row>>)
    requires today.Valid()
    ensures r.Some? <==> path in Routes()
  {
    if path in Routes() then Some(Project(RequestData(t, DropFirstSlash(path), today)))
    else None
  }

  /** The slot a well-formed `stats` key names. */
  ghost function SlotOfKey(k: string): (s: Slot)
    requires IsSlotKey(k)
    ensures s.Valid() && SlotKey(s) == k
  {
    var s: Slot :| s.Valid() && SlotKey(s) == k; s
  }

  /** The calendar minute a well-formed `history` key names. */
  ghost function StampOfKey(k: string): (s: Stamp)
    requires IsHistoryKey(k)
    ensures s.Valid() && HistoryKey(s) == k
  {
    var s: Stamp :| s.Valid() && HistoryKey(s) == k; s
  }

  /** Every weekday has its route. */
  lemma WeekdayRouteServed(w: Weekday)
    ensures "/" + LowerName(w) in Routes()
  {
    var i := match w
      case Sunday => 0 case Monday => 1 case Tuesday => 2 case Wednesday => 3
      case Thursday => 4 case Friday => 5 case Saturday => 6;
    assert Weekdays[i] == w;
    assert Routes()[i] == "/" + LowerName(w);
  }

  /** A weekday route asks `stats` for the keys its lower-case name begins. */
  lemma WeekdayRouteRequest(t: Tables, w: Weekday, today: Date)
    requires today.Valid()
    ensures Serve(t, "/" + LowerName(w), today) == Some(Project(SelectStats(t.stats, LowerName(w) + "%")))
  {
    var path := "/" + LowerName(w);
    WeekdayRouteServed(w);
    assert DropFirstSlash(path) == LowerName(w);
    assert LowerName(w) != "today" by {
      assert |LowerName(w)| == |Name(w)|;
      match w
      case Sunday =>
      case Monday =>
      case Tuesday =>
      case Wednesday =>
      case Thursday =>
      case Friday =>
      case Saturday =>
    }
  }

  /** Among well-formed `stats` keys, a weekday route's pattern selects exactly that weekday's. */
  lemma WeekdayPattern(stats: map<string, Stat>, w: Weekday)
    requires forall k :: k in stats ==> IsSlotKey(k)
    ensures forall k :: k in stats ==> (Like(LowerName(w) + "%", k) <==> SlotOfKey(k).weekday == w)
  {
    LowerNameLiteral(w);
    forall k | k in stats
      ensures Like(LowerName(w) + "%", k) <==> SlotOfKey(k).weekday == w
    {
      LikePrefix(LowerName(w), k);
      WeekdayPrefix(w, SlotOfKey(k));
    }
  }

  /** Among well-formed `history` keys, today's pattern selects exactly today's. */
  lemma DatePattern(history: map<string, real>, today: Date)
    requires forall k :: k in history ==> IsHistoryKey(k)
    requires today.Valid()
    ensures forall k :: k in history ==> (Like(DateKey(today) + "%", k) <==> StampOfKey(k).date == today)
  {
    DateKeyLiteral(today);
    forall k | k in history
      ensures Like(DateKey(today) + "%", k) <==> StampOfKey(k).date == today
    {
      LikePrefix(DateKey(today), k);
      DatePrefix(today, StampOfKey(k));
    }
  }

  /** The `today` route asks `history` for the keys today's date begins. */
  lemma TodayRouteRequest(t: Tables, today: Date)
    requires today.Valid()
    ensures Serve(t, "/today", today) == Some(Project(SelectHistory(t.history, DateKey(today) + "%")))
  {
    assert Routes()[7] == "/today";
    assert DropFirstSlash("/today") == "today";
  }

  /** Every row a weekday route sends is a `stats` row of that weekday, with its average. */
  lemma WeekdayRowsSound(stats: map<string, Stat>, w: Weekday, rows: seq<Row>)
    requires forall k :: k in stats ==> IsSlotKey(k)
    requires rows == Project(SelectStats(stats, LowerName(w) + "%"))
    ensures forall i :: 0 <= i < |rows| ==>
      && rows[i].timestamp in stats
      && SlotOfKey(rows[i].timestamp).weekday == w
      && rows[i].value == stats[rows[i].timestamp].value
  {
    WeekdayPattern(stats, w);
  }

  /** Every `stats` row of the weekday is among the rows its route sends. */
  lemma WeekdayRowsComplete(stats: map<string, Stat>, w: Weekday, rows: seq<Row>)
    requires forall k :: k in stats ==> IsSlotKey(k)
    requires rows == Project(SelectStats(stats, LowerName(w) + "%"))
    ensures forall k :: k in stats && SlotOfKey(k).weekday == w ==>
      exists i :: 0 <= i < |rows| && rows[i].timestamp == k
  {
    WeekdayPattern(stats, w);
  }

  /** A weekday route sends its rows in ascending time of day. */
  lemma WeekdayRowsByTime(stats: map<string, Stat>, w: Weekday, rows: seq<Row>)
    requires forall k :: k in stats ==> IsSlotKey(k)
    requires rows == Project(SelectStats(stats, LowerName(w) + "%"))
    ensures forall i, j :: 0 <= i < j < |rows| ==>
      SlotOfKey(rows[i].timestamp).MinuteOfDay() < SlotOfKey(rows[j].timestamp).MinuteOfDay()
  {
    WeekdayRowsSound(stats, w, rows);
    forall i, j | 0 <= i < j < |rows|
      ensures SlotOfKey(rows[i].timestamp).MinuteOfDay() < SlotOfKey(rows[j].timestamp).MinuteOfDay()
    {
      SlotKeyOrder(SlotOfKey(rows[i].timestamp), SlotOfKey(rows[j].timestamp));
    }
  }

  /** Every row the `today` route sends is a `history` row of today's date. */
  lemma TodayRowsSound(history: map<string, real>, today: Date, rows: seq<Row>)
    requires forall k :: k in history ==> IsHistoryKey(k)
    requires today.Valid()
    requires rows == Project(SelectHistory(history, DateKey(today) + "%"))
    ensures forall i :: 0 <= i < |rows| ==>
      && rows[i].timestamp in history
      && StampOfKey(rows[i].timestamp).date == today
      && rows[i].value == history[rows[i].timestamp]
  {
    DatePattern(history, today);
  }

  /** Every `history` row of today's date is among the rows the `today` route sends. */
  lemma TodayRowsComplete(history: map<string, real>, today: Date, rows: seq<Row>)
    requires forall k :: k in history ==> IsHistoryKey(k)
    requires today.Valid()
    requires rows == Project(SelectHistory(history, DateKey(today) + "%"))
    ensures forall k :: k in history && StampOfKey(k).date == today ==>
      exists i :: 0 <= i < |rows| && rows[i].timestamp == k
  {
    DatePattern(history, today);
  }

  /** The `today` route sends its rows in ascending time of day. */
  lemma TodayRowsByTime(history: map<string, real>, today: Date, rows: seq<Row>)
    requires forall k :: k in history ==> IsHistoryKey(k)
    requires today.Valid()
    requires rows == Project(SelectHistory(history, DateKey(today) + "%"))
    ensures forall i, j :: 0 <= i < j < |rows| ==>
      StampOfKey(rows[i].timestamp).MinuteOfDay() < StampOfKey(rows[j].timestamp).MinuteOfDay()
  {
    TodayRowsSound(history, today, rows);
    forall i, j | 0 <= i < j < |rows|
      ensures StampOfKey(rows[i].timestamp).MinuteOfDay() < StampOfKey(rows[j].timestamp).MinuteOfDay()
    {
      HistoryKeyOrder(StampOfKey(rows[i].timestamp), StampOfKey(rows[j].timestamp));
    }
  }

  /**
   * `GET /monday` and the other weekday routes: exactly the `stats` rows of that
   * weekday, each with its average, in ascending time of day.
   */
  lemma ServeWeekday(t: Tables, w: Weekday, today: Date)
    requires WellFormed(t) && today.Valid()
    ensures Serve(t, "/" + LowerName(w), today).Some?
    ensures var rows := Serve(t, "/" + LowerName(w), today).value;
      && (forall i :: 0 <= i < |rows| ==>
            && rows[i].timestamp in t.stats
            && SlotOfKey(rows[i].timestamp).weekday == w
            && rows[i].value == t.stats[rows[i].timestamp].value)
      && (forall k :: k in t.stats && SlotOfKey(k).weekday == w ==>
            exists i :: 0 <= i < |rows| && rows[i].timestamp == k)
      && (forall i, j :: 0 <= i < j < |rows| ==>
            SlotOfKey(rows[i].timestamp).MinuteOfDay() < SlotOfKey(rows[j].timestamp).MinuteOfDay())
  {
    WeekdayRouteRequest(t, w, today);
    var rows := Project(SelectStats(t.stats, LowerName(w) + "%"));
    WeekdayRowsSound(t.stats, w, rows);
    WeekdayRowsComplete(t.stats, w, rows);
    WeekdayRowsByTime(t.stats, w, rows);
  }

  /**
   * `GET /today`: exactly the `history` rows of today's date, one per poll and
   * unaggregated, in ascending time of day.
   */
  lemma ServeToday(t: Tables, today: Date)
    requires WellFormed(t) && today.Valid()
    ensures Serve(t, "/today", today).Some?
    ensures var rows := Serve(t, "/today", today).value;
      && (forall i :: 0 <= i < |rows| ==>
            && rows[i].timestamp in t.history
            && StampOfKey(rows[i].timestamp).date == today
            && rows[i].value == t.history[rows[i].timestamp])
      && (forall k :: k in t.history && StampOfKey(k).date == today ==>
            exists i :: 0 <= i < |rows| && rows[i].timestamp == k)
      && (forall i, j :: 0 <= i < j < |rows| ==>
            StampOfKey(rows[i].timestamp).MinuteOfDay() < StampOfKey(rows[j].timestamp).MinuteOfDay())
  {
    TodayRouteRequest(t, today);
    var rows := Project(SelectHistory(t.history, DateKey(today) + "%"));
    TodayRowsSound(t.history, today, rows);
    TodayRowsComplete(t.history, today, rows);
    TodayRowsByTime(t.history, today, rows);
  }
}
