/**
 * The persistence layer of the charm app (utils/storage.ts): today's charm,
 * its date and reveal flag, the 30-day history log and the notification
 * settings, all kept in one string-keyed asynchronous key-value store.
 *
 * The store is a class whose `items` map is updated in place. Values that the
 * program writes with JSON.stringify and reads back with JSON.parse are kept
 * as typed values, so stringify/parse is a faithful pair by construction.
 * The current day is a parameter (the program reads the clock in UTC).
 */
module Storage {
  import opened Wrappers

  datatype CharmData = CharmData(id: int, text: string, icon: string)

  datatype HistoryItem = HistoryItem(date: string, charm: CharmData)

  datatype NotificationTime = NotificationTime(hours: int, minutes: int)

  /** A stored value: a plain string, or the JSON text of one of the program's records. */
  datatype StoredValue =
    | Raw(text: string)
    | CharmJson(charm: CharmData)
    | TimeJson(time: NotificationTime)
    | HistoryJson(history: seq<HistoryItem>)

  const DailyCharmKey: string := "daily_charm"
  const CharmDateKey: string := "charm_date"
  const CharmRevealedKey: string := "charm_revealed"
  const NotificationsEnabledKey: string := "notifications_enabled"
  const NotificationTimeKey: string := "notification_time"
  const CharmHistoryKey: string := "charm_history"

  /** The history log keeps the 30 most recent entries. */
  const HistoryLimit: nat := 30

  const DefaultNotificationTime: NotificationTime := NotificationTime(10, 0)

  /** `b.toString()` for a boolean. */
  function BoolText(b: bool): (text: string)
    ensures text == "true" <==> b
    ensures text == "false" <==> !b
  {
    if b then "true" else "false"
  }

  /**
   * The asynchronous key-value store. When `failing` is set every call
   * rejects, which sends each operation below to its catch block.
   */
  class AsyncStorage {
    var items: map<string, StoredValue>
    var failing: bool

    constructor ()
      ensures items == map[] && !failing
    {
      items := map[];
      failing := false;
    }

    /** getItem: the stored value, or None for a key never written. */
    method GetItem(key: string) returns (r: Settled<Option<StoredValue>>)
      ensures failing ==> r == Rejected
      ensures !failing ==> r == Resolved(if key in items then Some(items[key]) else None)
    {
      if failing {
        r := Rejected;
      } else if key in items {
        r := Resolved(Some(items[key]));
      } else {
        r := Resolved(None);
      }
    }

    /** setItem: overwrites one key and leaves every other key alone. */
    method SetItem(key: string, value: StoredValue) returns (ok: bool)
      modifies this
      ensures failing == old(failing) && ok == !failing
      ensures items == if failing then old(items) else old(items)[key := value]
    {
      ok := !failing;
      if ok {
        items := items[key := value];
      }
    }
  }

  // ---------------------------------------------------------------------
  // What each read yields for a given map of stored items.

  /** The history log read back from `items`: the stored array, or empty when absent or unreadable. */
  function HistoryIn(items: map<string, StoredValue>): (history: seq<HistoryItem>)
    ensures history == [] || (CharmHistoryKey in items && items[CharmHistoryKey] == HistoryJson(history))
    ensures CharmHistoryKey in items && items[CharmHistoryKey].HistoryJson? ==> history == items[CharmHistoryKey].history
  {
    if CharmHistoryKey in items && items[CharmHistoryKey].HistoryJson? then items[CharmHistoryKey].history else []
  }

  /** The charm getDailyCharm returns on day `today` when nothing fails. */
  function DailyCharmIn(items: map<string, StoredValue>, today: string): (charm: Option<CharmData>)
    ensures charm.Some? ==> CharmDateKey in items && items[CharmDateKey] == Raw(today)
    ensures charm.Some? ==> DailyCharmKey in items && items[DailyCharmKey] == CharmJson(charm.value)
    ensures CharmDateKey in items && items[CharmDateKey] == Raw(today) && DailyCharmKey in items && items[DailyCharmKey].CharmJson?
      ==> charm == Some(items[DailyCharmKey].charm)
  {
    if CharmDateKey !in items || items[CharmDateKey] != Raw(today) then None
    else if DailyCharmKey in items && items[DailyCharmKey].CharmJson? then Some(items[DailyCharmKey].charm)
    else None
  }

  /** Whether hasRevealedToday answers true on day `today` when nothing fails. */
  predicate RevealedIn(items: map<string, StoredValue>, today: string) {
    && CharmDateKey in items && items[CharmDateKey] == Raw(today)
    && CharmRevealedKey in items && items[CharmRevealedKey] == Raw("true")
  }

  /** The notifications flag: on unless a value other than "true" is stored. */
  predicate EnabledIn(items: map<string, StoredValue>) {
    NotificationsEnabledKey !in items || items[NotificationsEnabledKey] == Raw("true")
  }

  /** The reminder time: the stored one, or 10:00 when absent or unreadable. */
  function TimeIn(items: map<string, StoredValue>): (time: NotificationTime)
    ensures time == DefaultNotificationTime || (NotificationTimeKey in items && items[NotificationTimeKey] == TimeJson(time))
    ensures NotificationTimeKey in items && items[NotificationTimeKey].TimeJson? ==> time == items[NotificationTimeKey].time
  {
    if NotificationTimeKey in items && items[NotificationTimeKey].TimeJson? then items[NotificationTimeKey].time
    else DefaultNotificationTime
  }

  // ---------------------------------------------------------------------
  // The history log.

  /** No two entries of the log share a date. */
  predicate UniqueDates(history: seq<HistoryItem>) {
    forall i, j | 0 <= i < j < |history| :: history[i].date != history[j].date
  }

  predicate HasDate(history: seq<HistoryItem>, date: string) {
    exists i | 0 <= i < |history| :: history[i].date == date
  }

  /** The position of the first entry for `date` (Array.prototype.findIndex), or None. */
  function FindDate(history: seq<HistoryItem>, date: string): (r: Option<nat>)
    ensures r == None <==> !HasDate(history, date)
    ensures r.Some? ==> r.value < |history| && history[r.value].date == date
    ensures r.Some? ==> forall j | 0 <= j < r.value :: history[j].date != date
  {
    if history == [] then None
    else if history[0].date == date then Some(0)
    else match FindDate(history[1..], date)
      case None => (assert forall i | 1 <= i < |history| :: history[i] == history[1..][i - 1]; None)
      case Some(k) => Some(k + 1)
  }

  /**
   * The log after recording `item`: the first entry with the same date is
   * replaced where it stands, otherwise `item` goes to the front; then only
   * the first 30 entries are kept.
   */
  function UpsertHistory(history: seq<HistoryItem>, item: HistoryItem): (r: seq<HistoryItem>)
    ensures |r| <= HistoryLimit
    ensures |history| <= HistoryLimit ==> item in r
  {
    var updated := match FindDate(history, item.date)
      case Some(k) => assert history[k := item][k] == item; history[k := item]
      case None => assert ([item] + history)[0] == item; [item] + history;
    if |updated| <= HistoryLimit then updated
    else assert updated[..HistoryLimit][0] == updated[0]; updated[..HistoryLimit]
  }

  /** The store after a successful saveDailyCharm(charm) on day `today`. */
  function AfterSave(items: map<string, StoredValue>, charm: CharmData, today: string): (saved: map<string, StoredValue>)
    ensures saved.Keys == items.Keys + {DailyCharmKey, CharmDateKey, CharmRevealedKey, CharmHistoryKey}
    ensures forall key | key in items && key !in {DailyCharmKey, CharmDateKey, CharmRevealedKey, CharmHistoryKey} ::
      saved[key] == items[key]
    ensures HistoryIn(saved) == UpsertHistory(HistoryIn(items), HistoryItem(today, charm))
  {
    items[DailyCharmKey := CharmJson(charm)]
         [CharmDateKey := Raw(today)]
         [CharmRevealedKey := Raw("true")]
         [CharmHistoryKey := HistoryJson(UpsertHistory(HistoryIn(items), HistoryItem(today, charm)))]
  }

  // ---------------------------------------------------------------------
  // The operations of utils/storage.ts.

  /** findIndex over the log: the first position holding `date`, or -1. */
  method FindIndex(history: seq<HistoryItem>, date: string) returns (index: int)
    ensures -1 <= index < |history|
    ensures index == -1 <==> !HasDate(history, date)
    ensures 0 <= index ==> history[index].date == date
    ensures 0 <= index ==> forall j | 0 <= j < index :: history[j].date != date
  {
    index := 0;
    while index < |history|
      invariant 0 <= index <= |history|
      invariant forall j | 0 <= j < index :: history[j].date != date
    {
      if history[index].date == date {
        return;
      }
      index := index + 1;
    }
    index := -1;
  }

  /** getCharmHistory: the stored log, or empty when absent, unreadable or on failure. */
  method GetCharmHistory(store: AsyncStorage) returns (history: seq<HistoryItem>)
    ensures history == if store.failing then [] else HistoryIn(store.items)
  {
    var stored := store.GetItem(CharmHistoryKey);
    if stored.Rejected? {
      return [];
    }
    match stored.value
    case Some(HistoryJson(h)) =>
      history := h;
    case _ =>
      history := [];
  }

  /**
   * saveDailyCharm: writes the charm, today's date and the revealed flag,
   * then records today's entry in the history log. A failing store keeps
   * every key as it was.
   */
  method SaveDailyCharm(store: AsyncStorage, charm: CharmData, today: string)
    modifies store
    ensures store.failing == old(store.failing)
    ensures store.items == if store.failing then old(store.items) else AfterSave(old(store.items), charm, today)
  {
    var ok := store.SetItem(DailyCharmKey, CharmJson(charm));
    if !ok { return; }
    ok := store.SetItem(CharmDateKey, Raw(today));
    if !ok { return; }
    ok := store.SetItem(CharmRevealedKey, Raw("true"));
    if !ok { return; }

    var history := GetCharmHistory(store);
    assert history == HistoryIn(old(store.items));
    var historyItem := HistoryItem(today, charm);

    var existingIndex := FindIndex(history, today);
    if existingIndex >= 0 {
      assert FindDate(history, today) == Some(existingIndex);
      history := history[existingIndex := historyItem];
    } else {
      history := [historyItem] + history;
    }

    var trimmedHistory := if |history| <= HistoryLimit then history else history[..HistoryLimit];
    ok := store.SetItem(CharmHistoryKey, HistoryJson(trimmedHistory));
  }

  /**
   * getDailyCharm: today's charm if one was saved today. On a new day (or
   * with no stored date) it first writes "false" to the revealed flag.
   */
  method GetDailyCharm(store: AsyncStorage, today: string) returns (charm: Option<CharmData>)
    modifies store
    ensures store.failing == old(store.failing)
    ensures charm == if store.failing then None else DailyCharmIn(old(store.items), today)
    ensures store.items ==
      if !store.failing && (CharmDateKey !in old(store.items) || old(store.items)[CharmDateKey] != Raw(today))
      then old(store.items)[CharmRevealedKey := Raw("false")]
      else old(store.items)
  {
    var savedDate := store.GetItem(CharmDateKey);
    if savedDate.Rejected? {
      return None;
    }
    if savedDate.value != Some(Raw(today)) {
      var _ := store.SetItem(CharmRevealedKey, Raw("false"));
      return None;
    }
    var charmStr := store.GetItem(DailyCharmKey);
    if charmStr.Rejected? {
      return None;
    }
    match charmStr.value
    case Some(CharmJson(c)) =>
      charm := Some(c);
    case _ =>
      charm := None;
  }

  /** hasRevealedToday: true only if today's date and the "true" flag are stored. Writes nothing. */
  method HasRevealedToday(store: AsyncStorage, today: string) returns (revealed: bool)
    ensures revealed <==> !store.failing && RevealedIn(store.items, today)
  {
    var savedDate := store.GetItem(CharmDateKey);
    if savedDate.Rejected? || savedDate.value != Some(Raw(today)) {
      return false;
    }
    var flag := store.GetItem(CharmRevealedKey);
    revealed := flag == Resolved(Some(Raw("true")));
  }

  /** getNotificationsEnabled: true when nothing is stored or on failure, else whether "true" is stored. */
  method GetNotificationsEnabled(store: AsyncStorage) returns (enabled: bool)
    ensures enabled <==> store.failing || EnabledIn(store.items)
  {
    var stored := store.GetItem(NotificationsEnabledKey);
    if stored.Rejected? {
      return true;
    }
    enabled := stored.value == None || stored.value == Some(Raw("true"));
  }

  method SetNotificationsEnabled(store: AsyncStorage, enabled: bool)
    modifies store
    ensures store.failing == old(store.failing)
    ensures store.items == if store.failing then old(store.items)
                           else old(store.items)[NotificationsEnabledKey := Raw(BoolText(enabled))]
  {
    var _ := store.SetItem(NotificationsEnabledKey, Raw(BoolText(enabled)));
  }

  /** getNotificationTime: the stored time, or 10:00 when absent, unreadable or on failure. */
  method GetNotificationTime(store: AsyncStorage) returns (time: NotificationTime)
    ensures time == if store.failing then DefaultNotificationTime else TimeIn(store.items)
  {
    var stored := store.GetItem(NotificationTimeKey);
    if stored.Rejected? {
      return DefaultNotificationTime;
    }
    match stored.value
    case Some(TimeJson(t)) =>
      time := t;
    case _ =>
      time := DefaultNotificationTime;
  }

  method SetNotificationTime(store: AsyncStorage, hours: int, minutes: int)
    modifies store
    ensures store.failing == old(store.failing)
    ensures store.items == if store.failing then old(store.items)
                           else old(store.items)[NotificationTimeKey := TimeJson(NotificationTime(hours, minutes))]
  {
    var _ := store.SetItem(NotificationTimeKey, TimeJson(NotificationTime(hours, minutes)));
  }

  // ---------------------------------------------------------------------
  // Properties of the history log.

  /** Replacing: the log keeps its length and order; only the first entry for the date changes. */
  lemma UpsertReplacesInPlace(history: seq<HistoryItem>, item: HistoryItem, k: nat)
    requires FindDate(history, item.date) == Some(k)
    requires |history| <= HistoryLimit
    ensures |UpsertHistory(history, item)| == |history|
    ensures UpsertHistory(history, item)[k] == item
    ensures forall j | 0 <= j < |history| && j != k :: UpsertHistory(history, item)[j] == history[j]
  {
  }

  /**
   * Inserting: the new entry is first, every old entry moves back by one,
   * and only the old last entry is dropped, only when the log was full.
   */
  lemma UpsertPrepends(history: seq<HistoryItem>, item: HistoryItem)
    requires !HasDate(history, item.date)
    ensures var r := UpsertHistory(history, item);
      && |r| == (if |history| < HistoryLimit then |history| + 1 else HistoryLimit)
      && r[0] == item
      && (|history| < HistoryLimit ==> r[1..] == history)
      && (|history| >= HistoryLimit ==> r[1..] == history[..HistoryLimit - 1])
  {
    var r := UpsertHistory(history, item);
    if |history| >= HistoryLimit {
      assert r == ([item] + history)[..HistoryLimit];
      assert r[1..] == history[..HistoryLimit - 1];
    } else {
      assert r == [item] + history;
    }
  }

  /**
   * Recording keeps the log within 30 entries and its dates unique; from a
   * log of at most 30 entries the new entry is always kept.
   */
  lemma UpsertKeepsLogWellFormed(history: seq<HistoryItem>, item: HistoryItem)
    requires UniqueDates(history)
    ensures |UpsertHistory(history, item)| <= HistoryLimit
    ensures UniqueDates(UpsertHistory(history, item))
    ensures |history| <= HistoryLimit ==> item in UpsertHistory(history, item)
  {
    var r := UpsertHistory(history, item);
    match FindDate(history, item.date)
    case Some(k) =>
      var updated := history[k := item];
      assert UniqueDates(updated) by {
        forall i, j | 0 <= i < j < |updated|
          ensures updated[i].date != updated[j].date
        {
          if i == k {
            assert history[k].date == item.date;
          } else if j == k {
            assert history[k].date == item.date;
          }
        }
      }
      if |history| <= HistoryLimit {
        assert r[k] == item;
      }
    case None =>
      var updated := [item] + history;
      assert UniqueDates(updated) by {
        forall i, j | 0 <= i < j < |updated|
          ensures updated[i].date != updated[j].date
        {
          if i == 0 {
            assert updated[j] == history[j - 1];
          } else {
            assert updated[i] == history[i - 1] && updated[j] == history[j - 1];
          }
        }
      }
      assert r[0] == item;
  }

  /** A log whose first entry is for `date` is found at position 0. */
  lemma FindDateAtFront(history: seq<HistoryItem>, date: string)
    requires |history| > 0 && history[0].date == date
    ensures FindDate(history, date) == Some(0)
  {
  }

  /**
   * Saving twice on the same day leaves the log exactly as one save of the
   * second charm would: the second entry replaces the first.
   */
  lemma SecondSaveSupersedes(history: seq<HistoryItem>, date: string, first: CharmData, second: CharmData)
    requires |history| <= HistoryLimit
    ensures UpsertHistory(UpsertHistory(history, HistoryItem(date, first)), HistoryItem(date, second))
         == UpsertHistory(history, HistoryItem(date, second))
  {
    var once := UpsertHistory(history, HistoryItem(date, first));
    match FindDate(history, date)
    case Some(k) =>
      assert once == history[k := HistoryItem(date, first)];
      assert FindDate(once, date) == Some(k) by {
        FirstMatchIsFound(once, date, k);
      }
      assert once[k := HistoryItem(date, second)] == history[k := HistoryItem(date, second)];
    case None =>
      FindDateAtFront(once, date);
      if |history| < HistoryLimit {
        assert once == [HistoryItem(date, first)] + history;
      } else {
        assert once == [HistoryItem(date, first)] + history[..HistoryLimit - 1];
      }
  }

  /** The position that holds `date` with no earlier entry for it is the one FindDate reports. */
  lemma FirstMatchIsFound(history: seq<HistoryItem>, date: string, k: nat)
    requires k < |history| && history[k].date == date
    requires forall j | 0 <= j < k :: history[j].date != date
    ensures FindDate(history, date) == Some(k)
  {
    assert HasDate(history, date);
  }

  /** `log` lists the most recent entries of `days`, newest first. */
  predicate NewestFirst(log: seq<HistoryItem>, days: seq<HistoryItem>) {
    |log| <= |days| && forall i | 0 <= i < |log| :: log[i] == days[|days| - 1 - i]
  }

  /** The log after recording `days` in order, starting from `history`. */
  function RecordAll(history: seq<HistoryItem>, days: seq<HistoryItem>): seq<HistoryItem>
  {
    if days == [] then history
    else UpsertHistory(RecordAll(history, days[..|days| - 1]), days[|days| - 1])
  }

  /**
   * Recording entries with distinct dates into an empty log leaves the most
   * recent 30 of them, newest first.
   */
  lemma {:induction false} RecordAllKeepsMostRecent(days: seq<HistoryItem>)
    requires UniqueDates(days)
    ensures |RecordAll([], days)| == (if |days| < HistoryLimit then |days| else HistoryLimit)
    ensures NewestFirst(RecordAll([], days), days)
  {
    if days != [] {
      var n := |days|;
      var before, latest := days[..n - 1], days[n - 1];
      LatestIsNew(days);
      RecordAllKeepsMostRecent(before);
      RecordNewest(RecordAll([], before), before, latest);
      assert days == before + [latest];
    }
  }

  /** The inductive step: recording the newest day into the log of the earlier ones. */
  lemma RecordNewest(prev: seq<HistoryItem>, before: seq<HistoryItem>, latest: HistoryItem)
    requires |prev| == (if |before| < HistoryLimit then |before| else HistoryLimit)
    requires NewestFirst(prev, before)
    requires forall i | 0 <= i < |before| :: before[i].date != latest.date
    ensures |UpsertHistory(prev, latest)| == (if |before| + 1 < HistoryLimit then |before| + 1 else HistoryLimit)
    ensures NewestFirst(UpsertHistory(prev, latest), before + [latest])
  {
    var days := before + [latest];
    var n := |days|;
    forall i | 0 <= i < |prev|
      ensures prev[i] == days[n - 2 - i]
    {
      assert prev[i] == before[n - 2 - i];
    }
    LatestNotRecorded(prev, days);
    UpsertShiftsBack(prev, latest);
    var r := UpsertHistory(prev, latest);
    forall i | 0 < i < |r|
      ensures r[i] == days[n - 1 - i]
    {
      assert r[i] == prev[i - 1];
    }
  }

  /** Dropping the newest day keeps dates unique; the newest date occurs nowhere before it. */
  lemma LatestIsNew(days: seq<HistoryItem>)
    requires UniqueDates(days) && days != []
    ensures UniqueDates(days[..|days| - 1])
    ensures forall i | 0 <= i < |days| - 1 :: days[i].date != days[|days| - 1].date
  {
  }

  /** A log holding only earlier days, newest first, has no entry for the newest day. */
  lemma LatestNotRecorded(log: seq<HistoryItem>, days: seq<HistoryItem>)
    requires days != [] && |log| <= |days| - 1
    requires forall i | 0 <= i < |log| :: log[i] == days[|days| - 2 - i]
    requires forall i | 0 <= i < |days| - 1 :: days[i].date != days[|days| - 1].date
    ensures !HasDate(log, days[|days| - 1].date)
  {
    forall i | 0 <= i < |log|
      ensures log[i].date != days[|days| - 1].date
    {
      assert log[i] == days[|days| - 2 - i];
    }
  }

  /** Inserting, position by position: entry i of the old log is entry i + 1 of the new one. */
  lemma UpsertShiftsBack(history: seq<HistoryItem>, item: HistoryItem)
    requires !HasDate(history, item.date)
    ensures |UpsertHistory(history, item)| == (if |history| < HistoryLimit then |history| + 1 else HistoryLimit)
    ensures UpsertHistory(history, item)[0] == item
    ensures forall i | 0 < i < |UpsertHistory(history, item)| :: UpsertHistory(history, item)[i] == history[i - 1]
  {
    UpsertPrepends(history, item);
    var r := UpsertHistory(history, item);
    forall i | 0 < i < |r|
      ensures r[i] == history[i - 1]
    {
      assert r[i] == r[1..][i - 1];
    }
  }

  // ---------------------------------------------------------------------
  // Properties of the daily-reveal state.

  /** After a save, the same day reads back the saved charm as revealed and finds it in the log. */
  lemma SaveThenReadSameDay(items: map<string, StoredValue>, charm: CharmData, today: string)
    ensures DailyCharmIn(AfterSave(items, charm, today), today) == Some(charm)
    ensures RevealedIn(AfterSave(items, charm, today), today)
    ensures |HistoryIn(items)| <= HistoryLimit ==> HistoryItem(today, charm) in HistoryIn(AfterSave(items, charm, today))
    ensures HistoryIn(AfterSave(items, charm, today)) == UpsertHistory(HistoryIn(items), HistoryItem(today, charm))
  {
  }

  /** On any other day the saved charm is not returned and does not count as revealed. */
  lemma SaveThenReadOtherDay(items: map<string, StoredValue>, charm: CharmData, saved: string, today: string)
    requires saved != today
    ensures DailyCharmIn(AfterSave(items, charm, saved), today) == None
    ensures !RevealedIn(AfterSave(items, charm, saved), today)
  {
  }

  /**
   * The reset getDailyCharm writes on a stale day changes neither what the
   * day reads as nor the log nor the settings.
   */
  lemma StaleResetKeepsReads(items: map<string, StoredValue>, today: string)
    requires CharmDateKey !in items || items[CharmDateKey] != Raw(today)
    ensures DailyCharmIn(items, today) == None && !RevealedIn(items, today)
    ensures var reset := items[CharmRevealedKey := Raw("false")];
      && DailyCharmIn(reset, today) == None
      && !RevealedIn(reset, today)
      && HistoryIn(reset) == HistoryIn(items)
      && EnabledIn(reset) == EnabledIn(items)
      && TimeIn(reset) == TimeIn(items)
  {
  }

  /** Saving a charm leaves the notification settings as they were. */
  lemma SaveKeepsSettings(items: map<string, StoredValue>, charm: CharmData, today: string)
    ensures EnabledIn(AfterSave(items, charm, today)) == EnabledIn(items)
    ensures TimeIn(AfterSave(items, charm, today)) == TimeIn(items)
  {
  }

  /** The state a well-formed store keeps: a log of at most 30 entries with unique dates. */
  predicate WellFormedLog(items: map<string, StoredValue>) {
    |HistoryIn(items)| <= HistoryLimit && UniqueDates(HistoryIn(items))
  }

  /** Every write of utils/storage.ts keeps the log well formed. */
  lemma WritesKeepLogWellFormed(items: map<string, StoredValue>, charm: CharmData, today: string, enabled: bool, time: NotificationTime)
    requires WellFormedLog(items)
    ensures WellFormedLog(AfterSave(items, charm, today))
    ensures WellFormedLog(items[CharmRevealedKey := Raw("false")])
    ensures WellFormedLog(items[NotificationsEnabledKey := Raw(BoolText(enabled))])
    ensures WellFormedLog(items[NotificationTimeKey := TimeJson(time)])
  {
    UpsertKeepsLogWellFormed(HistoryIn(items), HistoryItem(today, charm));
  }

  /**
   * The daily-reveal invariant: a stored "true" flag always comes with a
   * stored charm. saveDailyCharm writes the charm before the flag, and the
   * only other write to the flag stores "false".
   */
  predicate RevealedHasCharm(items: map<string, StoredValue>) {
    (CharmRevealedKey in items && items[CharmRevealedKey] == Raw("true"))
      ==> (DailyCharmKey in items && items[DailyCharmKey].CharmJson?)
  }

  /** An empty store satisfies the invariant, and every write of utils/storage.ts keeps it. */
  lemma WritesKeepRevealedHasCharm(items: map<string, StoredValue>, charm: CharmData, today: string, enabled: bool, time: NotificationTime)
    ensures RevealedHasCharm(map[])
    ensures RevealedHasCharm(items) ==> RevealedHasCharm(AfterSave(items, charm, today))
    ensures RevealedHasCharm(items) ==> RevealedHasCharm(items[CharmRevealedKey := Raw("false")])
    ensures RevealedHasCharm(items) ==> RevealedHasCharm(items[NotificationsEnabledKey := Raw(BoolText(enabled))])
    ensures RevealedHasCharm(items) ==> RevealedHasCharm(items[NotificationTimeKey := TimeJson(time)])
  {
  }

  /** Under the invariant, a day that reads as revealed also reads back a charm. */
  lemma RevealedMeansCharm(items: map<string, StoredValue>, today: string)
    requires RevealedHasCharm(items) && RevealedIn(items, today)
    ensures DailyCharmIn(items, today).Some?
  {
  }

  // ---------------------------------------------------------------------
  // Notification settings.

  /** Setting the flag and reading it back gives the value set. */
  lemma EnabledRoundTrip(items: map<string, StoredValue>, enabled: bool)
    ensures EnabledIn(items[NotificationsEnabledKey := Raw(BoolText(enabled))]) == enabled
  {
  }

  /** Setting the time and reading it back gives the time set. */
  lemma TimeRoundTrip(items: map<string, StoredValue>, hours: int, minutes: int)
    ensures TimeIn(items[NotificationTimeKey := TimeJson(NotificationTime(hours, minutes))]) == NotificationTime(hours, minutes)
  {
  }

  /** A store that never held the settings reads them as on, at 10:00. */
  lemma SettingsDefaults(items: map<string, StoredValue>)
    requires NotificationsEnabledKey !in items && NotificationTimeKey !in items
    ensures EnabledIn(items) && TimeIn(items) == NotificationTime(10, 0)
  {
  }

  // ---------------------------------------------------------------------
  // Callers' view: the operations chained on one store.

  /** A save followed, on the same day, by the two reads of the home screen. */
  method SaveThenLoad(store: AsyncStorage, charm: CharmData, today: string) returns (loaded: Option<CharmData>, revealed: bool)
    modifies store
    ensures !store.failing ==> loaded == Some(charm) && revealed
    ensures store.failing ==> loaded == None && !revealed && store.items == old(store.items)
  {
    SaveDailyCharm(store, charm, today);
    revealed := HasRevealedToday(store, today);
    loaded := GetDailyCharm(store, today);
  }

  /** Each setting read back after it is written gives the value written. */
  method SettingsRoundTrip(store: AsyncStorage, enabled: bool, hours: int, minutes: int)
    returns (enabledRead: bool, timeRead: NotificationTime)
    modifies store
    ensures !store.failing ==> enabledRead == enabled && timeRead == NotificationTime(hours, minutes)
    ensures store.failing ==> enabledRead && timeRead == DefaultNotificationTime
  {
    SetNotificationsEnabled(store, enabled);
    SetNotificationTime(store, hours, minutes);
    enabledRead := GetNotificationsEnabled(store);
    timeRead := GetNotificationTime(store);
  }
}
