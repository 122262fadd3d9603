# Coffee charm: the daily selector and its persisted state

This project models the two parts of the coffee-charm app that carry logic.

- The date-seeded charm selector (`getCharmForDate`) and its constant catalog, from `constants/charms.ts`.
  - The selector takes the `YYYY-MM-DD` part of a timestamp's ISO text.
  - It runs the multiply-by-31 string hash over that text in JavaScript 32-bit arithmetic.
  - `Math.abs(hash) % 150` then picks one of the 150 catalog entries.
- The persisted daily-reveal state, the history log and the notification settings, from `utils/storage.ts`.
  - These live in an asynchronous string-keyed store.

Modules:

- `JsInt32` gives the JavaScript number semantics the selector depends on:
  - ToInt32 (wrap modulo 2^32 into the signed range);
  - `<<`;
  - `&`, bit by bit;
  - `Math.abs`, which works on doubles and so never overflows.
- `Storage` holds the store and the operations of `utils/storage.ts`.
  - The store is a class, `AsyncStorage`, whose `items` map the operations update in place.
  - When its `failing` flag is set, every call rejects and each operation takes its catch path.
  - Values the program writes with `JSON.stringify` and reads with `JSON.parse` are stored as typed values. Only `Raw` holds a plain string.
  - The current day (`getTodayString()`) is a parameter `today`.
- `Charms` holds the catalog, the hash loop and the selection.
  - The selector takes the `toISOString()` text of its date, not the `Date` object.
- `Wrappers` holds `Option` and `Settled`, the outcome of a promise (resolved or rejected).

The hash is proved equal to the unbounded polynomial hash wrapped once to 32 bits.
- The loop computes `(hash << 5) - hash + char`, then `hash & hash`.
- Each step equals `ToInt32(31 * hash + char)`.
- The whole fold equals `ToInt32` of the unbounded multiply-by-31 polynomial hash.
- This gives a fixed vector for cross-implementation checks:
  - the date `2024-01-15` hashes to `-613341597`;
  - that hash selects position 147 (the charm with id 148);
  - a two-entry catalog would get position 1.

The day is the UTC calendar date: `getTodayString` (utils/storage.ts:26) and `getCharmForDate` (constants/charms.ts:206) both take it from `toISOString()`, which is in UTC. The model works on that date.

## Model

| member | source | states |
|---|---|---|
| JsInt32.ToInt32 | constants/charms.ts:211 | the result is a signed 32-bit integer congruent to the argument modulo 2^32 |
| JsInt32.ToInt32Unique | constants/charms.ts:211 | ToInt32 gives the only signed 32-bit integer congruent to its argument |
| JsInt32.ToInt32Congruent | constants/charms.ts:210-211 | arguments congruent modulo 2^32 wrap to the same 32-bit value |
| JsInt32.ShiftLeft | constants/charms.ts:210 | `x << count` always yields a signed 32-bit integer |
| JsInt32.ShiftLeftIsMultiplication | constants/charms.ts:210 | `x << count` is multiplication by 2^(count mod 32), modulo 2^32 |
| JsInt32.ToUint32 | constants/charms.ts:211 | ToUint32, the conversion `&` applies to each operand, yields the value in [0, 2^32) congruent to the argument modulo 2^32 |
| JsInt32.FromUint32 | constants/charms.ts:211 | reading an unsigned 32-bit pattern back as signed yields the signed 32-bit integer congruent to it modulo 2^32 |
| JsInt32.AndBits | constants/charms.ts:211 | the bitwise and of the low `width` bits fits in `width` bits |
| JsInt32.AndBitsSelf | constants/charms.ts:211 | and-ing a `width`-bit value with itself gives the value back |
| JsInt32.BitAnd | constants/charms.ts:211 | `x & y` always yields a signed 32-bit integer |
| JsInt32.BitAndSelf | constants/charms.ts:211 | `x & x` is exactly ToInt32(x), the truncation to 32 bits the comment announces |
| JsInt32.Abs | constants/charms.ts:215 | `Math.abs` is non-negative and is the argument or its negation; it does not overflow at -2^31 |
| Charms.SectionsNumbered1To20 | constants/charms.ts:21-48 | the first two sections carry ids 1..20 in order, each with one of the ten icons |
| Charms.SectionsNumbered21To40 | constants/charms.ts:49-72 | the next two sections carry ids 21..40 in order, with known icons |
| Charms.SectionsNumbered41To60 | constants/charms.ts:73-96 | the next two sections carry ids 41..60 in order, with known icons |
| Charms.SectionsNumbered61To80 | constants/charms.ts:97-120 | the next two sections carry ids 61..80 in order, with known icons |
| Charms.SectionsNumbered81To110 | constants/charms.ts:121-156 | the next three sections carry ids 81..110 in order, with known icons |
| Charms.AdditionalCharmsNumbered | constants/charms.ts:157-200 | the last section has 40 entries with ids 111..150 in order |
| Charms.AdditionalCharmsIconsKnown | constants/charms.ts:157-200 | every icon of the last section is one of the ten icon tags |
| Charms.NumberedConcat | constants/charms.ts:20-201 | two consecutively numbered runs joined in order form one consecutively numbered run |
| Charms.CatalogWellFormed | constants/charms.ts:4-201 | the catalog has exactly 150 entries, the entry at position i has id i + 1, and every icon is one of the ten `CHARM_ICONS` tags |
| Charms.CatalogSize | constants/charms.ts:20-201 | the catalog holds exactly 150 charms |
| Charms.CatalogEntry | constants/charms.ts:20-201 | the entry at any position has id position + 1 and one of the ten icons |
| Charms.CatalogIdsAscending | constants/charms.ts:20-201 | catalog ids are strictly ascending, hence unique |
| Charms.DatePrefix | constants/charms.ts:206 | `split("T")[0]` is the longest prefix without a 'T', and a 'T' follows it whenever it is not the whole text |
| Charms.DatePrefixOfIsoTimestamp | constants/charms.ts:206 | for a `toISOString()` text the date part is its first ten characters |
| Charms.HashStep | constants/charms.ts:209-211 | one loop step leaves `hash` in the signed 32-bit range |
| Charms.DateHash | constants/charms.ts:207-212 | after every iteration `hash` is a signed 32-bit integer |
| Charms.ShiftSubtractIsTimes31 | constants/charms.ts:210 | `(hash << 5) - hash + char` agrees with `31 * hash + char` modulo 2^32 |
| Charms.HashStepIsTimes31 | constants/charms.ts:210-211 | each loop step computes exactly ToInt32(31 * hash + char) |
| Charms.DateHashIsPolynomial | constants/charms.ts:207-212 | the 32-bit loop result equals the unbounded multiply-by-31 polynomial hash wrapped once to 32 bits |
| Charms.CharmIndex | constants/charms.ts:215 | `Math.abs(hash) % length` is a valid catalog position for every hash, -2^31 included |
| Charms.CharmForDate | constants/charms.ts:204-217 | the charm selected for a timestamp is a catalog element with an id in 1..150 and one of the ten icons |
| Charms.HashDateString | constants/charms.ts:207-212 | the `for` loop over the date text computes exactly DateHash of that text |
| Charms.GetCharmForDate | constants/charms.ts:204-217 | the loop computes the specified hash; the result is a catalog element, namely the entry whose id is its position plus one |
| Charms.SameDaySameCharm | constants/charms.ts:206-216 | two timestamps with the same `YYYY-MM-DD` part select the same charm |
| Charms.IndexOfMostNegativeHash | constants/charms.ts:215 | for hash -2^31, `Math.abs` gives 2^31 and the index is 98 |
| Charms.GoldenPolynomial | constants/charms.ts:207-212 | the unbounded polynomial hash of "2024-01-15" is 1364342992873059 |
| Charms.GoldenHash | constants/charms.ts:207-212 | the 32-bit hash of "2024-01-15" is -613341597 |
| Charms.GoldenDatePrefix | constants/charms.ts:206 | the date part of "2024-01-15T09:30:00.000Z" is "2024-01-15" |
| Charms.GoldenIndex | constants/charms.ts:215-216 | hash -613341597 selects position 147, the charm with id 148, and position 1 of a two-entry catalog |
| Charms.GoldenCharm | constants/charms.ts:204-217 | a timestamp on 2024-01-15 selects the charm with id 148 |
| Storage.AsyncStorage.constructor | utils/storage.ts:1 | a fresh store holds no keys and does not fail |
| Storage.AsyncStorage.GetItem | utils/storage.ts:63 | `getItem` rejects on a failing store, otherwise resolves to the stored value or null for a key never written |
| Storage.AsyncStorage.SetItem | utils/storage.ts:33-35 | `setItem` overwrites one key and changes nothing else; on a failing store it rejects and changes nothing |
| Storage.BoolText | utils/storage.ts:134 | `enabled.toString()` is "true" exactly for true and "false" exactly for false |
| Storage.HistoryIn | utils/storage.ts:104-108 | a stored array is read back in full; otherwise (absent or not an array) the read yields the empty log |
| Storage.DailyCharmIn | utils/storage.ts:63-76 | a charm is returned exactly when today's date and a charm record are stored, and it is that record |
| Storage.RevealedIn | utils/storage.ts:86-94 | revealed exactly when today's date and the flag "true" are stored; SaveThenReadSameDay and SaveThenReadOtherDay relate it to a save |
| Storage.EnabledIn | utils/storage.ts:121 | on when the key is absent, otherwise exactly when "true" is stored; its partner is EnabledRoundTrip |
| Storage.TimeIn | utils/storage.ts:146-150 | a stored time is read back as stored; otherwise the read yields 10:00 |
| Storage.UpsertHistory | utils/storage.ts:42-50 | the log after recording has at most 30 entries, and from a log of at most 30 it holds the new entry |
| Storage.AfterSave | utils/storage.ts:33-54 | a save adds or overwrites exactly the four keys it writes, every other key keeps its value, and the log then reads back as the upserted log |
| Storage.FindDate | utils/storage.ts:42 | `findIndex` reports none exactly when no entry has the date; otherwise a matching position with no earlier match |
| Storage.FindIndex | utils/storage.ts:42 | the search loop returns -1 exactly when no entry has the date, else the first matching position |
| Storage.GetCharmHistory | utils/storage.ts:102-113 | the stored log, or empty when absent, unreadable or on failure |
| Storage.SaveDailyCharm | utils/storage.ts:30-58 | the store afterwards holds the charm, today's date, the "true" flag and the upserted, trimmed log; a failing store keeps every key |
| Storage.GetDailyCharm | utils/storage.ts:61-81 | returns the charm saved today, else null; on a stale or missing date it writes "false" to the revealed flag and nothing else |
| Storage.HasRevealedToday | utils/storage.ts:84-99 | true exactly when today's date and the flag "true" are stored and nothing fails; writes nothing |
| Storage.GetNotificationsEnabled | utils/storage.ts:116-126 | true when the key is absent or on failure, otherwise whether "true" is stored |
| Storage.SetNotificationsEnabled | utils/storage.ts:128-139 | stores the flag's text under its key and changes nothing else |
| Storage.GetNotificationTime | utils/storage.ts:141-155 | the stored time, or 10:00 when absent, unreadable or on failure |
| Storage.SetNotificationTime | utils/storage.ts:157-169 | stores the time under its key and changes nothing else |
| Storage.UpsertReplacesInPlace | utils/storage.ts:42-50 | with today already logged and at most 30 entries, the first match becomes the new entry; the length and every other position stay as they were |
| Storage.UpsertPrepends | utils/storage.ts:45-50 | with today not logged, the new entry is first and old entry i moves to i + 1; only the old last entry is dropped, and only from a full log |
| Storage.UpsertShiftsBack | utils/storage.ts:45-50 | with today not logged, the new entry is at position 0 and each later position holds the old entry one place before it |
| Storage.UpsertKeepsLogWellFormed | utils/storage.ts:42-50 | the log stays within 30 entries with unique dates; from at most 30 entries the new entry is always kept |
| Storage.FindDateAtFront | utils/storage.ts:42 | a log whose first entry has the date is matched at position 0 |
| Storage.FirstMatchIsFound | utils/storage.ts:42 | a matching position with no earlier match is the one `findIndex` reports |
| Storage.SecondSaveSupersedes | utils/storage.ts:38-54 | two saves on one day leave the log exactly as a single save of the second charm would |
| Storage.RecordNewest | utils/storage.ts:42-50 | recording a new day into the newest-first log of the earlier days gives the newest-first log of all of them |
| Storage.RecordAllKeepsMostRecent | utils/storage.ts:38-54 | saving on distinct days leaves min(n, 30) entries: the most recent days, newest first |
| Storage.SaveThenReadSameDay | utils/storage.ts:30-99 | for every store, after a save the same day reads back the saved charm, counts as revealed, and reads the log back as the old log with today's entry upserted; from a log of at most 30 entries today's entry is in it |
| Storage.SaveThenReadOtherDay | utils/storage.ts:61-91 | on any other day the saved charm is not returned and does not count as revealed |
| Storage.StaleResetKeepsReads | utils/storage.ts:66-69 | on a stale date both reads report nothing; the reset write changes neither them nor the log nor the settings |
| Storage.SaveKeepsSettings | utils/storage.ts:30-58 | saving a charm leaves both notification settings as they read before |
| Storage.WritesKeepLogWellFormed | utils/storage.ts:30-169 | every write of the module keeps the log within 30 entries with unique dates |
| Storage.RevealedHasCharm | utils/storage.ts:33-35 | the daily-reveal invariant: a stored "true" flag comes with a stored charm |
| Storage.WritesKeepRevealedHasCharm | utils/storage.ts:30-169 | an empty store satisfies the invariant, and the save, the "false" reset and both settings writes keep it |
| Storage.RevealedMeansCharm | utils/storage.ts:61-99 | under the invariant, a day on which hasRevealedToday answers true is one on which getDailyCharm returns a charm |
| Storage.EnabledRoundTrip | utils/storage.ts:116-139 | setting the notifications flag and reading it back gives the value set |
| Storage.TimeRoundTrip | utils/storage.ts:141-169 | setting the notification time and reading it back gives the time set |
| Storage.SettingsDefaults | utils/storage.ts:116-155 | a store that never held the settings reads them as on, at 10:00 |
| Storage.SaveThenLoad | utils/storage.ts:30-99 | a save followed on the same day by both reads returns the charm as revealed; on failure nothing changes and the defaults come back |
| Storage.SettingsRoundTrip | utils/storage.ts:116-169 | both setters followed by both getters return the values set, or the defaults on failure |

## Left out

- Charms.BulgarianCharms: the Bulgarian texts of the 150 charms are left empty. Only the ids and icons carry structure, and the long literals would make every proof about the catalog much slower. The selector returns the right id and icon.
- `getRandomCharm` is not modelled, because it depends on `Math.random`.
- `getTodayString` reads the clock through `new Date()`; the day is the parameter `today`. `GetCharmForDate` takes the `toISOString()` text of its `Date`. The RangeError that `toISOString` throws for an invalid `Date` is not modelled; the only caller passes `new Date()`.
- JSON: a stored value is either a plain string or the typed record the program wrote. Hand-written JSON text of some other shape is not modelled. Neither is a key holding text that `JSON.parse` rejects. Both would be reachable only by writing the store outside this module.
- Storage.AsyncStorage: a single `failing` flag makes every call fail or none.
  - Writes that succeed before a later one fails (a partial save) are not modelled.
  - Neither is the case where `getCharmHistory` swallows a failing read while the writes around it succeed.
- The `async`/`await` scheduling, interleaving with other callers, and `console.error` logging are left out. Each operation runs to completion in one step.
- `charCodeAt` gives UTF-16 code units. The model uses the character's code, which is the same for the ASCII characters of a date.
- Numbers are mathematical integers. Every value the selector produces is an integer below 2^53, so double rounding never occurs.
- The evenness of the charm distribution over dates is a statistical claim and is not stated.
- The UI components, the colour constants, `app/_layout.tsx` and `utils/notifications.ts` are not part of this model. They render, style, or forward to the notification service and to the setters above.
