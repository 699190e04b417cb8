# basketboltv-api: the match-line normaliser, in Dafny

`get_match_data` in `scraper.py` fetches a sports-schedule page, reads its
JSON-LD event list and turns every event record into one display line

    <date label> <HH:MM> | <teams> | <channel>

The date label is "Bugün" when the event is today in Istanbul, "Yarın" when it
is tomorrow, and otherwise `DD.MM <weekday>` with a Turkish weekday
abbreviation. A missing value becomes a placeholder: "Tarih/Saat Yok", "N/A"
or "Kanal Yok". A record that raises `KeyError`, `IndexError` or `TypeError`
is skipped, and the loop goes on with the next record. Any other exception
escapes from the function.

This project models that function and proves what it promises:

- `calendar.dfy` (module `Calendar`): dates numbered as Python's
  `date.toordinal` numbers them, the next calendar day, and the weekday.
  The proofs show that "one day after" is real calendar arithmetic across
  month and year ends.
- `text.dfy` (module `Text`): zero-padded two-digit fields, as `strftime`
  writes `%d`, `%m`, `%H` and `%M`.
- `events.dfy` (module `Events`): an event record reduced to what steers the
  code. For each key it says whether the key is present and, where it matters,
  which kind of JSON value it holds.
- `normalizer.dfy` (module `Normalizer`): the loop body as a pure function
  `FormatEvent`. Its result is a line, a skip (a caught exception) or a raise
  (an uncaught exception). The module also holds the weekday table and the
  date-label rule.
- `scraper.dfy` (module `Scraper`): the loop. `Gather` is the loop over what
  each pass of the body yields, and `Collect` is its specification over the
  list of records: `Gather` of the records' outcomes. `GetMatchData` is the
  imperative function: early returns, then a `for` loop that appends to the
  list of lines. It is proved equal to `Respond`.

Inputs the code gets from libraries or the clock are parameters:

- the outcome of the HTTP request and of the HTML/JSON decoding (`Fetch`, `Page`);
- each start time, already converted to Istanbul wall-clock time (`LocalTime`);
- today's date in Istanbul (`today`).

The source evaluates a record in this order: the details object, the team
name, the start time, then the channel. The model keeps that order, so the
first failing part decides whether a record is skipped or the call fails.

Two consequences of the code that are easy to miss:

- A record without `broadcastOfEvent` is kept whenever its channel part
  succeeds. scraper.py:55 reads the missing key as `{}`, so the line gets
  "Tarih/Saat Yok" and "N/A" (`MissingDetailsKept`). Its channel part can still
  fail: an empty `broadcastChannel` list skips it, and a non-empty string there
  ends the call.
- An `AttributeError` or a `ValueError` in a record is not caught at
  scraper.py:85, and it ends the whole call. An `AttributeError` comes, for
  example, from a `null` `broadcastOfEvent` or from a non-empty string as
  `broadcastChannel`; a `ValueError` comes from a malformed timestamp. The
  model shows this as `Response.Crashed` (`AbortedExactlyOnRaise`).

## Model

| member | source | states |
|---|---|---|
| Calendar.DaysBeforeYearClosedForm | scraper.py:66-69 | the year-by-year day count equals the closed form `365p + p/4 - p/100 + p/400` (p = year - 1) that Python's date arithmetic uses |
| Calendar.DayNumber | scraper.py:66-69 | the number `toordinal` gives a valid date lies after all days of the earlier years and within the days of its own year (with `DayNumberInjective` and `NextDayNumber`, it is the day count `match_date - today` subtracts) |
| Calendar.NextDay | scraper.py:69 | the next calendar day is a valid date, in the same year or on 1 January of the next |
| Calendar.NextDayNumber | scraper.py:69 | the next calendar day's number is one more, across month and year ends and leap days |
| Calendar.DayNumberInjective | scraper.py:66-69 | two valid dates with the same day number are the same date |
| Calendar.DayAfterIsNextDay | scraper.py:69 | `(d - t).days == 1` holds exactly when `d` is the calendar day after `t` |
| Calendar.WeekdayIndex | scraper.py:62 | the weekday of a date is one of seven, Monday being 0 |
| Calendar.EnglishAbbr | scraper.py:62 | `%a` gives one of the seven English abbreviations |
| Calendar.WeekdayAdvances | scraper.py:62 | the next calendar day has the next weekday, Sunday wrapping to Monday |
| Calendar.KnownSunday | scraper.py:62 | 28 September 2025 is printed as "Sun" |
| Text.TwoDigits | scraper.py:72-74 | a number below 100 prints as exactly two digits that read back as that number |
| Text.TwoDigitsInjective | scraper.py:72-74 | two numbers print the same two digits only when they are equal |
| Normalizer.GunMapTable | scraper.py:48-51 | the keys of `gun_map` are exactly the seven English abbreviations, its values exactly the seven Turkish ones, and Mon..Sun map to Pzt..Paz in order |
| Normalizer.GunMapInjective | scraper.py:48-51 | no two keys of `gun_map` map to the same abbreviation |
| Normalizer.TurkishDay | scraper.py:63 | `gun_map.get(key, key)`: a key in the table gives a Turkish abbreviation; any other key is returned unchanged |
| Normalizer.WeekdayTranslation | scraper.py:62-63 | the abbreviation printed for a date is the Turkish name of that date's own weekday |
| Normalizer.DateLabel | scraper.py:66-72 | "Bugün" exactly when the date is today; "Yarın" exactly when it is not today and the day difference is 1; otherwise two-digit day, '.', two-digit month, ' ', and the date's Turkish weekday |
| Normalizer.TomorrowLabel | scraper.py:69-70 | "Yarın" is printed exactly for the calendar day after today |
| Normalizer.ClockText | scraper.py:74 | the time is five characters `HH:MM` whose two fields read back as the hour and the minute |
| Normalizer.DateTimeField | scraper.py:58-77 | the date/time field is produced exactly when the start time is absent, falsy or a valid timestamp; without one it is "Tarih/Saat Yok"; with one it is the date label, a space and the five-character `HH:MM`; a non-string start time exactly gives a skip with TypeError and a malformed one exactly an escaping ValueError |
| Normalizer.TeamsField | scraper.py:55-56 | the team field is the details' own name when they give one, and "N/A" otherwise (also for a missing `broadcastOfEvent`) |
| Normalizer.ChannelField | scraper.py:79-80 | the channel field is produced exactly when `broadcastChannel` is missing or a list whose first element is an object, and is then that element's own name when it has one, and "Kanal Yok" when it has none; an empty list or empty string exactly gives IndexError, an object exactly KeyError, a scalar exactly TypeError; every other case escapes with AttributeError |
| Normalizer.FormatEvent | scraper.py:54-83 | a record, or details, that is not an object escapes with AttributeError; otherwise the record gives a line exactly when both the date/time and the channel fields are produced, the line being `dateTime &#124; teams &#124; channel`, and else the outcome is that of the date/time field if it failed, or of the channel field (see also `UntimedRecord`, `TimedLineLayout`, `TeamsPlaceholder`, `ChannelPlaceholder`) |
| Normalizer.UntimedRecord | scraper.py:58-77 | with no or a falsy start time, the record's outcome does not depend on today, and an emitted line starts with "Tarih/Saat Yok &#124; " |
| Normalizer.TimedLineLayout | scraper.py:74-82 | with a start time, an emitted line starts with the date label, a space, `HH:MM` and " &#124; " |
| Normalizer.TeamsPlaceholder | scraper.py:55-56 | a missing team name gives "N/A" between the date/time field and the channel field |
| Normalizer.ChannelPlaceholder | scraper.py:79-82 | a missing channel list, or a first channel without a name, gives exactly the line of the record's date/time field, its team field and "Kanal Yok" |
| Normalizer.MissingDetailsKept | scraper.py:55-56 | a record without `broadcastOfEvent` is handled as one with empty details; it is kept exactly when its channel part succeeds, with both placeholders |
| Normalizer.EmptyChannelListSkipped | scraper.py:79-87 | an empty `broadcastChannel` list is skipped with IndexError, unless an earlier part of the record failed first |
| Normalizer.ExampleDateTime | scraper.py:60-75 | 13:00 on 28 September 2025, seen on 30 September, gives "28.09 Paz 13:00" |
| Scraper.Gather | scraper.py:53-87 | a line is appended for each successful pass, nothing for a caught exception, and an uncaught one stops the loop, so there is at most one line per pass |
| Scraper.GatherConcat | scraper.py:53-87 | on outcomes, the loop over `a + b` is the loop over `a` followed by the loop over `b` |
| Scraper.GatherSkipped | scraper.py:83-87 | on outcomes, a caught exception anywhere in the sequence changes nothing in the result |
| Scraper.GatherSubsequence | scraper.py:53-89 | on outcomes, the lines are the successful passes' lines, in order, and every other pass was a caught exception |
| Scraper.GatherAborted | scraper.py:53-87 | on outcomes, the loop stops exactly when some pass raised an uncaught exception, with the first such exception |
| Scraper.OutcomesConcat | scraper.py:53-87 | each record's outcome depends only on that record: the outcomes of `a + b` are those of `a` followed by those of `b` |
| Scraper.Collect | scraper.py:53-87 | the loop gives at most one line per record |
| Scraper.CollectConcat | scraper.py:53-87 | no state passes between records: the loop over `a + b` is the loop over `a` followed by the loop over `b` |
| Scraper.SkippedRecordDropped | scraper.py:83-87 | a record with a caught exception adds no line, not even part of one; the records around it give the same lines as if it were absent |
| Scraper.EmptyChannelRecordDropped | scraper.py:79-87 | a record with an empty channel list is dropped and the records before and after it are kept in order |
| Scraper.CollectSubsequence | scraper.py:53-89 | the lines come from a strictly increasing list of record positions, each line being that record's own line, and every record not in the list was skipped |
| Scraper.AbortedExactlyOnRaise | scraper.py:53-87 | the call fails exactly when some record raises an uncaught exception, and it fails with the first such record's exception |
| Scraper.Respond | scraper.py:23-89 | the error object comes exactly from a failed request and carries its message; a missing or undecodable JSON-LD block gives `[]`; otherwise the result is a line array exactly when the loop finishes, its lines are exactly the collected lines `Collect` gives (so `CollectSubsequence`, `SkippedRecordDropped`, `EmptyChannelRecordDropped` and `CollectConcat` describe what `GetMatchData` returns), there is at most one line per record, and the call fails exactly when some record raises an uncaught exception, with the exception of the first record that raises one (the one `AbortedExactlyOnRaise` names) |
| Scraper.GetMatchData | scraper.py:18-89 | the imperative function, with its early returns and its loop over the records, returns exactly `Respond`: the error object, `[]`, the collected lines, or the escaped exception |

## Left out

- The HTTP request (scraper.py:19-29): `requests.get`, the User-Agent header and `raise_for_status`. This is network I/O. Only its outcome is modelled: `FetchFailed(message)` or a page.
- HTML parsing and the search for the `application/ld+json` script tag (scraper.py:31-38), and `json.loads` (scraper.py:40-45). These are library calls. Only their outcomes are modelled: no tag, undecodable JSON, or a decoded array of records.
- A decoded value that is not an array. An empty object `{}` or an empty string `""` has length 0, so the loop runs zero times and the call returns `[]` (scraper.py:42, 53, 89). A non-empty object or string is iterated by key or character, and the first `event.get` raises an uncaught AttributeError. A number, a boolean or `null` makes `len(data)` raise TypeError at scraper.py:42, where only JSONDecodeError is caught. The model takes the decoded value to be an array.
- A script tag whose `.string` is `None`: `json.loads(None)` raises TypeError at scraper.py:41, and nothing catches it. The model has no outcome for it.
- ISO-8601 parsing and the conversion to Europe/Istanbul (scraper.py:47, 60-61). These are library and time-zone-database behaviour. The model takes the converted wall-clock date, hour and minute as input. A timestamp without an offset, which `astimezone` reads in the server's own zone, is not modelled apart from that.
- The clock (scraper.py:65): the source reads `datetime.now` once per timed record. The model takes one `today` for the whole batch. A run that crosses midnight, and so sees two different days, is not modelled.
- `strftime("%a")` depends on the locale. The model uses the C locale's English abbreviations, so `gun_map` always finds the key. The fallback for a missing key is still stated, by the contract of `TurkishDay`.
- Team and channel names that are not strings, which Python prints with `str()` (a JSON `null` name prints as "None"). Names are strings in the model.
- Seconds and sub-second parts of the timestamp. They do not appear in the line.
- Python's upper year limit of 9999. The model's calendar has no upper bound.
- An OverflowError from the time-zone conversion. Converting a timestamp near year 1 or year 9999 to Istanbul time (scraper.py:61) can leave the range of `datetime`. That error is not caught at scraper.py:85 and would end the call, but `StartDate` has no case for it.
- The Flask app, CORS, the route handler with `json.dumps(ensure_ascii=False)`, its status and headers, `app.run`, and the `print` logging (scraper.py:4-16, 22-28, 37, 42-44, 86, 91-98). These are server plumbing and I/O.
- Idempotence: two runs with the same page and the same `today` give the same output. This needs no lemma, because every member of the model is a function of its inputs.
