/** The body of the `for event in data` loop of `get_match_data`
    (scraper.py): one event record becomes one display line
    `<date/time> | <teams> | <channel>`, or the record is skipped
    (an exception the loop catches), or the whole call fails
    (an exception it does not catch). */
module Normalizer {
  import opened Calendar
  import opened Text
  import opened Events

  /** The exceptions listed in the loop's `except` clause. */
  datatype Caught = KeyError | IndexError | TypeError

  /** Exceptions a record can raise that the loop does not catch. */
  datatype Uncaught = AttributeError | ValueError

  /** What evaluating part of a record gives. */
  datatype Attempt<T> = Ok(value: T) | Skipped(caught: Caught) | Raised(uncaught: Uncaught)

  const NO_DATE_TIME := "Tarih/Saat Yok"
  const NO_TEAMS := "N/A"
  const NO_CHANNEL := "Kanal Yok"
  const TODAY := "Bugün"
  const TOMORROW := "Yarın"

  /** Turkish weekday abbreviations, Monday first, as `WeekdayIndex` counts. */
  const TURKISH_ABBRS: seq<string> := ["Pzt", "Sal", "Çar", "Per", "Cum", "Cmt", "Paz"]

  /** `gun_map`: English `%a` abbreviations to Turkish ones. */
  const GUN_MAP: map<string, string> :=
    map["Mon" := "Pzt", "Tue" := "Sal", "Wed" := "Çar", "Thu" := "Per",
        "Fri" := "Cum", "Sat" := "Cmt", "Sun" := "Paz"]

  /** `gun_map.get(key, key)`: a key in the table gives a Turkish abbreviation,
      and any other key is printed as it is. */
  function TurkishDay(key: string): (r: string)
    ensures key in GUN_MAP ==> r in TURKISH_ABBRS
    ensures key !in GUN_MAP ==> r == key
  {
    if key in GUN_MAP then GUN_MAP[key] else key
  }

  /** The table sends the seven English abbreviations, in order, to the seven
      Turkish ones, and nothing else is a key. */
  lemma GunMapTable()
    ensures forall k :: k in GUN_MAP <==> k in ENGLISH_ABBRS
    ensures forall v :: v in GUN_MAP.Values <==> v in TURKISH_ABBRS
    ensures forall i :: 0 <= i < 7 ==> TurkishDay(ENGLISH_ABBRS[i]) == TURKISH_ABBRS[i]
  {
    forall v | v in GUN_MAP.Values
      ensures v in TURKISH_ABBRS
    {
      var k :| k in GUN_MAP && GUN_MAP[k] == v;
    }
    forall i | 0 <= i < 7
      ensures TURKISH_ABBRS[i] in GUN_MAP.Values
    {
      assert GUN_MAP[ENGLISH_ABBRS[i]] == TURKISH_ABBRS[i];
    }
  }

  /** No two weekdays share a Turkish abbreviation. */
  lemma GunMapInjective()
    ensures forall a, b :: a in GUN_MAP && b in GUN_MAP && a != b ==> GUN_MAP[a] != GUN_MAP[b]
  {
  }

  /** The abbreviation printed for a date is that date's own weekday, in Turkish. */
  lemma WeekdayTranslation(d: Date)
    requires Valid(d)
    ensures TurkishDay(EnglishAbbr(d)) == TURKISH_ABBRS[WeekdayIndex(d)]
  {
    GunMapTable();
  }

  /** `DD.MM <weekday>`: the day and month of `d`, two digits each, and its weekday. */
  predicate IsDayMonthLabel(s: string, d: Date)
    requires Valid(d)
  {
    |s| == 9
    && IsTwoDigits(s[..2]) && TwoDigitValue(s[..2]) == d.day && s[2] == '.'
    && IsTwoDigits(s[3..5]) && TwoDigitValue(s[3..5]) == d.month && s[5] == ' '
    && s[6..] == TURKISH_ABBRS[WeekdayIndex(d)]
  }

  /** `tarih_str`: the relative label of the event's local date `d`. */
  function DateLabel(d: Date, today: Date): (s: string)
    requires Valid(d) && Valid(today)
    ensures s == TODAY <==> d == today
    ensures s == TOMORROW <==> d != today && DayNumber(d) == DayNumber(today) + 1
    ensures d != today && DayNumber(d) != DayNumber(today) + 1 ==> IsDayMonthLabel(s, d)
  {
    if d == today then TODAY
    else if DayNumber(d) - DayNumber(today) == 1 then TOMORROW
    else
      WeekdayTranslation(d);
      var s := TwoDigits(d.day) + "." + TwoDigits(d.month) + " " + TurkishDay(EnglishAbbr(d));
      assert s[..2] == TwoDigits(d.day) && s[3..5] == TwoDigits(d.month);
      assert s[0] != TODAY[0] && s[0] != TOMORROW[0];
      s
  }

  /** "Yarın" is printed exactly for the calendar day after today. */
  lemma TomorrowLabel(d: Date, today: Date)
    requires Valid(d) && Valid(today)
    ensures DateLabel(d, today) == TOMORROW <==> d == NextDay(today)
  {
    DayAfterIsNextDay(today, d);
    NextDayNumber(today);
  }

  /** `saat_str`: `HH:MM` on a 24-hour clock. */
  function ClockText(hour: int, minute: int): (s: string)
    requires 0 <= hour < 24 && 0 <= minute < 60
    ensures |s| == 5 && s[2] == ':'
    ensures IsTwoDigits(s[..2]) && TwoDigitValue(s[..2]) == hour
    ensures IsTwoDigits(s[3..]) && TwoDigitValue(s[3..]) == minute
  {
    var s := TwoDigits(hour) + ":" + TwoDigits(minute);
    assert s[..2] == TwoDigits(hour) && s[3..] == TwoDigits(minute);
    s
  }

  predicate ValidStart(start: StartDate) {
    start.StartAt? ==> ValidLocalTime(start.local)
  }

  /** The `startDate` the record supplies; a missing `broadcastOfEvent` reads as `{}`. */
  function StartOf(details: Details): StartDate {
    if details.DetailsObject? then details.startDate else StartAbsent
  }

  /** `tarih_saat`: the placeholder without a (truthy) start time, the date label
      and `HH:MM` with one; a non-string start time is skipped and a malformed
      one escapes. */
  function DateTimeField(start: StartDate, today: Date): (r: Attempt<string>)
    requires ValidStart(start) && Valid(today)
    ensures r.Ok? <==> !start.StartNonString? && !start.StartMalformed?
    ensures r == Skipped(TypeError) <==> start.StartNonString?
    ensures r == Raised(ValueError) <==> start.StartMalformed?
    ensures r.Ok? && !start.StartAt? ==> r.value == NO_DATE_TIME
    ensures start.StartAt? ==>
              var t := start.local;
              r.Ok? && |r.value| == |DateLabel(t.date, today)| + 6
              && r.value[..|r.value| - 6] == DateLabel(t.date, today)
              && r.value[|r.value| - 6] == ' '
              && r.value[|r.value| - 5..] == ClockText(t.hour, t.minute)
  {
    match start
    case StartAbsent => Ok(NO_DATE_TIME)
    case StartFalsy => Ok(NO_DATE_TIME)
    case StartNonString => Skipped(TypeError)
    case StartMalformed => Raised(ValueError)
    case StartAt(t) => Ok(DateLabel(t.date, today) + " " + ClockText(t.hour, t.minute))
  }

  /** `takimlar`: the details' own name where one is given, else "N/A". */
  function TeamsField(details: Details): (r: string)
    ensures r == NO_TEAMS || (details.DetailsObject? && details.name == Some(r))
    ensures details.DetailsObject? && details.name.Some? ==> r == details.name.value
    ensures !details.DetailsObject? || details.name.None? ==> r == NO_TEAMS
  {
    if details.DetailsObject? && details.name.Some? then details.name.value else NO_TEAMS
  }

  /** `kanal`: the name of the first channel; a missing `broadcastChannel` reads as `[{}]`.
      Indexing an empty list or string is an IndexError, indexing an object a
      KeyError and indexing a scalar a TypeError; `.get` on a first element that
      is not an object is an AttributeError. */
  function ChannelField(channels: Channels): (r: Attempt<string>)
    ensures r.Ok? <==> channels.ChannelsAbsent?
                       || (channels.ChannelList? && |channels.items| > 0
                           && channels.items[0].ChannelObject?)
    ensures r.Ok? ==> r.value == NO_CHANNEL
                      || (channels.ChannelList? && |channels.items| > 0
                          && channels.items[0].name == Some(r.value))
    ensures channels.ChannelList? && |channels.items| > 0 && channels.items[0].ChannelObject?
              && channels.items[0].name.Some?
            ==> r == Ok(channels.items[0].name.value)
    ensures r == Skipped(IndexError) <==> channels == ChannelList([]) || channels == ChannelsText("")
    ensures r == Skipped(KeyError) <==> channels.ChannelsObject?
    ensures r == Skipped(TypeError) <==> channels.ChannelsScalar?
    ensures r.Raised? ==> r.uncaught == AttributeError
  {
    match channels
    case ChannelsAbsent => Ok(NO_CHANNEL)
    case ChannelList(items) =>
      if |items| == 0 then Skipped(IndexError)
      else (
        match items[0]
        case ChannelObject(name) => Ok(if name.Some? then name.value else NO_CHANNEL)
        case ChannelNotObject => Raised(AttributeError))
    case ChannelsText(text) => if text == "" then Skipped(IndexError) else Raised(AttributeError)
    case ChannelsObject => Skipped(KeyError)
    case ChannelsScalar => Skipped(TypeError)
  }

  /** `mac_bilgisi`. */
  function Line(dateTime: string, teams: string, channel: string): string {
    dateTime + " | " + teams + " | " + channel
  }

  /** One pass of the loop body, in the source's order of evaluation: details,
      name, start time, channel; the line exists only once every part did. */
  function FormatEvent(e: Event, today: Date): (r: Attempt<string>)
    requires WellFormed(e) && Valid(today)
    ensures e.EventNotObject? || e.details.DetailsNotObject? ==> r == Raised(AttributeError)
    ensures e.EventObject? && !e.details.DetailsNotObject? ==>
              var dateTime := DateTimeField(StartOf(e.details), today);
              var channel := ChannelField(e.channels);
              (r.Ok? <==> dateTime.Ok? && channel.Ok?)
              && (!dateTime.Ok? ==> r == dateTime)
              && (dateTime.Ok? && !channel.Ok? ==> r == channel)
              && (r.Ok? ==> r.value == Line(dateTime.value, TeamsField(e.details), channel.value))
  {
    match e
    case EventNotObject => Raised(AttributeError)
    case EventObject(details, channels) =>
      if details.DetailsNotObject? then Raised(AttributeError)
      else (
        match DateTimeField(StartOf(details), today)
        case Skipped(c) => Skipped(c)
        case Raised(u) => Raised(u)
        case Ok(dateTime) => (
          match ChannelField(channels)
          case Skipped(c) => Skipped(c)
          case Raised(u) => Raised(u)
          case Ok(channel) => Ok(Line(dateTime, TeamsField(details), channel))))
  }

  /** Without a start time the date/time field is the placeholder and the
      outcome does not depend on today's date at all. */
  lemma UntimedRecord(e: Event, today1: Date, today2: Date)
    requires Valid(today1) && Valid(today2)
    requires e.EventObject? && (StartOf(e.details).StartAbsent? || StartOf(e.details).StartFalsy?)
    ensures FormatEvent(e, today1) == FormatEvent(e, today2)
    ensures FormatEvent(e, today1).Ok? ==>
              var prefix := NO_DATE_TIME + " | ";
              |prefix| <= |FormatEvent(e, today1).value|
              && FormatEvent(e, today1).value[..|prefix|] == prefix
  {
  }

  /** With a start time the line opens with the date label, a space, `HH:MM` and the separator. */
  lemma TimedLineLayout(e: Event, today: Date)
    requires WellFormed(e) && Valid(today)
    requires e.EventObject? && StartOf(e.details).StartAt?
    requires FormatEvent(e, today).Ok?
    ensures var t := StartOf(e.details).local;
            var prefix := DateLabel(t.date, today) + " " + ClockText(t.hour, t.minute) + " | ";
            |prefix| <= |FormatEvent(e, today).value|
            && FormatEvent(e, today).value[..|prefix|] == prefix
  {
  }

  /** A missing team name gives "N/A" and leaves the other two fields as they are. */
  lemma TeamsPlaceholder(e: Event, today: Date)
    requires WellFormed(e) && Valid(today)
    requires e.EventObject? && (e.details.DetailsAbsent? || (e.details.DetailsObject? && e.details.name.None?))
    requires FormatEvent(e, today).Ok?
    ensures FormatEvent(e, today).value
            == DateTimeField(StartOf(e.details), today).value + " | " + NO_TEAMS + " | "
               + ChannelField(e.channels).value
  {
  }

  /** A missing channel list, or a first channel without a name, gives "Kanal Yok"
      after the date/time and team fields. */
  lemma ChannelPlaceholder(e: Event, today: Date)
    requires WellFormed(e) && Valid(today)
    requires e.EventObject?
    requires e.channels.ChannelsAbsent?
             || (e.channels.ChannelList? && |e.channels.items| > 0
                 && e.channels.items[0] == ChannelObject(None))
    requires FormatEvent(e, today).Ok?
    ensures FormatEvent(e, today)
            == Ok(Line(DateTimeField(StartOf(e.details), today).value, TeamsField(e.details), NO_CHANNEL))
  {
  }

  /** A record without `broadcastOfEvent` reads as one with empty details: it is
      kept whenever its channel part succeeds, with both placeholders. */
  lemma MissingDetailsKept(channels: Channels, today: Date)
    requires Valid(today)
    ensures FormatEvent(EventObject(DetailsAbsent, channels), today)
            == FormatEvent(EventObject(DetailsObject(None, StartAbsent), channels), today)
    ensures FormatEvent(EventObject(DetailsAbsent, channels), today).Ok? <==> ChannelField(channels).Ok?
    ensures ChannelField(channels).Ok? ==>
              FormatEvent(EventObject(DetailsAbsent, channels), today)
              == Ok(NO_DATE_TIME + " | " + NO_TEAMS + " | " + ChannelField(channels).value)
  {
  }

  /** `[][0]` raises IndexError: a record whose channel list is empty is skipped,
      unless an earlier part of it already failed. */
  lemma EmptyChannelListSkipped(e: Event, today: Date)
    requires WellFormed(e) && Valid(today)
    requires e.EventObject? && e.channels == ChannelList([]) && !e.details.DetailsNotObject?
    requires !StartOf(e.details).StartNonString? && !StartOf(e.details).StartMalformed?
    ensures FormatEvent(e, today) == Skipped(IndexError)
  {
  }

  /** A timestamp of 2025-09-28T13:00:00+03:00 (13:00 in Istanbul), seen on 30 September. */
  lemma ExampleDateTime()
    ensures DateTimeField(StartAt(LocalTime(Date(2025, 9, 28), 13, 0)), Date(2025, 9, 30))
            == Ok("28.09 Paz 13:00")
  {
    var d := Date(2025, 9, 28);
    KnownSunday();
    assert WeekdayIndex(d) == 6;
    assert DayNumber(Date(2025, 9, 30)) == DayNumber(d) + 2;
    assert TwoDigits(28) == "28" && TwoDigits(9) == "09";
    assert DateLabel(d, Date(2025, 9, 30)) == "28.09 Paz";
    assert TwoDigits(13) == "13" && TwoDigits(0) == "00";
    assert ClockText(13, 0) == "13:00";
    assert "28.09 Paz" + " " + "13:00" == "28.09 Paz 13:00";
  }
}
