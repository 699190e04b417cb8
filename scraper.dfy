/** `get_match_data` (scraper.py): the outcomes of fetching and decoding
    the page, and the loop that turns the decoded event list into
    `maclar_listesi`. */
module Scraper {
  import opened Calendar
  import opened Events
  import opened Normalizer

  /** What the page yields once BeautifulSoup and `json.loads` have run. */
  datatype Page =
    | NoLdJsonScript              // no `<script type="application/ld+json">`
    | UndecodableJson             // `json.loads` raised JSONDecodeError
    | EventArray(events: seq<Event>)

  /** What `requests.get` and `raise_for_status` yield. */
  datatype Fetch = FetchFailed(message: string) | Fetched(page: Page)

  /** What `get_match_data` returns, or the exception it lets escape. */
  datatype Response =
    | ErrorObject(message: string)     // `{"error": str(e)}`
    | LineArray(lines: seq<string>)    // the list of display lines
    | Crashed(error: Uncaught)

  /** The loop's state after some records: the lines so far, or the escaped exception. */
  datatype Batch = Done(lines: seq<string>) | Aborted(error: Uncaught)

  predicate AllWellFormed(events: seq<Event>) {
    forall i :: 0 <= i < |events| ==> WellFormed(events[i])
  }

  predicate WellFormedFetch(f: Fetch) {
    f.Fetched? && f.page.EventArray? ==> AllWellFormed(f.page.events)
  }

  /** The loop, given what each pass of its body yields: lines are appended
      in order, a caught exception adds nothing, and an uncaught one ends it. */
  function Gather(outcomes: seq<Attempt<string>>): (r: Batch)
    ensures r.Done? ==> |r.lines| <= |outcomes|
    decreases |outcomes|
  {
    if outcomes == [] then Done([])
    else
      match Gather(outcomes[..|outcomes| - 1])
      case Aborted(u) => Aborted(u)
      case Done(lines) => (
        match outcomes[|outcomes| - 1]
        case Ok(line) => Done(lines + [line])
        case Skipped(_) => Done(lines)
        case Raised(u) => Aborted(u))
  }

  /** What the loop body yields for each record. */
  function Outcomes(events: seq<Event>, today: Date): (o: seq<Attempt<string>>)
    requires AllWellFormed(events) && Valid(today)
    ensures |o| == |events|
    ensures forall i :: 0 <= i < |events| ==> o[i] == FormatEvent(events[i], today)
  {
    seq(|events|, i requires 0 <= i < |events| => FormatEvent(events[i], today))
  }

  /** The loop run over `events`, one record after the other. */
  function Collect(events: seq<Event>, today: Date): (r: Batch)
    requires AllWellFormed(events) && Valid(today)
    ensures r.Done? ==> |r.lines| <= |events|
  {
    Gather(Outcomes(events, today))
  }

  /** Running the loop over `a` and then over `b`. */
  function Join(x: Batch, y: Batch): Batch {
    match x
    case Aborted(_) => x
    case Done(xs) => (
      match y
      case Aborted(_) => y
      case Done(ys) => Done(xs + ys))
  }

  lemma {:induction false} GatherConcat(a: seq<Attempt<string>>, b: seq<Attempt<string>>)
    ensures Gather(a + b) == Join(Gather(a), Gather(b))
    decreases |b|
  {
    if b == [] {
      assert a + b == a;
    } else {
      var init := b[..|b| - 1];
      assert (a + b)[..|a + b| - 1] == a + init;
      assert (a + b)[|a + b| - 1] == b[|b| - 1];
      GatherConcat(a, init);
    }
  }

  /** Each record's outcome depends on that record alone. */
  lemma OutcomesConcat(a: seq<Event>, b: seq<Event>, today: Date)
    requires AllWellFormed(a) && AllWellFormed(b) && Valid(today)
    ensures AllWellFormed(a + b)
    ensures Outcomes(a + b, today) == Outcomes(a, today) + Outcomes(b, today)
  {
    assert forall i :: 0 <= i < |a + b| ==> (a + b)[i] == if i < |a| then a[i] else b[i - |a|];
  }

  /** No state is carried from one record to the next: the loop over a
      concatenation is the loop over each part, one after the other. */
  lemma CollectConcat(a: seq<Event>, b: seq<Event>, today: Date)
    requires AllWellFormed(a) && AllWellFormed(b) && Valid(today)
    ensures AllWellFormed(a + b)
    ensures Collect(a + b, today) == Join(Collect(a, today), Collect(b, today))
  {
    OutcomesConcat(a, b, today);
    GatherConcat(Outcomes(a, today), Outcomes(b, today));
  }

  lemma GatherSkipped(x: seq<Attempt<string>>, o: Attempt<string>, y: seq<Attempt<string>>)
    requires o.Skipped?
    ensures Gather(x + [o] + y) == Gather(x + y)
  {
    assert [o][..0] == [];
    assert Gather([o]) == Done([]);
    GatherConcat(x, [o]);
    GatherConcat(x + [o], y);
    GatherConcat(x, y);
  }

  /** A record that raises a caught exception leaves no trace: the records
      before and after it give the same lines as if it had not been there. */
  lemma SkippedRecordDropped(a: seq<Event>, e: Event, c: seq<Event>, today: Date)
    requires AllWellFormed(a) && WellFormed(e) && AllWellFormed(c) && Valid(today)
    requires FormatEvent(e, today).Skipped?
    ensures AllWellFormed(a + [e] + c) && AllWellFormed(a + c)
    ensures Collect(a + [e] + c, today) == Collect(a + c, today)
  {
    OutcomesConcat(a, [e], today);
    OutcomesConcat(a + [e], c, today);
    OutcomesConcat(a, c, today);
    assert Outcomes([e], today) == [FormatEvent(e, today)];
    GatherSkipped(Outcomes(a, today), FormatEvent(e, today), Outcomes(c, today));
  }

  /** The record with an empty `broadcastChannel` list is dropped and its
      neighbours are kept. */
  lemma EmptyChannelRecordDropped(a: seq<Event>, e: Event, c: seq<Event>, today: Date)
    requires AllWellFormed(a) && WellFormed(e) && AllWellFormed(c) && Valid(today)
    requires e.EventObject? && e.channels == ChannelList([]) && !e.details.DetailsNotObject?
    requires !StartOf(e.details).StartNonString? && !StartOf(e.details).StartMalformed?
    ensures AllWellFormed(a + [e] + c) && AllWellFormed(a + c)
    ensures Collect(a + [e] + c, today) == Collect(a + c, today)
  {
    EmptyChannelListSkipped(e, today);
    SkippedRecordDropped(a, e, c, today);
  }

  lemma {:induction false} GatherSubsequence(outcomes: seq<Attempt<string>>) returns (kept: seq<int>)
    requires Gather(outcomes).Done?
    ensures |kept| == |Gather(outcomes).lines|
    ensures forall k :: 0 <= k < |kept| ==>
              0 <= kept[k] < |outcomes| && outcomes[kept[k]] == Ok(Gather(outcomes).lines[k])
    ensures forall k, j :: 0 <= k < j < |kept| ==> kept[k] < kept[j]
    ensures forall i :: 0 <= i < |outcomes| && i !in kept ==> outcomes[i].Skipped?
    decreases |outcomes|
  {
    if outcomes == [] {
      kept := [];
    } else {
      var n := |outcomes| - 1;
      var init := outcomes[..n];
      assert forall i :: 0 <= i < n ==> init[i] == outcomes[i];
      var keptInit := GatherSubsequence(init);
      match outcomes[n]
      case Ok(line) =>
        kept := keptInit + [n];
        assert Gather(outcomes).lines == Gather(init).lines + [line];
      case Skipped(_) =>
        kept := keptInit;
      case Raised(_) =>
        assert false;
    }
  }

  /** The lines are an order-preserving selection of the records: `kept` lists,
      in increasing order, the records that gave a line, and every other record
      was skipped. */
  lemma CollectSubsequence(events: seq<Event>, today: Date) returns (kept: seq<int>)
    requires AllWellFormed(events) && Valid(today)
    requires Collect(events, today).Done?
    ensures |kept| == |Collect(events, today).lines|
    ensures forall k :: 0 <= k < |kept| ==>
              0 <= kept[k] < |events| && FormatEvent(events[kept[k]], today) == Ok(Collect(events, today).lines[k])
    ensures forall k, j :: 0 <= k < j < |kept| ==> kept[k] < kept[j]
    ensures forall i :: 0 <= i < |events| && i !in kept ==> FormatEvent(events[i], today).Skipped?
  {
    kept := GatherSubsequence(Outcomes(events, today));
  }

  lemma {:induction false} GatherAborted(outcomes: seq<Attempt<string>>)
    ensures Gather(outcomes).Aborted? <==> exists i :: 0 <= i < |outcomes| && outcomes[i].Raised?
    ensures Gather(outcomes).Aborted? ==>
              exists i :: 0 <= i < |outcomes| && outcomes[i] == Raised(Gather(outcomes).error)
                          && forall j :: 0 <= j < i ==> !outcomes[j].Raised?
    decreases |outcomes|
  {
    if outcomes != [] {
      var n := |outcomes| - 1;
      var init := outcomes[..n];
      assert forall i :: 0 <= i < n ==> init[i] == outcomes[i];
      GatherAborted(init);
      if Gather(init).Done? && outcomes[n].Raised? {
        assert forall j :: 0 <= j < n ==> !outcomes[j].Raised?;
      }
    }
  }

  /** The call fails exactly when some record raises an uncaught exception, and
      the exception is that of the first such record. */
  lemma AbortedExactlyOnRaise(events: seq<Event>, today: Date)
    requires AllWellFormed(events) && Valid(today)
    ensures Collect(events, today).Aborted? <==>
              exists i :: 0 <= i < |events| && FormatEvent(events[i], today).Raised?
    ensures Collect(events, today).Aborted? ==>
              exists i :: 0 <= i < |events| && FormatEvent(events[i], today) == Raised(Collect(events, today).error)
                          && forall j :: 0 <= j < i ==> !FormatEvent(events[j], today).Raised?
  {
    GatherAborted(Outcomes(events, today));
  }

  /** `get_match_data` as a function of the fetch outcome and today's date: an
      error object exactly for a failed request, `[]` when no event data could
      be read, otherwise at most one line per record, and an escaped exception
      exactly when some record raises one. */
  function Respond(f: Fetch, today: Date): (r: Response)
    requires WellFormedFetch(f) && Valid(today)
    ensures r.ErrorObject? <==> f.FetchFailed?
    ensures f.FetchFailed? ==> r.message == f.message
    ensures f.Fetched? && !f.page.EventArray? ==> r == LineArray([])
    ensures f.Fetched? && f.page.EventArray? && r.LineArray? ==> |r.lines| <= |f.page.events|
    ensures f.Fetched? && f.page.EventArray? ==>
              (r.LineArray? <==> Collect(f.page.events, today).Done?)
              && (r.LineArray? ==> r.lines == Collect(f.page.events, today).lines)
    ensures f.Fetched? && f.page.EventArray? && r.Crashed? ==>
              Collect(f.page.events, today) == Aborted(r.error)
    ensures f.Fetched? && f.page.EventArray? ==>
              (r.Crashed? <==> exists i :: 0 <= i < |f.page.events| && FormatEvent(f.page.events[i], today).Raised?)
  {
    match f
    case FetchFailed(message) => ErrorObject(message)
    case Fetched(NoLdJsonScript) => LineArray([])
    case Fetched(UndecodableJson) => LineArray([])
    case Fetched(EventArray(events)) =>
      AbortedExactlyOnRaise(events, today);
      match Collect(events, today)
      case Done(lines) => LineArray(lines)
      case Aborted(u) => Crashed(u)
  }

  /** The imperative `get_match_data`: early returns, then the `for event in data`
      loop that appends to `maclar_listesi`. */
  method GetMatchData(f: Fetch, today: Date) returns (r: Response)
    requires WellFormedFetch(f) && Valid(today)
    ensures r == Respond(f, today)
  {
    if f.FetchFailed? {
      return ErrorObject(f.message);
    }
    if f.page.NoLdJsonScript? || f.page.UndecodableJson? {
      return LineArray([]);
    }
    var data := f.page.events;
    ghost var outcomes := Outcomes(data, today);
    var matchLines: seq<string> := [];
    for i := 0 to |data|
      invariant Gather(outcomes[..i]) == Done(matchLines)
    {
      assert outcomes[..i + 1][..i] == outcomes[..i];
      match FormatEvent(data[i], today)
      case Skipped(_) =>
        continue;
      case Raised(u) =>
        assert outcomes == outcomes[..i + 1] + outcomes[i + 1..];
        GatherConcat(outcomes[..i + 1], outcomes[i + 1..]);
        return Crashed(u);
      case Ok(line) =>
        matchLines := matchLines + [line];
    }
    assert outcomes[..|data|] == outcomes;
    return LineArray(matchLines);
  }
}
