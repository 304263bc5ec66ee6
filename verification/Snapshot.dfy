// Transcript memory on the runner's lifecycle path: a session is a log of events, a
// summary is one more event, and the memory is a snapshot of the log.

module Snapshot {
  import opened Prelude
  import opened Transcript
  import opened Compaction
  import Utf8

  /** What a compaction event stands for: everything up to `end`. */
  datatype Covered = Covered(start: int, end: int, content: Content)

  datatype Event = Event(author: string, at: int, content: Option<Content>, compaction: Option<Covered>)

  // ---------------------------------------------------------------- specification

  /** The compaction latest in the log, whatever its time. */
  function Latest(events: seq<Event>): Option<Covered> {
    if events == [] then None
    else
      var n := |events| - 1;
      if events[n].compaction.Some? then events[n].compaction else Latest(events[..n])
  }

  predicate HasText(parts: seq<Part>) {
    exists i :: 0 <= i < |parts| && parts[i].Text? && Trim(parts[i].text) != ""
  }

  /** Summaries, events up to the boundary and events that say nothing leave no entry. */
  predicate Silent(e: Event, boundary: Option<int>) {
    || e.compaction.Some? || (boundary.Some? && e.at <= boundary.value)
    || e.content.None? || !HasText(e.content.value.parts)
  }

  function EntryOf(e: Event, boundary: Option<int>): seq<Entry> {
    if Silent(e, boundary) then []
    else [Entry(e.content.value, if Trim(e.author) == "" then "assistant" else e.author, e.at)]
  }

  function EntriesOf(events: seq<Event>, boundary: Option<int>): seq<Entry> {
    if events == [] then []
    else EntriesOf(events[..|events| - 1], boundary) + EntryOf(events[|events| - 1], boundary)
  }

  function Boundary(latest: Option<Covered>): Option<int> {
    if latest.Some? then Some(latest.value.end) else None
  }

  function Head(latest: Option<Covered>): seq<Entry> {
    if latest.Some? then [Entry(latest.value.content, "system", latest.value.end)] else []
  }

  function Memories(events: seq<Event>): seq<Entry> {
    Head(Latest(events)) + EntriesOf(events, Boundary(Latest(events)))
  }

  /** An event as the summariser hears it; one without content says nothing. */
  function Voice(e: Event): Entry {
    Entry(if e.content.Some? then e.content.value else Content("", []), e.author, e.at)
  }

  function Voices(events: seq<Event>): (r: seq<Entry>)
    ensures |r| == |events| && forall i :: 0 <= i < |events| ==> r[i] == Voice(events[i])
  {
    if events == [] then [] else [Voice(events[0])] + Voices(events[1..])
  }

  /** What becomes of a call of the summariser: nothing for an empty batch, a panic, or an event. */
  datatype Summing = Nothing | Panicked | Made(event: Event)

  function Summarized(events: seq<Event>, now: int): Summing {
    if events == [] then Nothing
    else if CutFails(Voices(events)) then Panicked
    else Made(SummaryEvent(events, now))
  }

  function SummaryEvent(events: seq<Event>, now: int): Event
    requires events != [] && !CutFails(Voices(events))
  {
    var content := Summary(Voices(events), now).content;
    Event("system", now, Some(content), Some(Covered(events[0].at, events[|events| - 1].at, content)))
  }

  // ---------------------------------------------------------------- the source's loop

  method FindLatest(events: seq<Event>) returns (latest: Option<Covered>)
    ensures latest == Latest(events)
  {
    var i: nat := |events|;
    assert events[..i] == events;
    while i > 0
      invariant i <= |events| && Latest(events) == Latest(events[..i])
    {
      i := i - 1;
      assert events[..i + 1][..i] == events[..i];
      if events[i].compaction.Some? {
        return events[i].compaction;
      }
    }
    latest := None;
  }

  lemma EntriesNext(head: seq<Entry>, events: seq<Event>, k: nat, boundary: Option<int>)
    requires k < |events|
    ensures head + EntriesOf(events[..k + 1], boundary) ==
      head + EntriesOf(events[..k], boundary) + EntryOf(events[k], boundary)
  {
    assert events[..k + 1][..k] == events[..k];
  }

  method MemoryEntries(events: seq<Event>) returns (entries: seq<Entry>)
    ensures entries == Memories(events)
  {
    var latest := FindLatest(events);
    var boundary := Boundary(latest);
    entries := Head(latest);
    for k := 0 to |events|
      invariant entries == Head(latest) + EntriesOf(events[..k], boundary)
    {
      EntriesNext(Head(latest), events, k, boundary);
      var e := events[k];
      if !Silent(e, boundary) {
        var author := if Trim(e.author) == "" then "assistant" else e.author;
        entries := entries + [Entry(e.content.value, author, e.at)];
      }
    }
    assert events[..|events|] == events;
  }

  // ---------------------------------------------------------------- the summariser's loop

  method Summarize(events: seq<Event>, now: int) returns (r: Summing)
    ensures r == Summarized(events, now)
  {
    if events == [] {
      return Nothing;
    }
    var text := SummaryOf(Voices(events));
    if text.None? {
      return Panicked;
    }
    var content := SystemText(text.value);
    var first, last := events[0].at, events[|events| - 1].at;
    r := Made(Event("system", now, Some(content), Some(Covered(first, last, content))));
  }

  // ---------------------------------------------------------------- logs

  /** How a log grows: something is said, or the events from `from` up to `to` are summarised. */
  datatype Act = Say(e: Event) | Compact(from: nat, to: nat, now: int)

  /** A call of the summariser that panics adds nothing and is no act. */
  predicate Possible(act: Act, before: seq<Event>) {
    match act
    case Say(e) => e.compaction.None?
    case Compact(from, to, _) => from < to <= |before| && !CutFails(Voices(before[from..to]))
  }

  predicate Valid(acts: seq<Act>)
    decreases |acts|, 0
  {
    acts == [] ||
    var n := |acts| - 1;
    Valid(acts[..n]) && Possible(acts[n], Log(acts[..n]))
  }

  function Added(act: Act, before: seq<Event>): Event
    requires Possible(act, before)
  {
    match act
    case Say(e) => e
    case Compact(from, to, now) => SummaryEvent(before[from..to], now)
  }

  /** Every act adds one event. */
  function Log(acts: seq<Act>): (r: seq<Event>)
    requires Valid(acts)
    ensures |r| == |acts|
    decreases |acts|, 1
  {
    if acts == [] then []
    else
      var before := Log(acts[..|acts| - 1]);
      before + [Added(acts[|acts| - 1], before)]
  }

  lemma {:induction false} LogPrefix(acts: seq<Act>, n: nat)
    requires Valid(acts) && n <= |acts|
    ensures Valid(acts[..n]) && Log(acts[..n]) == Log(acts)[..n]
  {
    var last := |acts| - 1;
    if n == |acts| {
      assert acts[..n] == acts;
    } else {
      assert acts[..last][..n] == acts[..n];
      LogPrefix(acts[..last], n);
    }
  }

  lemma {:induction false} LogAt(acts: seq<Act>, k: nat)
    requires Valid(acts) && k < |acts|
    ensures Possible(acts[k], Log(acts)[..k]) && Log(acts)[k] == Added(acts[k], Log(acts)[..k])
  {
    LogPrefix(acts, k);
    LogPrefix(acts, k + 1);
    assert acts[..k + 1][..k] == acts[..k];
    assert Log(acts)[k] == Log(acts)[..k + 1][k];
  }

  lemma PartOfPrefix(events: seq<Event>, k: nat, from: nat, to: nat)
    requires from <= to <= k <= |events|
    ensures events[..k][from..to] == events[from..to]
  {
  }

  lemma {:induction false} BatchIsBefore(acts: seq<Act>, k: nat)
    requires Valid(acts) && k < |acts| && acts[k].Compact?
    ensures acts[k].from < acts[k].to <= k
    ensures Log(acts)[..k][acts[k].from..acts[k].to] == Log(acts)[acts[k].from..acts[k].to]
    ensures !CutFails(Voices(Log(acts)[acts[k].from..acts[k].to]))
  {
    LogAt(acts, k);
    PartOfPrefix(Log(acts), k, acts[k].from, acts[k].to);
  }

  /** The events that act `k` summarises. */
  function Batch(acts: seq<Act>, k: nat): (r: seq<Event>)
    requires Valid(acts) && k < |acts| && acts[k].Compact?
    ensures acts[k].from < acts[k].to <= k && |r| == acts[k].to - acts[k].from && !CutFails(Voices(r))
    ensures forall i :: acts[k].from <= i < acts[k].to ==> r[i - acts[k].from] == Log(acts)[i]
  {
    BatchIsBefore(acts, k);
    Log(acts)[acts[k].from..acts[k].to]
  }

  function Told(events: seq<Event>): string
    requires !CutFails(Voices(events))
  {
    SummaryText(Voices(events))
  }

  function Text(acts: seq<Act>, k: nat): string
    requires Valid(acts) && k < |acts| && acts[k].Compact?
  {
    Told(Batch(acts, k))
  }

  lemma AddedSummary(act: Act, before: seq<Event>, batch: seq<Event>)
    requires Possible(act, before) && act.Compact? && before[act.from..act.to] == batch
    ensures Summarized(batch, act.now) == Made(Added(act, before))
  {
  }

  lemma SummaryAt(acts: seq<Act>, k: nat)
    requires Valid(acts) && k < |acts| && acts[k].Compact?
    ensures Summarized(Batch(acts, k), acts[k].now) == Made(Log(acts)[k])
  {
    LogAt(acts, k);
    BatchIsBefore(acts, k);
    AddedSummary(acts[k], Log(acts)[..k], Batch(acts, k));
  }

  /** The summary made by act `q` was made of event `i`, or of a summary that stands for it. */
  predicate StandsFor(acts: seq<Act>, q: nat, i: nat)
    requires Valid(acts) && q < |acts| && acts[q].Compact?
    decreases q
  {
    || acts[q].from <= i < acts[q].to
    || exists j :: acts[q].from <= j < acts[q].to && j < q && acts[j].Compact? && StandsFor(acts, j, i)
  }

  predicate NeverCut(acts: seq<Act>)
    requires Valid(acts)
  {
    forall k :: 0 <= k < |acts| && acts[k].Compact? ==> Uncut(Voices(Batch(acts, k)))
  }

  /** What event `i` contributes to a summary. */
  function Heard(acts: seq<Act>, i: nat): Option<string>
    requires Valid(acts) && i < |acts|
  {
    Spoken(Voice(Log(acts)[i]))
  }

  lemma ToldHeard(events: seq<Event>, now: int)
    requires events != [] && Uncut(Voices(events)) && !CutFails(Voices(events))
    ensures Spoken(Voice(SummaryEvent(events, now))) == Some(Told(events))
  {
    WholeSolid(Voices(events));
    UncutIsWhole(Voices(events));
  }

  /** A summary that was not cut is heard as it is. */
  lemma SummaryHeard(acts: seq<Act>, k: nat)
    requires Valid(acts) && NeverCut(acts) && k < |acts| && acts[k].Compact?
    ensures Heard(acts, k) == Some(Text(acts, k))
  {
    SummaryAt(acts, k);
    ToldHeard(Batch(acts, k), acts[k].now);
  }

  lemma ToldTells(events: seq<Event>, i: nat)
    requires i < |events| && Spoken(Voice(events[i])).Some? && Uncut(Voices(events)) && !CutFails(Voices(events))
    ensures Within(Spoken(Voice(events[i])).value, Told(events))
  {
    SummaryTells(Voices(events));
    assert Voices(events)[i] == Voice(events[i]);
  }

  lemma BatchTells(acts: seq<Act>, q: nat, i: nat)
    requires Valid(acts) && NeverCut(acts) && q < |acts| && acts[q].Compact?
    requires acts[q].from <= i < acts[q].to && i < |acts| && Heard(acts, i).Some?
    ensures Within(Heard(acts, i).value, Text(acts, q))
  {
    ToldTells(Batch(acts, q), i - acts[q].from);
  }

  /** Whatever a summary stands for is told in it. */
  lemma {:induction false} StandsForTells(acts: seq<Act>, q: nat, i: nat)
    requires Valid(acts) && NeverCut(acts) && q < |acts| && acts[q].Compact?
    requires StandsFor(acts, q, i) && i < |acts| && Heard(acts, i).Some?
    ensures Within(Heard(acts, i).value, Text(acts, q))
    decreases q
  {
    if acts[q].from <= i < acts[q].to {
      BatchTells(acts, q, i);
    } else {
      var j :| acts[q].from <= j < acts[q].to && j < q && acts[j].Compact? && StandsFor(acts, j, i);
      StandsForTells(acts, j, i);
      SummaryHeard(acts, j);
      BatchTells(acts, q, j);
      WithinTransitive(Heard(acts, i).value, Text(acts, j), Text(acts, q));
    }
  }

  // ---------------------------------------------------------------- telling events apart

  /** A character that summaries contain whatever they tell. */
  predicate Stock(c: char) {
    c in PREFIX || c in "compacted " || c in " events" || '0' <= c <= '9'
  }

  /** Event `i` alone says `mark`. */
  predicate Marks(acts: seq<Act>, i: nat, mark: char)
    requires Valid(acts) && i < |acts|
  {
    && acts[i].Say? && !Stock(mark) && Heard(acts, i).Some? && mark in Heard(acts, i).value
    && forall k :: 0 <= k < |acts| && k != i && acts[k].Say? && Heard(acts, k).Some? ==> mark !in Heard(acts, k).value
  }

  lemma {:induction false} DecimalStock(n: nat)
    ensures forall c :: c in Decimal(n) ==> '0' <= c <= '9'
  {
    if n >= 10 {
      DecimalStock(n / 10);
    }
  }

  lemma {:induction false} JoinSays(chunks: seq<string>, c: char)
    requires c in Join(chunks) && c != ' '
    ensures exists k :: 0 <= k < |chunks| && c in chunks[k]
  {
    var n := |chunks| - 1;
    if n > 0 && c !in chunks[n] {
      assert c in Join(chunks[..n]);
      JoinSays(chunks[..n], c);
      var k :| 0 <= k < n && c in chunks[..n][k];
      assert c in chunks[k];
    }
  }

  lemma {:induction false} ChunkIsSaid(entries: seq<Entry>, k: nat)
    requires k < |Chunks(entries)|
    ensures exists i :: 0 <= i < |entries| && Spoken(entries[i]) == Some(Chunks(entries)[k])
  {
    var n := |entries| - 1;
    if k < |Chunks(entries[..n])| {
      ChunkIsSaid(entries[..n], k);
      var i :| 0 <= i < n && Spoken(entries[..n][i]) == Some(Chunks(entries[..n])[k]);
      assert Spoken(entries[i]) == Some(Chunks(entries)[k]);
    } else {
      assert Spoken(entries[n]) == Some(Chunks(entries)[k]);
    }
  }

  /** A character of a summary is stock or comes from one of the entries. */
  lemma SummarySays(entries: seq<Entry>, c: char) returns (i: nat)
    requires !Stock(c) && !CutFails(entries) && c in SummaryText(entries)
    ensures i < |entries| && Spoken(entries[i]).Some? && c in Spoken(entries[i]).value
  {
    var chunks := Chunks(entries);
    DecimalStock(|entries|);
    Utf8.CutIsPrefix(Whole(entries), LIMIT);
    assert c in Whole(entries) && c in Body(chunks, |entries|);
    JoinSays(chunks, c);
    var k :| 0 <= k < |chunks| && c in chunks[k];
    ChunkIsSaid(entries, k);
    i :| 0 <= i < |entries| && Spoken(entries[i]) == Some(chunks[k]);
  }

  lemma TrimSays(s: string, c: char)
    requires c in Trim(s)
    ensures c in s
  {
    var i, j := TrimCuts(s);
  }

  /** A character of a summary's text is stock or was heard from one of the batch. */
  lemma ToldSays(events: seq<Event>, c: char) returns (i: nat)
    requires !Stock(c) && !CutFails(Voices(events)) && c in Told(events)
    ensures i < |events| && Spoken(Voice(events[i])).Some? && c in Spoken(Voice(events[i])).value
  {
    i := SummarySays(Voices(events), c);
    assert Voices(events)[i] == Voice(events[i]);
  }

  lemma SummaryHeardSays(events: seq<Event>, now: int, c: char)
    requires events != [] && !CutFails(Voices(events))
    requires var heard := Spoken(Voice(SummaryEvent(events, now))); heard.Some? && c in heard.value
    ensures c in Told(events)
  {
    TrimSays(Told(events), c);
  }

  lemma HeardInText(acts: seq<Act>, j: nat, c: char)
    requires Valid(acts) && j < |acts| && acts[j].Compact? && Heard(acts, j).Some? && c in Heard(acts, j).value
    ensures c in Text(acts, j)
  {
    SummaryAt(acts, j);
    SummaryHeardSays(Batch(acts, j), acts[j].now, c);
  }

  lemma HeardOfBatch(acts: seq<Act>, q: nat, k: nat)
    requires Valid(acts) && q < |acts| && acts[q].Compact? && k < |Batch(acts, q)|
    ensures acts[q].from + k < q && Heard(acts, acts[q].from + k) == Spoken(Voice(Batch(acts, q)[k]))
  {
    assert Batch(acts, q)[acts[q].from + k - acts[q].from] == Log(acts)[acts[q].from + k];
  }

  /** A summary has a mark from the event itself or from an earlier summary in its batch. */
  lemma MarkSource(acts: seq<Act>, q: nat, i: nat, mark: char) returns (j: nat)
    requires Valid(acts) && q < |acts| && acts[q].Compact? && i < |acts| && Marks(acts, i, mark)
    requires mark in Text(acts, q)
    ensures acts[q].from <= j < acts[q].to && j < q
    ensures j == i || (acts[j].Compact? && mark in Text(acts, j))
  {
    var k := ToldSays(Batch(acts, q), mark);
    j := acts[q].from + k;
    HeardOfBatch(acts, q, k);
    if acts[j].Compact? {
      HeardInText(acts, j, mark);
    }
  }

  /** Only a summary that stands for the event says its mark. */
  lemma {:induction false} MarkNeedsEvent(acts: seq<Act>, q: nat, i: nat, mark: char)
    requires Valid(acts) && q < |acts| && acts[q].Compact? && i < |acts| && Marks(acts, i, mark)
    requires mark in Text(acts, q)
    ensures StandsFor(acts, q, i)
    decreases q
  {
    var j := MarkSource(acts, q, i, mark);
    if j != i {
      MarkNeedsEvent(acts, j, i, mark);
    }
  }

  // ---------------------------------------------------------------- what the memory recalls

  /** The act that made the latest summary. */
  function LastCompact(acts: seq<Act>): (r: Option<nat>)
    ensures r.Some? ==> r.value < |acts| && acts[r.value].Compact?
  {
    if acts == [] then None
    else if acts[|acts| - 1].Compact? then Some(|acts| - 1)
    else LastCompact(acts[..|acts| - 1])
  }

  lemma {:induction false} LatestNext(before: seq<Event>, e: Event)
    ensures Latest(before + [e]) == if e.compaction.Some? then e.compaction else Latest(before)
  {
    assert (before + [e])[..|before|] == before;
  }

  lemma {:induction false} AddedCompacts(act: Act, before: seq<Event>)
    requires Possible(act, before)
    ensures Added(act, before).compaction.Some? <==> act.Compact?
  {
  }

  lemma {:induction false} LatestIs(acts: seq<Act>)
    requires Valid(acts)
    ensures var q := LastCompact(acts);
      Latest(Log(acts)) == if q.None? then None else Log(acts)[q.value].compaction
  {
    if acts != [] {
      var n := |acts| - 1;
      LatestIs(acts[..n]);
      LogPrefix(acts, n);
      var before := Log(acts[..n]);
      AddedCompacts(acts[n], before);
      LatestNext(before, Added(acts[n], before));
    }
  }

  lemma {:induction false} EntriesHold(events: seq<Event>, boundary: Option<int>, i: nat)
    requires i < |events| && !Silent(events[i], boundary)
    ensures EntryOf(events[i], boundary)[0] in EntriesOf(events, boundary)
  {
    var n := |events| - 1;
    if i < n {
      EntriesHold(events[..n], boundary, i);
      assert EntryOf(events[i], boundary)[0] in EntriesOf(events[..n], boundary);
    } else {
      assert EntriesOf(events, boundary)[|EntriesOf(events[..n], boundary)|] == EntryOf(events[i], boundary)[0];
    }
  }

  lemma {:induction false} EntriesFrom(events: seq<Event>, boundary: Option<int>, x: Entry) returns (i: nat)
    requires x in EntriesOf(events, boundary)
    ensures i < |events| && !Silent(events[i], boundary) && EntryOf(events[i], boundary) == [x]
  {
    var n := |events| - 1;
    if x in EntriesOf(events[..n], boundary) {
      i := EntriesFrom(events[..n], boundary, x);
    } else {
      i := n;
    }
  }

  /** Some entry of the memory says `text`. */
  ghost predicate Recalls(memory: seq<Entry>, text: string) {
    exists x :: x in memory && Spoken(x).Some? && Within(text, Spoken(x).value)
  }

  /** The time up to which act `q` has summarised: that of the last event of its batch. */
  function End(acts: seq<Act>, q: nat): int
    requires Valid(acts) && q < |acts| && acts[q].Compact?
  {
    var batch := Batch(acts, q);
    batch[|batch| - 1].at
  }

  /** Later than everything summarised last, or summarised in it. */
  predicate Kept(acts: seq<Act>, i: nat)
    requires Valid(acts) && i < |acts|
  {
    var q := LastCompact(acts);
    q.None? || Log(acts)[i].at > End(acts, q.value) || StandsFor(acts, q.value, i)
  }

  /** The memory of a log: the latest summary, if any, and what is later than its end. */
  lemma MemoryOfLog(acts: seq<Act>)
    requires Valid(acts)
    ensures var q, log := LastCompact(acts), Log(acts);
      Memories(log) ==
        if q.None? then EntriesOf(log, None)
        else
          var end := End(acts, q.value);
          [Entry(SystemText(Text(acts, q.value)), "system", end)] + EntriesOf(log, Some(end))
  {
    var q := LastCompact(acts);
    LatestIs(acts);
    if q.Some? {
      SummaryAt(acts, q.value);
      CoveredBy(Batch(acts, q.value), acts[q.value].now);
    }
  }

  lemma CoveredBy(events: seq<Event>, now: int)
    requires events != [] && !CutFails(Voices(events))
    ensures SummaryEvent(events, now).compaction ==
      Some(Covered(events[0].at, events[|events| - 1].at, SystemText(Told(events))))
  {
  }

  lemma WithinItself(text: string)
    ensures Within(text, text)
  {
    assert At(text, text, 0);
  }

  lemma SpokenHasText(parts: seq<Part>)
    requires FirstText(parts).Some? && FirstText(parts).value != ""
    ensures HasText(parts)
  {
    if !parts[0].Text? {
      SpokenHasText(parts[1..]);
      var i :| 0 <= i < |parts[1..]| && parts[1..][i].Text? && Trim(parts[1..][i].text) != "";
      assert parts[i + 1].Text?;
    }
  }

  /** What was said after the boundary is listed. */
  lemma ListedIsRecalled(acts: seq<Act>, i: nat, boundary: Option<int>)
    requires Valid(acts) && i < |acts| && acts[i].Say? && Heard(acts, i).Some?
    requires boundary.Some? ==> Log(acts)[i].at > boundary.value
    ensures Recalls(EntriesOf(Log(acts), boundary), Heard(acts, i).value)
  {
    LogAt(acts, i);
    var e := Log(acts)[i];
    SpokenHasText(e.content.value.parts);
    EntriesHold(Log(acts), boundary, i);
    WithinItself(Heard(acts, i).value);
    assert Spoken(EntryOf(e, boundary)[0]) == Heard(acts, i);
  }

  lemma RecallsBehind(head: seq<Entry>, rest: seq<Entry>, text: string)
    requires Recalls(rest, text)
    ensures Recalls(head + rest, text)
  {
    var x :| x in rest && Spoken(x).Some? && Within(text, Spoken(x).value);
    assert x in head + rest;
  }

  lemma HeadRecalls(head: Entry, rest: seq<Entry>, text: string)
    requires Spoken(head).Some? && Within(text, Spoken(head).value)
    ensures Recalls([head] + rest, text)
  {
    assert ([head] + rest)[0] == head;
  }

  /** What stands in the latest summary is recalled by it. */
  lemma StoodIsRecalled(acts: seq<Act>, q: nat, i: nat, end: int, rest: seq<Entry>)
    requires Valid(acts) && NeverCut(acts) && q < |acts| && acts[q].Compact? && i < |acts| && Heard(acts, i).Some?
    requires StandsFor(acts, q, i)
    ensures Recalls([Entry(SystemText(Text(acts, q)), "system", end)] + rest, Heard(acts, i).value)
  {
    StandsForTells(acts, q, i);
    HeadHeard(acts, q, end);
    HeadRecalls(Entry(SystemText(Text(acts, q)), "system", end), rest, Heard(acts, i).value);
  }

  /** Main result: in every log of said and summarised events whose summaries had at most 4,096 bytes
      before any cut, whatever is later than the latest summary's end, or stands in it directly or
      through earlier summaries, is recalled. */
  lemma KeptIsRecalled(acts: seq<Act>, i: nat)
    requires Valid(acts) && NeverCut(acts) && i < |acts| && acts[i].Say? && Heard(acts, i).Some? && Kept(acts, i)
    ensures Recalls(Memories(Log(acts)), Heard(acts, i).value)
  {
    var q := LastCompact(acts);
    MemoryOfLog(acts);
    if q.None? {
      ListedIsRecalled(acts, i, None);
    } else {
      var end := End(acts, q.value);
      var rest := EntriesOf(Log(acts), Some(end));
      if Log(acts)[i].at > end {
        ListedIsRecalled(acts, i, Some(end));
        RecallsBehind([Entry(SystemText(Text(acts, q.value)), "system", end)], rest, Heard(acts, i).value);
      } else {
        StoodIsRecalled(acts, q.value, i, end, rest);
      }
    }
  }

  lemma HeadHeard(acts: seq<Act>, q: nat, end: int)
    requires Valid(acts) && NeverCut(acts) && q < |acts| && acts[q].Compact?
    ensures Spoken(Entry(SystemText(Text(acts, q)), "system", end)) == Some(Text(acts, q))
  {
    WholeSolid(Voices(Batch(acts, q)));
    UncutIsWhole(Voices(Batch(acts, q)));
  }

  lemma WithinSays(a: string, b: string, c: char)
    requires Within(a, b) && c in a
    ensures c in b
  {
    var i: nat :| At(a, b, i);
    var k :| 0 <= k < |a| && a[k] == c;
    assert b[i..i + |a|][k] == b[i + k];
  }

  /** A listed entry that says the mark is the event's own. */
  lemma MarkedEntry(acts: seq<Act>, i: nat, mark: char, boundary: Option<int>, x: Entry)
    requires Valid(acts) && i < |acts| && Marks(acts, i, mark) && x in EntriesOf(Log(acts), boundary)
    requires Spoken(x).Some? && mark in Spoken(x).value
    ensures boundary.Some? ==> Log(acts)[i].at > boundary.value
  {
    var j := EntriesFrom(Log(acts), boundary, x);
    assert Heard(acts, j) == Spoken(x);
    if acts[j].Compact? {
      SummaryAt(acts, j);
      CoveredBy(Batch(acts, j), acts[j].now);
    }
  }

  /** Main result: and exactly that is. An event with a character nobody else uses is recalled if and
      only if it is later than the latest summary's end or stands in that summary. */
  lemma RecalledIffKept(acts: seq<Act>, i: nat, mark: char)
    requires Valid(acts) && NeverCut(acts) && i < |acts| && Marks(acts, i, mark)
    ensures Recalls(Memories(Log(acts)), Heard(acts, i).value) <==> Kept(acts, i)
  {
    if Kept(acts, i) {
      KeptIsRecalled(acts, i);
    }
    if Recalls(Memories(Log(acts)), Heard(acts, i).value) {
      var x :| x in Memories(Log(acts)) && Spoken(x).Some? && Within(Heard(acts, i).value, Spoken(x).value);
      WithinSays(Heard(acts, i).value, Spoken(x).value, mark);
      MarkedMemory(acts, i, mark, x);
    }
  }

  lemma MarkedMemory(acts: seq<Act>, i: nat, mark: char, x: Entry)
    requires Valid(acts) && i < |acts| && Marks(acts, i, mark) && x in Memories(Log(acts))
    requires Spoken(x).Some? && mark in Spoken(x).value
    ensures Kept(acts, i)
  {
    var q := LastCompact(acts);
    MemoryOfLog(acts);
    if q.Some? {
      var end := End(acts, q.value);
      var head := Entry(SystemText(Text(acts, q.value)), "system", end);
      if x == head {
        TrimSays(Text(acts, q.value), mark);
        MarkNeedsEvent(acts, q.value, i, mark);
      } else {
        InRest(head, EntriesOf(Log(acts), Some(end)), x);
        MarkedEntry(acts, i, mark, Some(end), x);
      }
    }
  }

  lemma InRest(head: Entry, rest: seq<Entry>, x: Entry)
    requires x in [head] + rest && x != head
    ensures x in rest
  {
  }

  /** Every batch takes up where the one before ended and includes that one's summary. */
  predicate Chained(acts: seq<Act>) {
    forall k :: 0 <= k < |acts| && acts[k].Compact? ==>
      match LastCompact(acts[..k])
      case None => acts[k].from == 0
      case Some(j) => acts[k].from <= acts[j].to && j < acts[k].to
  }

  lemma {:induction false} ChainStandsForAll(acts: seq<Act>, q: nat, i: nat)
    requires Valid(acts) && Chained(acts) && q < |acts| && acts[q].Compact? && i < acts[q].to
    ensures StandsFor(acts, q, i)
    decreases q
  {
    if i < acts[q].from {
      var j := LastCompact(acts[..q]).value;
      BatchIsBefore(acts, j);
      ChainStandsForAll(acts, j, i);
    }
  }

  /** Main result: so nothing said is lost if every batch takes up where the one before ended, includes
      its summary and ends before a strictly later event. */
  lemma ChainLosesNothing(acts: seq<Act>, i: nat)
    requires Valid(acts) && NeverCut(acts) && Chained(acts) && i < |acts| && acts[i].Say? && Heard(acts, i).Some?
    requires var q := LastCompact(acts);
      q.Some? && acts[q.value].to <= i ==> End(acts, q.value) < Log(acts)[i].at
    ensures Recalls(Memories(Log(acts)), Heard(acts, i).value)
  {
    var q := LastCompact(acts);
    if q.Some? && i < acts[q.value].to {
      ChainStandsForAll(acts, q.value, i);
    }
    KeptIsRecalled(acts, i);
  }

  /** Once a log in time order has been summarised whole, the memory is the summary alone, and it tells
      everything said since the log began, unless it had to be cut. */
  lemma {:induction false} SummaryStandsForAll(events: seq<Event>, now: int)
    requires events != [] && forall i, j :: 0 <= i <= j < |events| ==> events[i].at <= events[j].at
    requires Summarized(events, now).Made?
    ensures Memories(events + [Summarized(events, now).event]) ==
      [Entry(SystemText(Told(events)), "system", events[|events| - 1].at)]
    ensures Uncut(Voices(events)) ==> Tells(Told(events), Voices(events))
  {
    var summary := Summarized(events, now).event;
    CoveredBy(events, now);
    MemoryGrows(events, summary);
    CoveredIsForgotten(events, events[|events| - 1].at);
    if Uncut(Voices(events)) {
      SummaryTells(Voices(events));
    }
  }

  /** When the summariser panics instead: if a character of several bytes of the whole summary lies
      across byte 4,096, and only then. */
  lemma SummarizePanicsIff(events: seq<Event>, now: int)
    ensures Summarized(events, now).Panicked? <==>
      events != [] && Utf8.Straddles(Whole(Voices(events)), LIMIT)
  {
    Utf8.CutFailsIff(Whole(Voices(events)), LIMIT);
  }

  function Said(text: string, at: int): Act {
    Say(Event("user", at, Some(Content("user", [Part.Text(text)])), None))
  }

  /** A log that loses an event: it comes at the very instant at which the batch before it ends. */
  function LosingLog(): seq<Act> {
    [Said("hi", 5), Compact(0, 1, 6), Said("Z", 5)]
  }

  lemma SaidSpeaks(text: string, at: int)
    requires text != "" && Trimmed(text)
    ensures Spoken(Voice(Said(text, at).e)) == Some(text)
  {
  }

  lemma HiFits()
    ensures Uncut(Voices([Said("hi", 5).e])) && !CutFails(Voices([Said("hi", 5).e]))
  {
    var batch := [Said("hi", 5).e];
    var voice := Voice(batch[0]);
    SaidSpeaks("hi", 5);
    assert Voices(batch) == [voice];
    assert [voice][..0] == [];
    assert Chunks([voice]) == ["hi"];
    WholeIsAscii([voice]);
    Utf8.AsciiLength(Whole([voice]));
    UncutIsWhole([voice]);
  }

  lemma {:induction false} LogGrows(acts: seq<Act>, act: Act)
    requires Valid(acts) && Possible(act, Log(acts))
    ensures Valid(acts + [act]) && Log(acts + [act]) == Log(acts) + [Added(act, Log(acts))]
  {
    assert (acts + [act])[..|acts|] == acts;
  }

  lemma FirstActs()
    ensures Valid([Said("hi", 5)]) && Log([Said("hi", 5)]) == [Said("hi", 5).e]
  {
    LogGrows([], Said("hi", 5));
    assert [] + [Said("hi", 5)] == [Said("hi", 5)];
  }

  lemma NextActs()
    ensures var acts := [Said("hi", 5), Compact(0, 1, 6)]; Valid(acts) && Log(acts)[0] == Said("hi", 5).e
  {
    var first := [Said("hi", 5)];
    FirstActs();
    HiFits();
    assert [first[0].e][0..1] == [first[0].e];
    LogGrows(first, Compact(0, 1, 6));
    assert first + [Compact(0, 1, 6)] == [Said("hi", 5), Compact(0, 1, 6)];
  }

  lemma LosingLogIsValid()
    ensures Valid(LosingLog()) && Log(LosingLog())[0] == Said("hi", 5).e && Log(LosingLog())[2] == Said("Z", 5).e
  {
    var acts := [Said("hi", 5), Compact(0, 1, 6)];
    NextActs();
    LogGrows(acts, Said("Z", 5));
    assert acts + [Said("Z", 5)] == LosingLog();
  }

  lemma LosingBatch()
    requires Valid(LosingLog())
    ensures Batch(LosingLog(), 1) == [Said("hi", 5).e] && NeverCut(LosingLog())
  {
    LosingLogIsValid();
    HiFits();
    assert Batch(LosingLog(), 1)[0] == Log(LosingLog())[0];
    assert Batch(LosingLog(), 1) == [Said("hi", 5).e];
  }

  /** The losing log has no summary that was cut, and yet its last event is not recalled. */
  lemma {:induction false} LosingLogLoses()
    ensures Valid(LosingLog()) && NeverCut(LosingLog())
    ensures LosingLog()[2].Say? && Heard(LosingLog(), 2) == Some("Z")
    ensures !Recalls(Memories(Log(LosingLog())), "Z")
  {
    var acts := LosingLog();
    LosingLogIsValid();
    LosingBatch();
    SaidSpeaks("Z", 5);
    ZMarks();
    LosingLast();
    assert End(acts, 1) == 5;
    RecalledIffKept(acts, 2, 'Z');
  }

  lemma LosingLast()
    ensures LastCompact(LosingLog()) == Some(1)
  {
    var acts := LosingLog();
    assert acts[..2][|acts[..2]| - 1] == acts[1];
  }

  lemma CapitalsAreNotStock(c: char)
    requires 'A' <= c <= 'Z'
    ensures !Stock(c)
  {
  }

  lemma ZMarks()
    requires Valid(LosingLog())
    ensures Marks(LosingLog(), 2, 'Z')
  {
    LosingLogIsValid();
    SaidSpeaks("hi", 5);
    SaidSpeaks("Z", 5);
    CapitalsAreNotStock('Z');
    assert "Z"[0] == 'Z';
    assert Heard(LosingLog(), 0) == Some("hi") && Heard(LosingLog(), 2) == Some("Z");
  }

  lemma MemoryGrows(events: seq<Event>, e: Event)
    requires e.compaction.Some?
    ensures Memories(events + [e]) == Head(e.compaction) + EntriesOf(events, Boundary(e.compaction))
  {
    var all := events + [e];
    assert all[..|events|] == events;
  }

  /** Events at or before the boundary, and summaries, are as good as absent. */
  lemma {:induction false} CoveredIsForgotten(events: seq<Event>, boundary: int)
    requires forall i :: 0 <= i < |events| ==> events[i].at <= boundary || events[i].compaction.Some?
    ensures EntriesOf(events, Some(boundary)) == []
  {
    if events != [] {
      CoveredIsForgotten(events[..|events| - 1], boundary);
    }
  }

  // ---------------------------------------------------------------- the entries of a memory

  /** Some text part has something other than white space in it. */
  predicate Speaks(parts: seq<Part>) {
    exists i :: 0 <= i < |parts| && parts[i].Text? && !Blank(parts[i].text)
  }

  /** Said, not a summary, and later than the boundary if there is one. */
  predicate Listed(e: Event, boundary: Option<int>) {
    e.content.Some? && Speaks(e.content.value.parts) && e.compaction.None? && (boundary.Some? ==> e.at > boundary.value)
  }

  /** The event as an entry: content and time as they are, and the author, or "assistant" for a blank one. */
  predicate EntersAs(e: Event, x: Entry) {
    && e.content == Some(x.content) && x.at == e.at
    && x.author == if Blank(e.author) then "assistant" else e.author
  }

  lemma TrimmedAway(text: string)
    ensures Trim(text) == "" <==> Blank(text)
  {
    TrimIff(text, "");
    PaddedEmpty(text);
  }

  lemma ListedIs(e: Event, boundary: Option<int>)
    ensures Silent(e, boundary) <==> !Listed(e, boundary)
    ensures Listed(e, boundary) ==> |EntryOf(e, boundary)| == 1 && EntersAs(e, EntryOf(e, boundary)[0])
  {
    TrimmedAway(e.author);
    if e.content.Some? {
      forall i | 0 <= i < |e.content.value.parts| && e.content.value.parts[i].Text?
        ensures Trim(e.content.value.parts[i].text) == "" <==> Blank(e.content.value.parts[i].text)
      {
        TrimmedAway(e.content.value.parts[i].text);
      }
    }
  }

  /** The positions in the log of the entries listed, in order: each enters as its event, and none is missing. */
  ghost predicate ListedAt(events: seq<Event>, boundary: Option<int>, rest: seq<Entry>, at: seq<nat>) {
    && |at| == |rest|
    && (forall k :: 0 <= k < |at| ==>
          at[k] < |events| && Listed(events[at[k]], boundary) && EntersAs(events[at[k]], rest[k]))
    && (forall k, l :: 0 <= k < l < |at| ==> at[k] < at[l])
    && forall i :: 0 <= i < |events| && Listed(events[i], boundary) ==> i in at
  }

  /** One more event at the end of the log. */
  lemma {:induction false} ListedNext(
    events: seq<Event>, boundary: Option<int>, rest: seq<Entry>, at: seq<nat>, e: Event, x: Entry)
    requires ListedAt(events, boundary, rest, at)
    ensures !Listed(e, boundary) ==> ListedAt(events + [e], boundary, rest, at)
    ensures Listed(e, boundary) && EntersAs(e, x) ==>
      ListedAt(events + [e], boundary, rest + [x], at + [|events|])
  {
    var all := events + [e];
    forall i | 0 <= i < |events| && Listed(all[i], boundary) ensures i in at {
      assert all[i] == events[i];
    }
  }

  lemma {:induction false} EntriesAre(events: seq<Event>, boundary: Option<int>) returns (at: seq<nat>)
    ensures ListedAt(events, boundary, EntriesOf(events, boundary), at)
  {
    at := [];
    if events != [] {
      var n := |events| - 1;
      at := EntriesAre(events[..n], boundary);
      ListedIs(events[n], boundary);
      assert events == events[..n] + [events[n]];
      var added := EntryOf(events[n], boundary);
      ListedNext(events[..n], boundary, EntriesOf(events[..n], boundary), at, events[n],
        if added == [] then Voice(events[n]) else added[0]);
      if Listed(events[n], boundary) {
        assert added == [added[0]];
        at := at + [n];
      }
    }
  }

  /** Event `q` is the last in the log that carries a summary; without one `q` is None. */
  ghost predicate LastSummary(events: seq<Event>, q: Option<nat>) {
    && (q.Some? ==> q.value < |events| && events[q.value].compaction.Some?)
    && forall i :: 0 <= i < |events| && (q.Some? ==> i > q.value) ==> events[i].compaction.None?
  }

  lemma {:induction false} LatestAt(events: seq<Event>) returns (q: Option<nat>)
    ensures LastSummary(events, q) && Latest(events) == if q.None? then None else events[q.value].compaction
  {
    q := None;
    if events != [] {
      var n := |events| - 1;
      if events[n].compaction.Some? {
        q := Some(n);
      } else {
        q := LatestAt(events[..n]);
        forall i | 0 <= i < |events| && (q.Some? ==> i > q.value) ensures events[i].compaction.None? {
          assert i < n ==> events[..n][i] == events[i];
        }
      }
    }
  }

  /** Main result: what a memory consists of, for every log: in front, if the log carries a summary, the content
      of the last one, from the system and at its end; then, in the order of the log, every event that says
      something and is later than that end, each as it was said, and nothing else. */
  lemma MemoryIs(events: seq<Event>) returns (q: Option<nat>, rest: seq<Entry>, at: seq<nat>)
    ensures LastSummary(events, q)
    ensures var boundary := if q.None? then None else Some(events[q.value].compaction.value.end);
      var summary := if q.None? then [] else
        [Entry(events[q.value].compaction.value.content, "system", events[q.value].compaction.value.end)];
      Memories(events) == summary + rest && ListedAt(events, boundary, rest, at)
  {
    q := LatestAt(events);
    at := EntriesAre(events, Boundary(Latest(events)));
    rest := EntriesOf(events, Boundary(Latest(events)));
  }

  /** The summary event: from the system and carrying, as what it says and as what it covers, the cut text of
      the batch, from the time of the batch's first event to that of its last. */
  lemma {:induction false} SummaryEventIs(events: seq<Event>, now: int)
    requires events != [] && !CutFails(Voices(events))
    ensures var (e, text) := (SummaryEvent(events, now), SystemText(SummaryText(Voices(events))));
      && e.author == "system" && e.at == now && e.content == Some(text)
      && e.compaction == Some(Covered(events[0].at, events[|events| - 1].at, text))
  {
  }
}
