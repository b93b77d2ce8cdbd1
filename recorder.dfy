/**
 * The event collection recorder: a time-windowed merge-and-flush log.
 *
 * The recorder keeps a running template of the latest value of every source,
 * a position table that fixes the output columns, a window of snapshot
 * records sorted by time, and an append-only sink of formatted lines. Each new
 * event stores a full copy of the template in the window and then writes out
 * every record older than the event time minus the cache duration.
 *
 * The first half of the module defines the operations on values (the
 * specification); the class at the end performs them step by step on its
 * fields, as the program does, and is proved to agree with them.
 */
module Recorder {
  import opened Results
  import opened Text

  /** The implicit source that every record carries and that owns column 0. */
  const TimeKey: string := "Time"

  /** The dead-band, in time units, used when the program builds a recorder. */
  const DefaultCacheDuration: int := 2

  /**
   * A record of the window, and the running template: the program's dict,
   * with the numeric "Time" entry kept apart from the string-valued sources.
   */
  datatype Record = Record(time: int, fields: map<string, string>)

  /** Whether `record[source]` exists. */
  predicate Has(r: Record, source: string) {
    source == TimeKey || source in r.fields
  }

  /** `str(record[source])`, or None where the program raises KeyError. */
  function Get(r: Record, source: string): (v: Option<string>)
    ensures v.Some? <==> Has(r, source)
    ensures source == TimeKey ==> v == Some(IntToString(r.time))
    ensures source != TimeKey && source in r.fields ==> v == Some(r.fields[source])
  {
    if source == TimeKey then Some(IntToString(r.time))
    else if source in r.fields then Some(r.fields[source])
    else None
  }

  /**
   * A slot of the position table is skipped when it is None or the empty
   * name: both are false under the program's `if source:` test.
   */
  predicate Occupied(slot: Option<string>) {
    slot.Some? && slot.value != ""
  }

  // ---------------------------------------------------------------------
  // Registration
  // ---------------------------------------------------------------------

  datatype RegisterError = PositionTaken(pos: nat, holder: string) | SourceInUse(source: string)

  /** The position table extended with empty slots so that `pos` is an index of it. */
  function Padded(lookup: seq<Option<string>>, pos: nat): seq<Option<string>>
  {
    if pos < |lookup| then lookup else lookup + seq(pos + 1 - |lookup|, _ => None)
  }

  datatype Registry = Registry(lookup: seq<Option<string>>, template: Record)

  /** `register_event_source(source, pos, default)` on the registry. */
  function Register(reg: Registry, source: string, pos: nat, default: string): (Registry, Outcome<RegisterError>)
  {
    var padded := Padded(reg.lookup, pos);
    if Occupied(padded[pos]) then
      (Registry(padded, reg.template), Fail(PositionTaken(pos, padded[pos].value)))
    else if Has(reg.template, source) then
      (Registry(padded, reg.template), Fail(SourceInUse(source)))
    else
      (Registry(padded[pos := Some(source)], reg.template.(fields := reg.template.fields[source := default])), Pass)
  }

  /** The registry a new recorder starts with: "Time" at column 0, time 0. */
  function InitialRegistry(): Registry {
    Registry([Some(TimeKey)], Record(0, map[]))
  }

  /** The registered source names in column order. */
  function Sources(lookup: seq<Option<string>>): (names: seq<string>)
    ensures forall k :: 0 <= k < |names| ==> names[k] != ""
  {
    if lookup == [] then []
    else if Occupied(lookup[0]) then [lookup[0].value] + Sources(lookup[1..])
    else Sources(lookup[1..])
  }

  /**
   * What the registry always satisfies: "Time" owns column 0 and no other,
   * every registered source has a value in the template, and no source owns
   * two columns.
   */
  predicate WellFormed(reg: Registry) {
    && |reg.lookup| > 0
    && reg.lookup[0] == Some(TimeKey)
    && (forall i :: 0 < i < |reg.lookup| && Occupied(reg.lookup[i]) ==>
          reg.lookup[i].value != TimeKey && reg.lookup[i].value in reg.template.fields)
    && (forall i, j :: 0 <= i < j < |reg.lookup| && Occupied(reg.lookup[i]) && Occupied(reg.lookup[j]) ==>
          reg.lookup[i].value != reg.lookup[j].value)
  }

  /** A record holds a value for every registered source. */
  predicate Complete(lookup: seq<Option<string>>, r: Record) {
    forall i :: 0 <= i < |lookup| && Occupied(lookup[i]) ==> Has(r, lookup[i].value)
  }

  lemma InitialRegistryWellFormed()
    ensures WellFormed(InitialRegistry())
    ensures Sources(InitialRegistry().lookup) == [TimeKey]
  {
  }

  /**
   * Registration fails exactly when the column is taken or the name is known
   * ("Time" included); the table is padded either way; on success the new
   * source owns the column, the template maps it to its default, and nothing
   * else changes.
   */
  lemma RegisterOutcome(reg: Registry, source: string, pos: nat, default: string)
    ensures var (reg', out) := Register(reg, source, pos, default);
      && |reg'.lookup| == (if pos < |reg.lookup| then |reg.lookup| else pos + 1)
      && (forall i :: 0 <= i < |reg'.lookup| && i != pos ==>
            reg'.lookup[i] == (if i < |reg.lookup| then reg.lookup[i] else None))
      && (out.Fail? <==>
            (pos < |reg.lookup| && Occupied(reg.lookup[pos])) || source == TimeKey || source in reg.template.fields)
      && (out.Fail? ==> reg'.template == reg.template && reg'.lookup[pos] == (if pos < |reg.lookup| then reg.lookup[pos] else None))
      && (out.Pass? ==>
            && reg'.lookup[pos] == Some(source)
            && reg'.template.time == reg.template.time
            && reg'.template.fields.Keys == reg.template.fields.Keys + {source}
            && reg'.template.fields[source] == default
            && (forall s :: s in reg.template.fields ==> reg'.template.fields[s] == reg.template.fields[s]))
  {
    var padded := Padded(reg.lookup, pos);
    assert forall i :: 0 <= i < |reg.lookup| ==> padded[i] == reg.lookup[i];
  }

  /** Registration keeps the registry well formed, whether it succeeds or fails. */
  lemma RegisterWellFormed(reg: Registry, source: string, pos: nat, default: string)
    requires WellFormed(reg)
    ensures WellFormed(Register(reg, source, pos, default).0)
  {
    var (reg', out) := Register(reg, source, pos, default);
    var padded := Padded(reg.lookup, pos);
    assert forall i :: 0 <= i < |reg.lookup| ==> padded[i] == reg.lookup[i];
    assert forall i :: |reg.lookup| <= i < |padded| ==> padded[i] == None;
    if out.Pass? {
      assert pos != 0;
      forall i, j | 0 <= i < j < |reg'.lookup| && Occupied(reg'.lookup[i]) && Occupied(reg'.lookup[j])
        ensures reg'.lookup[i].value != reg'.lookup[j].value
      {
        if i == pos {
          assert j < |reg.lookup| && Occupied(reg.lookup[j]);
        } else if j == pos {
          assert i < |reg.lookup| && Occupied(reg.lookup[i]);
          assert i == 0 || reg.lookup[i].value in reg.template.fields;
        }
      }
    }
  }

  /** The template of a well-formed registry is a complete record. */
  lemma TemplateComplete(reg: Registry)
    requires WellFormed(reg)
    ensures Complete(reg.lookup, reg.template)
  {
  }

  // ---------------------------------------------------------------------
  // Formatting
  // ---------------------------------------------------------------------

  /** Python's `text[:-1]`. */
  function DropLast(s: string): string {
    if s == [] then s else s[..|s| - 1]
  }

  /**
   * The loop of `format_event`: walk the position table, append
   * `str(record[source]) + " "` for every occupied slot, and finally drop the
   * last character. A registered source the record lacks raises KeyError,
   * reported here with the missing name.
   */
  function FormatFrom(slots: seq<Option<string>>, r: Record, text: string): Result<string, string>
  {
    if slots == [] then Success(DropLast(text))
    else if !Occupied(slots[0]) then FormatFrom(slots[1..], r, text)
    else match Get(r, slots[0].value)
      case None => Failure(slots[0].value)
      case Some(v) => FormatFrom(slots[1..], r, text + v + " ")
  }

  /** `format_event(record)`. */
  function FormatEvent(lookup: seq<Option<string>>, r: Record): Result<string, string>
  {
    FormatFrom(lookup, r, "")
  }

  /** The values of the named sources in `r`, in order, or the first name missing from it. */
  function Values(r: Record, names: seq<string>): (res: Result<seq<string>, string>)
    ensures res.Success? ==> |res.value| == |names|
  {
    if names == [] then Success([])
    else match Get(r, names[0])
      case None => Failure(names[0])
      case Some(v) =>
        match Values(r, names[1..])
        case Failure(k) => Failure(k)
        case Success(vs) => Success([v] + vs)
  }

  /** `c + " "` for every column, concatenated. */
  function Spaced(cols: seq<string>): string {
    if cols == [] then "" else cols[0] + " " + Spaced(cols[1..])
  }

  lemma {:induction false} DropLastSpaced(cols: seq<string>)
    ensures DropLast(Spaced(cols)) == Join(cols)
  {
    if |cols| > 1 {
      DropLastSpaced(cols[1..]);
      assert Spaced(cols[1..]) != [];
      assert Spaced(cols) == cols[0] + " " + Spaced(cols[1..]);
      assert DropLast(Spaced(cols)) == cols[0] + " " + DropLast(Spaced(cols[1..]));
    }
  }

  lemma {:induction false} SpacedAppend(text: string, v: string, cols: seq<string>)
    ensures text + Spaced([v] + cols) == (text + v + " ") + Spaced(cols)
  {
    assert ([v] + cols)[1..] == cols;
  }

  lemma {:induction false} FormatFromValues(slots: seq<Option<string>>, r: Record, text: string)
    ensures FormatFrom(slots, r, text) ==
      match Values(r, Sources(slots))
      case Failure(k) => Failure(k)
      case Success(vs) => Success(DropLast(text + Spaced(vs)))
  {
    if slots == [] {
      assert text + Spaced([]) == text;
    } else if !Occupied(slots[0]) {
      FormatFromValues(slots[1..], r, text);
    } else {
      var names := Sources(slots);
      assert names == [slots[0].value] + Sources(slots[1..]);
      assert names[1..] == Sources(slots[1..]);
      match Get(r, slots[0].value)
      case None =>
      case Some(v) =>
        FormatFromValues(slots[1..], r, text + v + " ");
        match Values(r, Sources(slots[1..]))
        case Failure(k) =>
        case Success(vs) =>
          SpacedAppend(text, v, vs);
    }
  }

  /**
   * A formatted line is the values of the registered sources in column
   * order, joined by single spaces with no trailing space; formatting fails
   * exactly on the first registered source the record lacks.
   */
  lemma FormatEventColumns(lookup: seq<Option<string>>, r: Record)
    ensures FormatEvent(lookup, r) ==
      match Values(r, Sources(lookup))
      case Failure(k) => Failure(k)
      case Success(vs) => Success(Join(vs))
  {
    FormatFromValues(lookup, r, "");
    match Values(r, Sources(lookup))
    case Failure(k) =>
    case Success(vs) =>
      assert "" + Spaced(vs) == Spaced(vs);
      DropLastSpaced(vs);
  }

  lemma {:induction false} SourcesHave(lookup: seq<Option<string>>, r: Record)
    requires Complete(lookup, r)
    ensures forall k :: 0 <= k < |Sources(lookup)| ==> Has(r, Sources(lookup)[k])
  {
    if lookup != [] {
      assert Complete(lookup[1..], r) by {
        forall i | 0 <= i < |lookup[1..]| && Occupied(lookup[1..][i])
          ensures Has(r, lookup[1..][i].value)
        {
          assert lookup[1..][i] == lookup[i + 1];
        }
      }
      SourcesHave(lookup[1..], r);
    }
  }

  lemma {:induction false} ValuesPresent(r: Record, names: seq<string>)
    requires forall k :: 0 <= k < |names| ==> Has(r, names[k])
    ensures Values(r, names).Success?
    ensures forall k :: 0 <= k < |names| ==> Values(r, names).value[k] == Get(r, names[k]).value
  {
    if names != [] {
      ValuesPresent(r, names[1..]);
    }
  }

  /** A complete record always formats. */
  lemma CompleteFormats(lookup: seq<Option<string>>, r: Record)
    requires Complete(lookup, r)
    ensures FormatEvent(lookup, r).Success?
  {
    FormatEventColumns(lookup, r);
    SourcesHave(lookup, r);
    ValuesPresent(r, Sources(lookup));
  }

  /** In a well-formed registry "Time" is the first column. */
  lemma TimeFirst(reg: Registry)
    requires WellFormed(reg)
    ensures |Sources(reg.lookup)| > 0 && Sources(reg.lookup)[0] == TimeKey
  {
  }

  /**
   * The log can be read back: when no value contains a space, splitting a
   * formatted line on spaces yields one field per registered source, in
   * column order, with the record's time in the first field.
   */
  lemma FormatEventSplits(reg: Registry, r: Record)
    requires WellFormed(reg)
    requires Complete(reg.lookup, r)
    requires forall s :: s in r.fields ==> ' ' !in r.fields[s]
    ensures FormatEvent(reg.lookup, r).Success?
    ensures var cols := Split(FormatEvent(reg.lookup, r).value);
      && |cols| == |Sources(reg.lookup)|
      && cols[0] == IntToString(r.time)
      && (forall k :: 0 <= k < |cols| ==> Some(cols[k]) == Get(r, Sources(reg.lookup)[k]))
  {
    var names := Sources(reg.lookup);
    FormatEventColumns(reg.lookup, r);
    SourcesHave(reg.lookup, r);
    ValuesPresent(r, names);
    var vs := Values(r, names).value;
    assert NoSpaces(vs) by {
      forall k | 0 <= k < |vs| ensures ' ' !in vs[k] {
        assert vs[k] == Get(r, names[k]).value;
      }
    }
    SplitJoin(vs);
  }

  // ---------------------------------------------------------------------
  // The window: ordered insertion
  // ---------------------------------------------------------------------

  /** No record is older than `h`. */
  predicate NotBefore(w: seq<Record>, h: int) {
    forall k :: 0 <= k < |w| ==> w[k].time >= h
  }

  /** Records in non-decreasing time order. */
  predicate Sorted(w: seq<Record>) {
    forall i, j :: 0 <= i < j < |w| ==> w[i].time <= w[j].time
  }

  /**
   * Where `create_event` inserts a record for time `t`: before the first
   * record whose time is strictly greater, or at the end.
   */
  function InsertIndex(w: seq<Record>, t: int): (i: nat)
    ensures i <= |w|
    ensures forall k :: 0 <= k < i ==> w[k].time <= t
    ensures i < |w| ==> t < w[i].time
  {
    if w == [] || t < w[0].time then 0 else 1 + InsertIndex(w[1..], t)
  }

  function Insert(w: seq<Record>, r: Record): seq<Record> {
    var i := InsertIndex(w, r.time);
    w[..i] + [r] + w[i..]
  }

  /**
   * Insertion keeps the window sorted, adds exactly the new record, and
   * leaves every other record as it was.
   */
  lemma InsertSorted(w: seq<Record>, r: Record)
    requires Sorted(w)
    ensures Sorted(Insert(w, r))
  {
    var i := InsertIndex(w, r.time);
    var w' := Insert(w, r);
    assert |w'| == |w| + 1;
    assert forall k :: 0 <= k < i ==> w'[k] == w[k];
    assert w'[i] == r;
    assert forall k :: i < k < |w'| ==> w'[k] == w[k - 1];
    forall a, b | 0 <= a < b < |w'| ensures w'[a].time <= w'[b].time {
      if b < i {
        assert w'[a] == w[a] && w'[b] == w[b];
      } else if b == i {
        assert w'[a] == w[a];
      } else if a == i {
        assert w'[b] == w[b - 1];
      } else if a < i {
        assert w'[a] == w[a] && w'[b] == w[b - 1];
      } else {
        assert w'[a] == w[a - 1] && w'[b] == w[b - 1];
      }
    }
  }

  lemma SortedSuffix(w: seq<Record>, n: nat)
    requires Sorted(w) && n <= |w|
    ensures Sorted(w[n..])
  {
    forall a, b | 0 <= a < b < |w| - n ensures w[n..][a].time <= w[n..][b].time {
      assert w[n..][a] == w[n + a] && w[n..][b] == w[n + b];
    }
  }

  /** Insertion adds exactly the new record and keeps every other one. */
  lemma InsertContents(w: seq<Record>, r: Record)
    ensures multiset(Insert(w, r)) == multiset(w) + multiset{r}
  {
    var i := InsertIndex(w, r.time);
    assert w == w[..i] + w[i..];
  }

  /**
   * Equal timestamps are not merged: every record already at the new time
   * stays where it is, unchanged, and the new record is placed after it.
   */
  lemma InsertAfterEqual(w: seq<Record>, r: Record, k: nat)
    requires Sorted(w)
    requires k < |w| && w[k].time == r.time
    ensures k < InsertIndex(w, r.time)
    ensures Insert(w, r)[k] == w[k]
    ensures Insert(w, r)[InsertIndex(w, r.time)] == r
    ensures |Insert(w, r)| == |w| + 1
  {
  }

  // ---------------------------------------------------------------------
  // The window: flushing
  // ---------------------------------------------------------------------

  /** Whether `dump_events(horizon)` writes a record. */
  predicate Qualifies(r: Record, horizon: Option<int>) {
    horizon.None? || r.time < horizon.value
  }

  /** The length of the prefix of the window that qualifies for writing. */
  function FlushCount(w: seq<Record>, horizon: Option<int>): (n: nat)
    ensures n <= |w|
    ensures forall k :: 0 <= k < n ==> Qualifies(w[k], horizon)
    ensures n < |w| ==> !Qualifies(w[n], horizon)
  {
    if w == [] || !Qualifies(w[0], horizon) then 0 else 1 + FlushCount(w[1..], horizon)
  }

  /** The lines written for a run of records, up to the first that cannot be formatted. */
  datatype Batch = Batch(lines: seq<string>, missing: Option<string>)

  function FormatBatch(lookup: seq<Option<string>>, rs: seq<Record>): (b: Batch)
    ensures |b.lines| <= |rs|
  {
    if rs == [] then Batch([], None)
    else match FormatEvent(lookup, rs[0])
      case Failure(k) => Batch([], Some(k))
      case Success(line) =>
        var rest := FormatBatch(lookup, rs[1..]);
        Batch([line] + rest.lines, rest.missing)
  }

  lemma {:induction false} FormatBatchAppend(lookup: seq<Option<string>>, a: seq<Record>, b: seq<Record>)
    ensures FormatBatch(lookup, a + b) ==
      if FormatBatch(lookup, a).missing.Some? then FormatBatch(lookup, a)
      else Batch(FormatBatch(lookup, a).lines + FormatBatch(lookup, b).lines, FormatBatch(lookup, b).missing)
  {
    if a == [] {
      assert a + b == b;
    } else {
      assert (a + b)[0] == a[0];
      assert (a + b)[1..] == a[1..] + b;
      FormatBatchAppend(lookup, a[1..], b);
    }
  }

  lemma FormatBatchOne(lookup: seq<Option<string>>, r: Record)
    ensures FormatBatch(lookup, [r]) ==
      match FormatEvent(lookup, r)
      case Failure(k) => Batch([], Some(k))
      case Success(line) => Batch([line], None)
  {
    assert [r][1..] == [];
  }

  /** The formatted lines of a run of records, one per record, when none is missing a source. */
  lemma {:induction false} FormatBatchLines(lookup: seq<Option<string>>, rs: seq<Record>)
    requires FormatBatch(lookup, rs).missing.None?
    ensures |FormatBatch(lookup, rs).lines| == |rs|
    ensures forall k :: 0 <= k < |rs| ==>
      FormatEvent(lookup, rs[k]).Success? && FormatBatch(lookup, rs).lines[k] == FormatEvent(lookup, rs[k]).value
  {
    if rs != [] {
      FormatBatchLines(lookup, rs[1..]);
    }
  }

  lemma {:induction false} FormatBatchComplete(lookup: seq<Option<string>>, rs: seq<Record>)
    requires forall k :: 0 <= k < |rs| ==> Complete(lookup, rs[k])
    ensures FormatBatch(lookup, rs).missing.None?
  {
    if rs != [] {
      CompleteFormats(lookup, rs[0]);
      FormatBatchComplete(lookup, rs[1..]);
    }
  }

  datatype DumpError = KeyMissing(source: string)

  /** What one `dump_events` call writes, keeps and returns. */
  datatype Dump = Dump(lines: seq<string>, rest: seq<Record>, result: Result<nat, DumpError>)

  /**
   * `dump_events(horizon)` on a window: the qualifying prefix is written in
   * order and dropped, and the count is returned (1 for an empty window).
   * When a record of the prefix cannot be formatted, the lines before it
   * have already been written but the window is kept whole.
   */
  function DumpSpec(lookup: seq<Option<string>>, w: seq<Record>, horizon: Option<int>): (d: Dump)
    ensures |d.lines| <= FlushCount(w, horizon)
    ensures d.result.Failure? ==> d.rest == w
  {
    var n := FlushCount(w, horizon);
    var b := FormatBatch(lookup, w[..n]);
    if b.missing.Some? then Dump(b.lines, w, Failure(KeyMissing(b.missing.value)))
    else Dump(b.lines, w[n..], Success(if w == [] then 1 else n))
  }

  /**
   * Prefix flush: a successful dump splits the window into a written prefix
   * and a kept suffix; every written record qualified, the first kept one
   * does not, and exactly one line per written record is produced, in
   * window order.
   */
  lemma DumpPrefix(lookup: seq<Option<string>>, w: seq<Record>, horizon: Option<int>)
    requires DumpSpec(lookup, w, horizon).result.Success?
    ensures var d := DumpSpec(lookup, w, horizon);
      var n := |w| - |d.rest|;
      && w == w[..n] + d.rest
      && (forall k :: 0 <= k < n ==> Qualifies(w[k], horizon))
      && (d.rest != [] ==> !Qualifies(d.rest[0], horizon))
      && |d.lines| == n
      && (forall k :: 0 <= k < n ==> FormatEvent(lookup, w[k]) == Success(d.lines[k]))
      && d.result.value == (if w == [] then 1 else n)
  {
    var n := FlushCount(w, horizon);
    FormatBatchLines(lookup, w[..n]);
    assert w == w[..n] + w[n..];
  }

  /**
   * Bounded window: after a successful dump of a sorted window with a
   * horizon, every kept record is at or after the horizon, and the kept
   * records are still sorted.
   */
  lemma DumpHorizon(lookup: seq<Option<string>>, w: seq<Record>, h: int)
    requires Sorted(w)
    requires DumpSpec(lookup, w, Some(h)).result.Success?
    ensures var rest := DumpSpec(lookup, w, Some(h)).rest;
      Sorted(rest) && forall k :: 0 <= k < |rest| ==> rest[k].time >= h
  {
    var n := FlushCount(w, Some(h));
    var rest := w[n..];
    forall k | 0 <= k < |rest| ensures rest[k].time >= h {
      assert rest[k] == w[n + k];
      assert w[n].time <= w[n + k].time;
    }
  }

  /** Finalization: a successful dump without a horizon empties the window and writes every record. */
  lemma DumpAll(lookup: seq<Option<string>>, w: seq<Record>)
    requires DumpSpec(lookup, w, None).result.Success?
    ensures DumpSpec(lookup, w, None).rest == []
    ensures |DumpSpec(lookup, w, None).lines| == |w|
  {
    assert FlushCount(w, None) == |w|;
    assert w[..|w|] == w;
    FormatBatchLines(lookup, w);
  }

  /** A dump can fail only when some record lacks a registered source. */
  lemma DumpCompleteSucceeds(lookup: seq<Option<string>>, w: seq<Record>, horizon: Option<int>)
    requires forall k :: 0 <= k < |w| ==> Complete(lookup, w[k])
    ensures DumpSpec(lookup, w, horizon).result.Success?
  {
    var n := FlushCount(w, horizon);
    FormatBatchComplete(lookup, w[..n]);
  }

  /** A failed dump keeps the window whole; the lines already written are those of the records before the faulty one. */
  lemma DumpFailureKeepsWindow(lookup: seq<Option<string>>, w: seq<Record>, horizon: Option<int>)
    requires DumpSpec(lookup, w, horizon).result.Failure?
    ensures var d := DumpSpec(lookup, w, horizon);
      && d.rest == w
      && exists j :: 0 <= j < FlushCount(w, horizon)
          && FormatEvent(lookup, w[j]) == Failure(d.result.error.source)
          && d.lines == FormatBatch(lookup, w[..j]).lines
  {
    var n := FlushCount(w, horizon);
    FailureIndexExists(lookup, w[..n]);
    var j :| 0 <= j < |w[..n]| && FormatBatch(lookup, w[..n][..j]).missing.None?
      && FormatEvent(lookup, w[..n][j]) == Failure(FormatBatch(lookup, w[..n]).missing.value)
      && FormatBatch(lookup, w[..n]).lines == FormatBatch(lookup, w[..n][..j]).lines;
    assert w[..n][..j] == w[..j];
  }

  lemma {:induction false} FailureIndexExists(lookup: seq<Option<string>>, rs: seq<Record>)
    requires FormatBatch(lookup, rs).missing.Some?
    ensures exists j :: (0 <= j < |rs| && FormatBatch(lookup, rs[..j]).missing.None?
      && FormatEvent(lookup, rs[j]) == Failure(FormatBatch(lookup, rs).missing.value)
      && FormatBatch(lookup, rs).lines == FormatBatch(lookup, rs[..j]).lines)
  {
    if FormatEvent(lookup, rs[0]).Failure? {
      assert rs[..0] == [];
    } else {
      FailureIndexExists(lookup, rs[1..]);
      var j :| 0 <= j < |rs[1..]| && FormatBatch(lookup, rs[1..][..j]).missing.None?
        && FormatEvent(lookup, rs[1..][j]) == Failure(FormatBatch(lookup, rs[1..]).missing.value)
        && FormatBatch(lookup, rs[1..]).lines == FormatBatch(lookup, rs[1..][..j]).lines;
      assert rs[..j + 1] == [rs[0]] + rs[1..][..j];
      FormatBatchAppend(lookup, [rs[0]], rs[1..][..j]);
      FormatBatchOne(lookup, rs[0]);
      assert rs[1..][j] == rs[j + 1];
    }
  }

  // ---------------------------------------------------------------------
  // Creating and updating events
  // ---------------------------------------------------------------------

  /**
   * The template after `create_event(source, time, message)` has set
   * `template[source] = message` and then `template["Time"] = time` (so a
   * source named "Time" only moves the time). Unregistered sources are
   * accepted and simply added.
   */
  function Stamp(template: Record, source: string, message: string, time: int): (r: Record)
  {
    Record(time, if source == TimeKey then template.fields else template.fields[source := message])
  }

  /**
   * The snapshot carries the event's time and message and every other value
   * of the template; it is complete whenever the template is.
   */
  lemma StampSnapshot(lookup: seq<Option<string>>, template: Record, source: string, message: string, time: int)
    ensures var r := Stamp(template, source, message, time);
      && r.time == time
      && (source != TimeKey ==> Get(r, source) == Some(message))
      && (forall s :: s != source && s != TimeKey ==> Get(r, s) == Get(template, s))
      && (Complete(lookup, template) ==> Complete(lookup, r))
  {
  }

  /** Stamping the template keeps the registry well formed and the template complete. */
  lemma StampWellFormed(reg: Registry, source: string, message: string, time: int)
    requires WellFormed(reg)
    ensures WellFormed(Registry(reg.lookup, Stamp(reg.template, source, message, time)))
    ensures Complete(reg.lookup, Stamp(reg.template, source, message, time))
  {
  }

  /** The window and sink after `create_event`, starting from window `w`. */
  function CreateSpec(lookup: seq<Option<string>>, w: seq<Record>, snapshot: Record, cacheDuration: int): Dump
  {
    DumpSpec(lookup, Insert(w, snapshot), Some(snapshot.time - cacheDuration))
  }

  /** The part of CreateBounded that the recorder's `create_event` states. */
  lemma CreateHorizon(lookup: seq<Option<string>>, w: seq<Record>, snapshot: Record, cacheDuration: int)
    requires Sorted(w)
    ensures var d := CreateSpec(lookup, w, snapshot, cacheDuration);
      d.result.Success? ==> NotBefore(d.rest, snapshot.time - cacheDuration)
  {
    if CreateSpec(lookup, w, snapshot, cacheDuration).result.Success? {
      InsertSorted(w, snapshot);
      DumpHorizon(lookup, Insert(w, snapshot), snapshot.time - cacheDuration);
    }
  }

  /**
   * Bounded window: after a successful `create_event` at time t on a sorted
   * window, the window is sorted, every record still in it has time at least
   * t - cache_duration, and each record removed was written, in order. The
   * new snapshot is either still in the window or among the written records.
   */
  lemma CreateBounded(lookup: seq<Option<string>>, w: seq<Record>, snapshot: Record, cacheDuration: int)
    requires Sorted(w)
    requires CreateSpec(lookup, w, snapshot, cacheDuration).result.Success?
    ensures var d := CreateSpec(lookup, w, snapshot, cacheDuration);
      var w' := Insert(w, snapshot);
      var n := |w'| - |d.rest|;
      && Sorted(d.rest)
      && (forall k :: 0 <= k < |d.rest| ==> d.rest[k].time >= snapshot.time - cacheDuration)
      && w' == w'[..n] + d.rest
      && |d.lines| == n
      && (forall k :: 0 <= k < n ==> FormatEvent(lookup, w'[k]) == Success(d.lines[k]))
      && multiset(w'[..n]) + multiset(d.rest) == multiset(w) + multiset{snapshot}
  {
    var w' := Insert(w, snapshot);
    var h := snapshot.time - cacheDuration;
    var d := DumpSpec(lookup, w', Some(h));
    assert d == CreateSpec(lookup, w, snapshot, cacheDuration);
    InsertSorted(w, snapshot);
    InsertContents(w, snapshot);
    DumpHorizon(lookup, w', h);
    DumpPrefix(lookup, w', Some(h));
    var n := |w'| - |d.rest|;
    assert w' == w'[..n] + d.rest;
    assert multiset(w'[..n]) + multiset(d.rest) == multiset(w');
  }

  /**
   * The index of the first record whose time is exactly `t`, or the length
   * of the window when there is none.
   */
  function FindTime(w: seq<Record>, t: int): (i: nat)
    ensures i <= |w|
    ensures forall k :: 0 <= k < i ==> w[k].time != t
    ensures i < |w| ==> w[i].time == t
  {
    if w == [] || w[0].time == t then 0 else 1 + FindTime(w[1..], t)
  }

  datatype UpdateError = TimeNotInQueue(source: string, time: int)

  /** `update_event(source, time, message)` on a window: patch the first record at `time`. */
  function UpdateSpec(w: seq<Record>, source: string, time: int, message: string): Option<seq<Record>>
  {
    var i := FindTime(w, time);
    if i == |w| then None
    else Some(w[i := w[i].(fields := w[i].fields[source := message])])
  }

  /**
   * Update scoping: the update fails exactly when no record has that time;
   * otherwise only the first record at that time changes, and in it only
   * the one source; the window stays sorted.
   */
  lemma UpdateScoping(w: seq<Record>, source: string, time: int, message: string)
    requires source != TimeKey
    ensures UpdateSpec(w, source, time, message).None? <==> forall k :: 0 <= k < |w| ==> w[k].time != time
    ensures UpdateSpec(w, source, time, message).Some? ==>
      var w' := UpdateSpec(w, source, time, message).value;
      var i := FindTime(w, time);
      && |w'| == |w|
      && (forall k :: 0 <= k < i ==> w[k].time != time)
      && w'[i].time == time
      && Get(w'[i], source) == Some(message)
      && (forall s :: s != source ==> Get(w'[i], s) == Get(w[i], s))
      && (forall k :: 0 <= k < |w| && k != i ==> w'[k] == w[k])
      && (Sorted(w) ==> Sorted(w'))
  {
  }

  // ---------------------------------------------------------------------
  // The written log across calls
  // ---------------------------------------------------------------------

  /** The times of a run of records, in order. */
  function Times(w: seq<Record>): (ts: seq<int>)
    ensures |ts| == |w|
  {
    seq(|w|, k requires 0 <= k < |w| => w[k].time)
  }

  lemma TimesAppend(a: seq<Record>, b: seq<Record>)
    ensures Times(a + b) == Times(a) + Times(b)
  {
  }

  lemma TimesSplit(w: seq<Record>, n: nat)
    requires n <= |w|
    ensures multiset(Times(w[..n])) + multiset(Times(w[n..])) == multiset(Times(w))
  {
    assert w == w[..n] + w[n..];
    TimesAppend(w[..n], w[n..]);
  }

  /**
   * The log is in time order so far: the records written are sorted, and no
   * record still held in the window is older than the last one written.
   */
  predicate InOrder(written: seq<Record>, w: seq<Record>) {
    Sorted(written) && (written != [] ==> NotBefore(w, written[|written| - 1].time))
  }

  /**
   * Every event created is accounted for exactly once: the times of the
   * records written and of those still held are the times of the events.
   */
  predicate Conserved(written: seq<Record>, w: seq<Record>, created: seq<int>) {
    multiset(Times(written)) + multiset(Times(w)) == multiset(created)
  }

  /** The lines of a batch, successful or not, are those of its first records. */
  lemma {:induction false} FormatBatchWritten(lookup: seq<Option<string>>, rs: seq<Record>)
    ensures forall k :: 0 <= k < |FormatBatch(lookup, rs).lines| ==>
      FormatEvent(lookup, rs[k]) == Success(FormatBatch(lookup, rs).lines[k])
  {
    if rs != [] && FormatEvent(lookup, rs[0]).Success? {
      FormatBatchWritten(lookup, rs[1..]);
      var lines := FormatBatch(lookup, rs).lines;
      forall k | 1 <= k < |lines|
        ensures FormatEvent(lookup, rs[k]) == Success(lines[k])
      {
        assert rs[k] == rs[1..][k - 1];
      }
    }
  }

  /**
   * The records a dump writes, whether it succeeds or not, are the first
   * `|lines|` records of the window, one line each; a successful dump keeps
   * the rest, a failed one keeps the whole window.
   */
  lemma DumpWritten(lookup: seq<Option<string>>, w: seq<Record>, horizon: Option<int>)
    ensures var d := DumpSpec(lookup, w, horizon);
      && |d.lines| <= FlushCount(w, horizon)
      && (forall k :: 0 <= k < |d.lines| ==> FormatEvent(lookup, w[k]) == Success(d.lines[k]))
      && (d.result.Success? ==> d.rest == w[|d.lines|..])
      && (d.result.Failure? ==> d.rest == w)
  {
    var n := FlushCount(w, horizon);
    FormatBatchWritten(lookup, w[..n]);
    if DumpSpec(lookup, w, horizon).result.Success? {
      FormatBatchLines(lookup, w[..n]);
    }
  }

  /**
   * A successful dump keeps the log in order: the records it writes follow
   * every record written before, in window order, and no record it keeps is
   * older than the last one written.
   */
  lemma DumpKeepsOrder(lookup: seq<Option<string>>, written: seq<Record>, w: seq<Record>, horizon: Option<int>)
    requires Sorted(w) && InOrder(written, w)
    requires DumpSpec(lookup, w, horizon).result.Success?
    ensures var d := DumpSpec(lookup, w, horizon);
      InOrder(written + w[..|d.lines|], d.rest)
  {
    DumpWritten(lookup, w, horizon);
    MoveInOrder(written, w, |DumpSpec(lookup, w, horizon).lines|);
  }

  /** Moving a prefix of a sorted window onto an ordered log keeps it ordered. */
  lemma MoveInOrder(written: seq<Record>, w: seq<Record>, n: nat)
    requires Sorted(w) && InOrder(written, w) && n <= |w|
    ensures InOrder(written + w[..n], w[n..])
  {
    var out := written + w[..n];
    forall i, j | 0 <= i < j < |out| ensures out[i].time <= out[j].time {
      if j < |written| {
        assert out[i] == written[i] && out[j] == written[j];
      } else if i < |written| {
        assert out[i] == written[i] && out[j] == w[j - |written|];
        assert written[i].time <= written[|written| - 1].time;
      } else {
        assert out[i] == w[i - |written|] && out[j] == w[j - |written|];
      }
    }
    if n > 0 {
      forall k | 0 <= k < |w[n..]| ensures w[n..][k].time >= out[|out| - 1].time {
        assert w[n..][k] == w[n + k];
        assert out[|out| - 1] == w[n - 1];
      }
    } else {
      assert out == written;
    }
  }

  /** Moving the first `n` held records to the written log keeps every event accounted for. */
  lemma ConservedMove(written: seq<Record>, w: seq<Record>, n: nat, created: seq<int>)
    requires n <= |w|
    requires Conserved(written, w, created)
    ensures Conserved(written + w[..n], w[n..], created)
  {
    TimesAppend(written, w[..n]);
    TimesSplit(w, n);
  }

  /** A successful dump writes every record it removes, and only those. */
  lemma DumpConserves(lookup: seq<Option<string>>, written: seq<Record>, w: seq<Record>, horizon: Option<int>, created: seq<int>)
    requires Conserved(written, w, created)
    requires DumpSpec(lookup, w, horizon).result.Success?
    ensures var d := DumpSpec(lookup, w, horizon);
      Conserved(written + w[..|d.lines|], d.rest, created)
  {
    var d := DumpSpec(lookup, w, horizon);
    DumpWritten(lookup, w, horizon);
    ConservedMove(written, w, |d.lines|, created);
  }

  /**
   * As written: a failed dump has already written the records before the
   * faulty one, yet keeps them all in the window, so they are counted twice
   * and the next successful dump writes them again.
   */
  lemma DumpFailureRecounts(lookup: seq<Option<string>>, written: seq<Record>, w: seq<Record>, horizon: Option<int>, created: seq<int>)
    requires Conserved(written, w, created)
    requires DumpSpec(lookup, w, horizon).result.Failure?
    ensures var d := DumpSpec(lookup, w, horizon);
      multiset(Times(written + w[..|d.lines|])) + multiset(Times(d.rest))
        == multiset(created) + multiset(Times(w[..|d.lines|]))
  {
    var d := DumpSpec(lookup, w, horizon);
    DumpWritten(lookup, w, horizon);
    TimesAppend(written, w[..|d.lines|]);
  }

  /** A snapshot no older than the last record written keeps the window behind the log. */
  lemma InsertInOrder(written: seq<Record>, w: seq<Record>, r: Record)
    requires InOrder(written, w)
    requires written != [] ==> written[|written| - 1].time <= r.time
    ensures InOrder(written, Insert(w, r))
  {
    if written != [] {
      var i := InsertIndex(w, r.time);
      var w' := Insert(w, r);
      forall k | 0 <= k < |w'| ensures w'[k].time >= written[|written| - 1].time {
        if k < i {
          assert w'[k] == w[k];
        } else if k > i {
          assert w'[k] == w[k - 1];
        }
      }
    }
  }

  lemma InsertTimes(w: seq<Record>, r: Record)
    ensures multiset(Times(Insert(w, r))) == multiset(Times(w)) + multiset{r.time}
  {
    var i := InsertIndex(w, r.time);
    var a, b := w[..i], w[i..];
    assert Insert(w, r) == a + [r] + b;
    TimesAppend(a + [r], b);
    TimesAppend(a, [r]);
    assert Times([r]) == [r.time];
    assert w == a + b;
    TimesAppend(a, b);
    assert Times(Insert(w, r)) == Times(a) + [r.time] + Times(b);
  }

  /**
   * Time order across calls: a successful `create_event` whose time is not
   * before the last record written keeps the whole log in time order.
   */
  lemma CreateKeepsOrder(lookup: seq<Option<string>>, written: seq<Record>, w: seq<Record>, snapshot: Record, cacheDuration: int)
    requires Sorted(w) && InOrder(written, w)
    requires written != [] ==> written[|written| - 1].time <= snapshot.time
    requires CreateSpec(lookup, w, snapshot, cacheDuration).result.Success?
    ensures var d := CreateSpec(lookup, w, snapshot, cacheDuration);
      InOrder(written + Insert(w, snapshot)[..|d.lines|], d.rest)
  {
    InsertSorted(w, snapshot);
    InsertInOrder(written, w, snapshot);
    DumpKeepsOrder(lookup, written, Insert(w, snapshot), Some(snapshot.time - cacheDuration));
  }

  /**
   * Written once: after a successful `create_event`, the records written and
   * those held account for every event created, the new one included.
   */
  lemma CreateConserves(lookup: seq<Option<string>>, written: seq<Record>, w: seq<Record>, snapshot: Record, cacheDuration: int, created: seq<int>)
    requires Conserved(written, w, created)
    requires CreateSpec(lookup, w, snapshot, cacheDuration).result.Success?
    ensures var d := CreateSpec(lookup, w, snapshot, cacheDuration);
      Conserved(written + Insert(w, snapshot)[..|d.lines|], d.rest, created + [snapshot.time])
  {
    InsertTimes(w, snapshot);
    DumpConserves(lookup, written, Insert(w, snapshot), Some(snapshot.time - cacheDuration), created + [snapshot.time]);
  }

  /** What a successful `create_event` does to the log, in the form the recorder's method uses. */
  lemma CreateLog(lookup: seq<Option<string>>, written: seq<Record>, w: seq<Record>, snapshot: Record, cacheDuration: int, created: seq<int>)
    requires Sorted(w)
    requires CreateSpec(lookup, w, snapshot, cacheDuration).result.Success?
    ensures var d := CreateSpec(lookup, w, snapshot, cacheDuration);
      var out := written + Insert(w, snapshot)[..|d.lines|];
      && NotBefore(d.rest, snapshot.time - cacheDuration)
      && (Conserved(written, w, created) ==> Conserved(out, d.rest, created + [snapshot.time]))
      && (InOrder(written, w) && (written == [] || written[|written| - 1].time <= snapshot.time) ==>
            InOrder(out, d.rest))
  {
    CreateHorizon(lookup, w, snapshot, cacheDuration);
    if Conserved(written, w, created) {
      CreateConserves(lookup, written, w, snapshot, cacheDuration, created);
    }
    if InOrder(written, w) && (written == [] || written[|written| - 1].time <= snapshot.time) {
      CreateKeepsOrder(lookup, written, w, snapshot, cacheDuration);
    }
  }

  /** `update_event` leaves every time in place, so it keeps the log in order and accounted for. */
  lemma UpdateKeepsLog(written: seq<Record>, w: seq<Record>, source: string, time: int, message: string, created: seq<int>)
    requires UpdateSpec(w, source, time, message).Some?
    ensures var w' := UpdateSpec(w, source, time, message).value;
      && Times(w') == Times(w)
      && (InOrder(written, w) ==> InOrder(written, w'))
      && (Conserved(written, w, created) ==> Conserved(written, w', created))
  {
    var w' := UpdateSpec(w, source, time, message).value;
    assert forall k :: 0 <= k < |w| ==> w'[k].time == w[k].time;
    assert Times(w') == Times(w);
  }

  /**
   * As written: an event older than a record already written is written
   * after it. With cache duration 2 and events at 10, 20, 5 and 30, every
   * `create_event` succeeds and the log holds 10, 5, 20.
   */
  lemma LateEventReordered(lookup: seq<Option<string>>, r10: Record, r20: Record, r5: Record, r30: Record)
    requires lookup == [Some(TimeKey)]
    requires r10 == Record(10, map[]) && r20 == Record(20, map[])
    requires r5 == Record(5, map[]) && r30 == Record(30, map[])
    ensures var d1 := CreateSpec(lookup, [], r10, 2);
      var d2 := CreateSpec(lookup, d1.rest, r20, 2);
      var d3 := CreateSpec(lookup, d2.rest, r5, 2);
      var d4 := CreateSpec(lookup, d3.rest, r30, 2);
      && d1.result.Success? && d2.result.Success? && d3.result.Success? && d4.result.Success?
      && d1.lines + d2.lines + d3.lines + d4.lines == ["10", "5", "20"]
      && Insert(d2.rest, r5)[..|d3.lines|] + Insert(d3.rest, r30)[..|d4.lines|] == [r5, r20]
      && !Sorted([r10, r5, r20])
  {
    LateSteps12(lookup, r10, r20);
    LateSteps34(lookup, r20, r5, r30);
    assert [r5, r20][..0] + [r5, r20, r30][..2] == [r5, r20];
    assert [] + ["10"] + [] + ["5", "20"] == ["10", "5", "20"];
    assert [r10, r5, r20][0].time > [r10, r5, r20][1].time;
  }

  /** The first two `create_event` calls of LateEventReordered. */
  lemma LateSteps12(lookup: seq<Option<string>>, r10: Record, r20: Record)
    requires lookup == [Some(TimeKey)]
    requires r10 == Record(10, map[]) && r20 == Record(20, map[])
    ensures CreateSpec(lookup, [], r10, 2) == Dump([], [r10], Success(0))
    ensures CreateSpec(lookup, [r10], r20, 2) == Dump(["10"], [r20], Success(1))
  {
    assert Insert([], r10) == [r10];
    assert FlushCount([r10], Some(8)) == 0;
    TimeOnlyLine(10, "10");
    assert Insert([r10], r20) == [r10, r20];
    assert FlushCount([r10, r20], Some(18)) == 1;
    assert [r10, r20][..1] == [r10];
    FormatBatchOne(lookup, r10);
  }

  /** The last two `create_event` calls of LateEventReordered. */
  lemma LateSteps34(lookup: seq<Option<string>>, r20: Record, r5: Record, r30: Record)
    requires lookup == [Some(TimeKey)]
    requires r20 == Record(20, map[]) && r5 == Record(5, map[]) && r30 == Record(30, map[])
    ensures Insert([r20], r5) == [r5, r20]
    ensures CreateSpec(lookup, [r20], r5, 2) == Dump([], [r5, r20], Success(0))
    ensures Insert([r5, r20], r30) == [r5, r20, r30]
    ensures CreateSpec(lookup, [r5, r20], r30, 2) == Dump(["5", "20"], [r30], Success(2))
  {
    assert Insert([r20], r5) == [r5, r20];
    assert FlushCount([r5, r20], Some(3)) == 0;
    TimeOnlyLine(20, "20");
    TimeOnlyLine(5, "5");
    assert Insert([r5, r20], r30) == [r5, r20, r30];
    assert [r5, r20, r30][1..] == [r20, r30] && [r20, r30][1..] == [r30];
    assert FlushCount([r30], Some(28)) == 0;
    assert FlushCount([r5, r20, r30], Some(28)) == 2;
    assert [r5, r20, r30][..2] == [r5] + [r20];
    FormatBatchAppend(lookup, [r5], [r20]);
    FormatBatchOne(lookup, r5);
    FormatBatchOne(lookup, r20);
  }

  /** The line of a record under a table that holds only "Time" is its time. */
  lemma TimeOnlyLine(t: int, text: string)
    requires text == IntToString(t)
    ensures FormatEvent([Some(TimeKey)], Record(t, map[])) == Success(text)
  {
    var r := Record(t, map[]);
    assert Get(r, TimeKey) == Some(text);
    assert [Some(TimeKey)][1..] == [];
    assert "" + text + " " == text + " ";
    assert FormatFrom([Some(TimeKey)], r, "") == FormatFrom([], r, text + " ");
    assert (text + " ")[..|text|] == text;
  }

  /**
   * As written: a dump that fails after writing a record leaves it in the
   * window, and once the faulty record is patched the next dump writes it
   * again. Here "1 x" is written twice.
   */
  lemma FailedDumpRewrites(lookup: seq<Option<string>>, r1: Record, r2: Record)
    requires lookup == [Some(TimeKey), Some("A")]
    requires r1 == Record(1, map["A" := "x"]) && r2 == Record(2, map[])
    ensures var d := DumpSpec(lookup, [r1, r2], None);
      var patched := UpdateSpec([r1, r2], "A", 2, "y");
      && d.result == Failure(KeyMissing("A"))
      && d.lines == ["1 x"] && d.rest == [r1, r2]
      && patched.Some?
      && DumpSpec(lookup, patched.value, None).result.Success?
      && d.lines + DumpSpec(lookup, patched.value, None).lines == ["1 x", "1 x", "2 y"]
  {
    var r2y := Record(2, map["A" := "y"]);
    FirstDumpFails(lookup, r1, r2);
    PatchedDumpWrites(lookup, r1, r2, r2y);
  }

  /** The first dump of FailedDumpRewrites stops at the record without "A". */
  lemma FirstDumpFails(lookup: seq<Option<string>>, r1: Record, r2: Record)
    requires lookup == [Some(TimeKey), Some("A")]
    requires r1 == Record(1, map["A" := "x"]) && r2 == Record(2, map[])
    ensures DumpSpec(lookup, [r1, r2], None) == Dump(["1 x"], [r1, r2], Failure(KeyMissing("A")))
  {
    TimeAndOneLine(1, "A", "x", "1");
    TimeAndOneMissing(2, "A");
    assert "1" + " " + "x" == "1 x";
    assert FlushCount([r1, r2], None) == 2;
    assert [r1, r2][..2] == [r1] + [r2];
    FormatBatchAppend(lookup, [r1], [r2]);
    FormatBatchOne(lookup, r1);
    FormatBatchOne(lookup, r2);
  }

  /** After "A" is set on the second record, the dump writes both records. */
  lemma PatchedDumpWrites(lookup: seq<Option<string>>, r1: Record, r2: Record, r2y: Record)
    requires lookup == [Some(TimeKey), Some("A")]
    requires r1 == Record(1, map["A" := "x"]) && r2 == Record(2, map[])
    requires r2y == Record(2, map["A" := "y"])
    ensures UpdateSpec([r1, r2], "A", 2, "y") == Some([r1, r2y])
    ensures DumpSpec(lookup, [r1, r2y], None) == Dump(["1 x", "2 y"], [], Success(2))
  {
    TimeAndOneLine(1, "A", "x", "1");
    TimeAndOneLine(2, "A", "y", "2");
    assert "1" + " " + "x" == "1 x" && "2" + " " + "y" == "2 y";
    assert FindTime([r1, r2], 2) == 1;
    assert r2.(fields := r2.fields["A" := "y"]) == r2y;
    assert [r1, r2][1 := r2y] == [r1, r2y];
    assert FlushCount([r1, r2y], None) == 2;
    assert [r1, r2y][..2] == [r1] + [r2y];
    FormatBatchAppend(lookup, [r1], [r2y]);
    FormatBatchOne(lookup, r1);
    FormatBatchOne(lookup, r2y);
  }

  /** The line of a record under a table of "Time" and one source `a`. */
  lemma TimeAndOneLine(t: int, a: string, v: string, text: string)
    requires a != "" && a != TimeKey && text == IntToString(t)
    ensures FormatEvent([Some(TimeKey), Some(a)], Record(t, map[a := v])) == Success(text + " " + v)
  {
    var lookup := [Some(TimeKey), Some(a)];
    var r := Record(t, map[a := v]);
    assert lookup[1..] == [Some(a)] && [Some(a)][1..] == [];
    assert Get(r, TimeKey) == Some(text) && Get(r, a) == Some(v);
    assert "" + text + " " == text + " ";
    assert FormatFrom(lookup, r, "") == FormatFrom([Some(a)], r, text + " ");
    assert FormatFrom([Some(a)], r, text + " ") == FormatFrom([], r, text + " " + v + " ");
    assert (text + " " + v + " ")[..|text + " " + v|] == text + " " + v;
  }

  /** A record without source `a` cannot be formatted under a table that holds it. */
  lemma TimeAndOneMissing(t: int, a: string)
    requires a != "" && a != TimeKey
    ensures FormatEvent([Some(TimeKey), Some(a)], Record(t, map[])) == Failure(a)
  {
    var lookup := [Some(TimeKey), Some(a)];
    var r := Record(t, map[]);
    assert lookup[1..] == [Some(a)];
    assert Get(r, a) == None;
    assert FormatFrom(lookup, r, "") == FormatFrom([Some(a)], r, "" + IntToString(t) + " ");
  }

  /**
   * `dump_events` made all-or-nothing: a dump that meets a faulty record
   * writes nothing and keeps the window.
   */
  function DumpAtomic(lookup: seq<Option<string>>, w: seq<Record>, horizon: Option<int>): (d: Dump)
    ensures |d.lines| <= |w|
  {
    var d := DumpSpec(lookup, w, horizon);
    if d.result.Failure? then Dump([], w, d.result) else d
  }

  /**
   * The all-or-nothing dump keeps every event accounted for exactly once and
   * the log in order, whether it succeeds or fails.
   */
  lemma DumpAtomicConserves(lookup: seq<Option<string>>, written: seq<Record>, w: seq<Record>, horizon: Option<int>, created: seq<int>)
    requires Sorted(w) && InOrder(written, w) && Conserved(written, w, created)
    ensures var d := DumpAtomic(lookup, w, horizon);
      && Conserved(written + w[..|d.lines|], d.rest, created)
      && InOrder(written + w[..|d.lines|], d.rest)
      && (d.result.Failure? ==> d.lines == [] && d.rest == w)
      && (d.result.Success? ==> d == DumpSpec(lookup, w, horizon))
  {
    var d := DumpAtomic(lookup, w, horizon);
    if d.result.Success? {
      DumpKeepsOrder(lookup, written, w, horizon);
      DumpConserves(lookup, written, w, horizon, created);
    } else {
      assert written + w[..0] == written;
    }
  }

  /**
   * `create_event` that refuses late events: an event older than the last
   * record written changes nothing (None); any other is created as usual.
   */
  function CreateChecked(lookup: seq<Option<string>>, written: seq<Record>, w: seq<Record>, snapshot: Record, cacheDuration: int): (d: Option<Dump>)
    ensures d.Some? <==> (written == [] || written[|written| - 1].time <= snapshot.time)
  {
    if written != [] && snapshot.time < written[|written| - 1].time then None
    else Some(CreateSpec(lookup, w, snapshot, cacheDuration))
  }

  /**
   * With late events refused, every successful `create_event` keeps the log
   * in time order, whatever the order in which events arrive.
   */
  lemma CreateCheckedInOrder(lookup: seq<Option<string>>, written: seq<Record>, w: seq<Record>, snapshot: Record, cacheDuration: int)
    requires Sorted(w) && InOrder(written, w)
    ensures var d := CreateChecked(lookup, written, w, snapshot, cacheDuration);
      d.Some? && d.value.result.Success? ==>
        InOrder(written + Insert(w, snapshot)[..|d.value.lines|], d.value.rest)
  {
    var d := CreateChecked(lookup, written, w, snapshot, cacheDuration);
    if d.Some? && d.value.result.Success? {
      CreateKeepsOrder(lookup, written, w, snapshot, cacheDuration);
    }
  }

  // ---------------------------------------------------------------------
  // The recorder object
  // ---------------------------------------------------------------------

  /**
   * `EventCollectRecorder`: the fields the program updates in place. The
   * output file is the sequence of lines written to it.
   */
  class EventCollectRecorder {
    var cacheDuration: int
    /** `event_map`: the latest value of every source, and "Time". */
    var template: Record
    /** `source_from_pos_lookup`: the source owning each output column. */
    var lookup: seq<Option<string>>
    /** `event_queue`: the records not yet written, sorted by time. */
    var window: seq<Record>
    /** The lines written to the output file. */
    var sink: seq<string>
    /** The records whose lines have been written, in the order written. */
    ghost var written: seq<Record>
    /** The times of the events created so far, in the order of the calls. */
    ghost var created: seq<int>

    ghost predicate Valid()
      reads this
    {
      WellFormed(Registry(lookup, template)) && Sorted(window)
    }

    /** The log written so far is in time order and behind the window. */
    ghost predicate Ordered()
      reads this
    {
      InOrder(written, window)
    }

    /** Every event created so far has been written or is held, exactly once. */
    ghost predicate Accounted()
      reads this
    {
      Conserved(written, window, created)
    }

    constructor (cacheDuration: int := DefaultCacheDuration)
      ensures Valid() && Ordered() && Accounted()
      ensures this.cacheDuration == cacheDuration
      ensures Registry(lookup, template) == InitialRegistry()
      ensures window == [] && sink == []
      ensures written == [] && created == []
    {
      this.cacheDuration := cacheDuration;
      template := Record(0, map[]);
      lookup := [Some(TimeKey)];
      window := [];
      sink := [];
      written := [];
      created := [];
    }

    /** `register_event_source(source, pos, default)`. */
    method RegisterEventSource(source: string, pos: nat, default: string) returns (r: Outcome<RegisterError>)
      requires Valid()
      modifies this`lookup, this`template
      ensures Valid()
      ensures (Registry(lookup, template), r) == Register(old(Registry(lookup, template)), source, pos, default)
    {
      RegisterWellFormed(Registry(lookup, template), source, pos, default);
      if pos + 1 > |lookup| {
        lookup := lookup + seq(pos + 1 - |lookup|, _ => None);
      }
      if Occupied(lookup[pos]) {
        return Fail(PositionTaken(pos, lookup[pos].value));
      }
      if source == TimeKey || source in template.fields {
        return Fail(SourceInUse(source));
      }
      lookup := lookup[pos := Some(source)];
      template := template.(fields := template.fields[source := default]);
      r := Pass;
    }

    /** `create_event(source, time, message)`. */
    method CreateEvent(source: string, time: int, message: string) returns (r: Result<nat, DumpError>)
      requires Valid()
      modifies this`template, this`window, this`sink, this`written, this`created
      ensures Valid()
      ensures template == Stamp(old(template), source, message, time)
      ensures Complete(lookup, template)
      ensures var d := CreateSpec(lookup, old(window), template, cacheDuration);
        && window == d.rest && sink == old(sink) + d.lines && r == d.result
        && written == old(written) + Insert(old(window), template)[..|d.lines|]
      ensures created == old(created) + [time]
      ensures r.Success? ==> NotBefore(window, time - cacheDuration)
      ensures r.Success? && old(Accounted()) ==> Accounted()
      ensures r.Success? && old(Ordered()) && (old(written) == [] || old(written)[|old(written)| - 1].time <= time) ==>
        Ordered()
    {
      ghost var before := window;
      ghost var log := written;
      ghost var events := created;
      Snapshot(source, time, message);
      var horizon := Some(time - cacheDuration);
      ghost var d := CreateSpec(lookup, before, template, cacheDuration);
      assert d == DumpSpec(lookup, window, horizon);
      r := DumpEvents(horizon);
      if r.Success? {
        CreateLog(lookup, log, before, template, cacheDuration, events);
      }
    }

    /**
     * The first half of `create_event`: record the event in the template and
     * insert a copy of the template into the window at its place in time.
     */
    method Snapshot(source: string, time: int, message: string)
      requires Valid()
      modifies this`template, this`window, this`created
      ensures Valid()
      ensures template == Stamp(old(template), source, message, time)
      ensures Complete(lookup, template)
      ensures window == Insert(old(window), template)
      ensures created == old(created) + [time]
    {
      created := created + [time];
      ghost var previous := template;
      if source != TimeKey {
        template := template.(fields := template.fields[source := message]);
      }
      template := template.(time := time);
      assert template == Stamp(previous, source, message, time);
      assert WellFormed(Registry(lookup, template)) && Complete(lookup, template) by {
        StampWellFormed(Registry(lookup, previous), source, message, time);
      }
      ghost var before := window;
      var num := 0;
      while num < |window| && !(time < window[num].time)
        invariant window == before
        invariant num <= |window|
        invariant forall k :: 0 <= k < num ==> window[k].time <= time
      {
        num := num + 1;
      }
      assert num == InsertIndex(before, time);
      window := window[..num] + [template] + window[num..];
      assert Sorted(window) by {
        InsertSorted(before, template);
      }
    }

    /** `update_event(source, time, message)`. */
    method UpdateEvent(source: string, time: int, message: string) returns (r: Outcome<UpdateError>)
      requires Valid()
      requires source != TimeKey
      modifies this`window
      ensures Valid()
      ensures match UpdateSpec(old(window), source, time, message)
        case None => r == Fail(TimeNotInQueue(source, time)) && window == old(window)
        case Some(w) => r == Pass && window == w
      ensures old(Ordered()) ==> Ordered()
      ensures old(Accounted()) ==> Accounted()
    {
      UpdateScoping(window, source, time, message);
      if UpdateSpec(window, source, time, message).Some? {
        UpdateKeepsLog(written, window, source, time, message, created);
      }
      ghost var before := window;
      assert UpdateSpec(before, source, time, message).Some? ==> Sorted(UpdateSpec(before, source, time, message).value);
      var i := 0;
      while i < |window|
        invariant window == before
        invariant i <= |window|
        invariant forall k :: 0 <= k < i ==> window[k].time != time
      {
        if time == window[i].time {
          assert FindTime(before, time) == i;
          window := window[i := window[i].(fields := window[i].fields[source := message])];
          assert window == UpdateSpec(before, source, time, message).value;
          return Pass;
        }
        i := i + 1;
      }
      r := Fail(TimeNotInQueue(source, time));
    }

    /** `dump_events(horizon)`; `None` writes everything. */
    method DumpEvents(horizon: Option<int>) returns (r: Result<nat, DumpError>)
      requires Valid()
      modifies this`window, this`sink, this`written
      ensures Valid()
      ensures var d := DumpSpec(lookup, old(window), horizon);
        && window == d.rest && sink == old(sink) + d.lines && r == d.result
        && written == old(written) + old(window)[..|d.lines|]
    {
      ghost var w := window;
      ghost var log := written;
      var num := 0;
      while num < |window| && Qualifies(window[num], horizon)
        invariant window == w
        invariant num <= |w|
        invariant forall k :: 0 <= k < num ==> Qualifies(w[k], horizon)
        invariant FormatBatch(lookup, w[..num]).missing.None?
        invariant sink == old(sink) + FormatBatch(lookup, w[..num]).lines
        invariant |FormatBatch(lookup, w[..num]).lines| == num
        invariant written == log
      {
        var text := FormatEvent(lookup, window[num]);
        if text.Failure? {
          DumpStopsAt(lookup, w, horizon, num);
          written := written + w[..num];
          return Failure(KeyMissing(text.error));
        }
        DumpWritesOne(lookup, w, num);
        sink := sink + [text.value];
        num := num + 1;
      }
      written := written + w[..num];
      DumpFinishes(lookup, w, horizon, num);
      if window == [] {
        // the program's loop leaves its counter one past an empty window
        num := 1;
      } else if num > 0 {
        assert Sorted(w[num..]) by {
          SortedSuffix(w, num);
        }
        window := window[num..];
      }
      r := Success(num);
    }

    /** The explicit form of the destructor: write everything that is left. */
    method Finalize() returns (r: Result<nat, DumpError>)
      requires Valid()
      modifies this`window, this`sink, this`written
      ensures Valid()
      ensures var d := DumpSpec(lookup, old(window), None);
        && window == d.rest && sink == old(sink) + d.lines && r == d.result
        && written == old(written) + old(window)[..|d.lines|]
      ensures r.Success? ==> window == [] && |sink| == |old(sink)| + |old(window)| && written == old(written) + old(window)
      ensures r.Success? && old(Ordered()) ==> Ordered()
      ensures r.Success? && old(Accounted()) ==> Accounted()
    {
      ghost var w := window;
      ghost var log := written;
      r := DumpEvents(None);
      if r.Success? {
        DumpAll(lookup, w);
        assert w[..|w|] == w;
        if InOrder(log, w) {
          DumpKeepsOrder(lookup, log, w, None);
        }
        if Conserved(log, w, created) {
          DumpConserves(lookup, log, w, None, created);
        }
      }
    }
  }

  /** One more record of the qualifying prefix is written. */
  lemma DumpWritesOne(lookup: seq<Option<string>>, w: seq<Record>, num: nat)
    requires num < |w|
    requires FormatBatch(lookup, w[..num]).missing.None?
    requires FormatEvent(lookup, w[num]).Success?
    ensures FormatBatch(lookup, w[..num + 1]) ==
      Batch(FormatBatch(lookup, w[..num]).lines + [FormatEvent(lookup, w[num]).value], None)
  {
    assert w[..num + 1] == w[..num] + [w[num]];
    FormatBatchAppend(lookup, w[..num], [w[num]]);
    FormatBatchOne(lookup, w[num]);
  }

  /** A qualifying record that cannot be formatted ends the dump with an error. */
  lemma DumpStopsAt(lookup: seq<Option<string>>, w: seq<Record>, horizon: Option<int>, num: nat)
    requires num < |w|
    requires forall k :: 0 <= k <= num ==> Qualifies(w[k], horizon)
    requires FormatBatch(lookup, w[..num]).missing.None?
    requires FormatEvent(lookup, w[num]).Failure?
    ensures DumpSpec(lookup, w, horizon) ==
      Dump(FormatBatch(lookup, w[..num]).lines, w, Failure(KeyMissing(FormatEvent(lookup, w[num]).error)))
  {
    assert w[..num + 1] == w[..num] + [w[num]];
    FormatBatchAppend(lookup, w[..num], [w[num]]);
    FormatBatchOne(lookup, w[num]);
    FlushPrefixExtends(lookup, w, horizon, num + 1);
  }

  /** The writing loop stops at the end of the qualifying prefix. */
  lemma DumpFinishes(lookup: seq<Option<string>>, w: seq<Record>, horizon: Option<int>, num: nat)
    requires num <= |w|
    requires forall k :: 0 <= k < num ==> Qualifies(w[k], horizon)
    requires num < |w| ==> !Qualifies(w[num], horizon)
    requires FormatBatch(lookup, w[..num]).missing.None?
    ensures num == FlushCount(w, horizon)
    ensures DumpSpec(lookup, w, horizon) ==
      Dump(FormatBatch(lookup, w[..num]).lines, w[num..], Success(if w == [] then 1 else num))
  {
  }

  /**
   * A failure met while writing the first `m` qualifying records is the
   * failure of the whole qualifying prefix.
   */
  lemma FlushPrefixExtends(lookup: seq<Option<string>>, w: seq<Record>, horizon: Option<int>, m: nat)
    requires m <= |w|
    requires forall k :: 0 <= k < m ==> Qualifies(w[k], horizon)
    requires FormatBatch(lookup, w[..m]).missing.Some?
    ensures m <= FlushCount(w, horizon)
    ensures FormatBatch(lookup, w[..FlushCount(w, horizon)]) == FormatBatch(lookup, w[..m])
  {
    var n := FlushCount(w, horizon);
    assert w[..n] == w[..m] + w[m..n];
    FormatBatchAppend(lookup, w[..m], w[m..n]);
  }
}
