/**
  Reading the canonical source of a native compaction out of a rollout: a file of
  records, one a line, that the native app only appends to.

  Main results: which rollouts are accepted (`AcceptsExactly`), that the byte
  range reported is exactly the compaction's line (`BoundaryIsCompactionLine`),
  and that appending records changes nothing (`AppendStable`, `AcceptedPrefix`).
 */
module CanonicalSource {
  import opened Common
  import opened Utf8

  const MAX_SOURCE_BYTES := 64 * 1024 * 1024
  const MAX_READABLE_BYTES := 8 * 1024 * 1024

  type Data = string

  datatype HistoryItem =
    | Opaque(content: Option<string>, data: Data)  // a compaction item; None when the content is no string
    | Plain(data: Data)

  datatype NativeItem =
    | EarlierCompaction(data: Data)
    | CallLessOutput(attributed: bool, data: Data)
    | Unreadable(data: Data)  // reasoning, additional tools or a compaction trigger
    | Readable(data: Data)

  datatype Record =
    | SessionMeta(id: Option<string>, instructions: Option<string>)
    | Compacted(history: Option<seq<HistoryItem>>, responseId: Option<Data>)
    | ResponseItem(item: Option<NativeItem>)
    | WorldState(exact: bool)
    | TokenUsage(exact: bool, thread: string)
    | EventMessage
    | TurnContext
    | UnknownRecord

  datatype Row = Row(clock: Option<int>, record: Record)

  datatype Input = Instructions(text: string) | Item(item: NativeItem)

  // How a line is read (None: malformed or ambiguous JSON) and the serialized size of a source.
  datatype Format = Format(read: string -> Option<Row>, size: seq<Input> -> nat)

  // SHA-256 is idealized as injective.
  datatype Digest = OfBytes(bytes: Bytes) | OfHistory(history: seq<HistoryItem>)

  datatype Compaction = Compaction(
    opaqueItem: HistoryItem, responseId: Option<Data>, byteStart: nat, byteEnd: nat,
    record: Digest, sourcePrefix: Digest, replacement: Digest)

  datatype Canonical = Canonical(source: seq<Input>, compaction: Compaction)

  datatype Error =
    | IncompleteRollout | AmbiguousJson | AmbiguousChronology | NoUniqueInstructions
    | NotOneCompaction | NoUniqueOpaqueItem | InvalidItem | NoReadableLineage | UnattributedInput
    | UnknownWorldState | UnknownTokenUsage | UnknownKind | NoBoundary | SourceTooLarge

  // ----- what the reader does ----------------------------------------------------------

  function LineEnd(text: string): (n: nat)
    requires text != ""
    ensures 0 < n <= |text|
    ensures '\n' !in text[..n - 1]
    ensures n < |text| ==> text[n - 1] == '\n'
  {
    if text[0] == '\n' || |text| == 1 then 1 else 1 + LineEnd(text[1..])
  }

  // The text cut behind every line feed.
  function Lines(text: string): (r: seq<string>)
    ensures forall j :: 0 <= j < |r| ==> r[j] != "" && '\n' !in r[j][..|r[j]| - 1]
    ensures text != "" ==> r != []
  {
    if text == "" then [] else [text[..LineEnd(text)]] + Lines(text[LineEnd(text)..])
  }

  function Slice(bytes: Bytes, start: nat, end: nat): Bytes {
    if start <= end <= |bytes| then bytes[start..end] else []
  }

  datatype Scan = Scan(offset: nat, meta: bool, compacted: Option<Compaction>, priorClock: Option<int>, input: seq<Input>)

  const START := Scan(0, false, None, None, [])

  function OpaqueItems(history: seq<HistoryItem>): seq<HistoryItem> {
    if history == [] then []
    else (if history[0].Opaque? then [history[0]] else []) + OpaqueItems(history[1..])
  }

  predicate UniqueOpaque(history: seq<HistoryItem>) {
    var items := OpaqueItems(history);
    |items| == 1 && items[0].Opaque? && items[0].content.Some? && items[0].content.value != ""
  }

  // What is reported of a compaction record found between two offsets.
  function CompactionAt(bytes: Bytes, record: Record, start: nat, end: nat): Compaction
    requires record.Compacted? && record.history.Some? && UniqueOpaque(record.history.value)
  {
    Compaction(OpaqueItems(record.history.value)[0], record.responseId, start, end,
               OfBytes(Slice(bytes, start, end)), OfBytes(Slice(bytes, 0, start)), OfHistory(record.history.value))
  }

  function StepRecord(thread: string, bytes: Bytes, s: Scan, record: Record, start: nat): Result<Scan, Error> {
    match record
    case SessionMeta(id, instructions) =>
      if s.meta || start != 0 || id != Some(thread) || instructions.None? then Err(NoUniqueInstructions)
      else Ok(s.(meta := true, input := s.input + [Instructions(instructions.value)]))
    case Compacted(history, responseId) =>
      if !s.meta || s.compacted.Some? || history.None? then Err(NotOneCompaction)
      else if !UniqueOpaque(history.value) then Err(NoUniqueOpaqueItem)
      else Ok(s.(compacted := Some(CompactionAt(bytes, record, start, s.offset))))
    case ResponseItem(item) =>
      if !s.meta || item.None? then Err(InvalidItem)
      else if s.compacted.Some? then Ok(s)
      else if item.value.EarlierCompaction? then Err(NoReadableLineage)
      else if item.value.CallLessOutput? && !item.value.attributed then Err(UnattributedInput)
      else Ok(s.(input := s.input + [Item(item.value)]))
    case WorldState(exact) => if exact then Ok(s) else Err(UnknownWorldState)
    case TokenUsage(exact, owner) => if exact && owner == thread then Ok(s) else Err(UnknownTokenUsage)
    case EventMessage => Ok(s)
    case TurnContext => Ok(s)
    case UnknownRecord => Err(UnknownKind)
  }

  function Step(f: Format, thread: string, bytes: Bytes, s: Scan, line: string): Result<Scan, Error> {
    match f.read(line)
    case None => Err(AmbiguousJson)
    case Some(row) =>
      if row.clock.None? || (s.priorClock.Some? && row.clock.value < s.priorClock.value) then Err(AmbiguousChronology)
      else StepRecord(thread, bytes, s.(offset := s.offset + |Encode(line)|, priorClock := row.clock), row.record, s.offset)
  }

  // The state after the first `k` lines.
  function After(f: Format, thread: string, bytes: Bytes, lines: seq<string>, k: nat): Result<Scan, Error>
    requires k <= |lines|
  {
    if k == 0 then Ok(START)
    else match After(f, thread, bytes, lines, k - 1)
      case Err(error) => Err(error)
      case Ok(s) => Step(f, thread, bytes, s, lines[k - 1])
  }

  function ReadableInput(input: seq<Input>): seq<Input> {
    if input == [] then []
    else (if input[0].Item? && input[0].item.Unreadable? then [] else [input[0]]) + ReadableInput(input[1..])
  }

  function Finish(f: Format, s: Scan): Result<Canonical, Error> {
    if !s.meta || s.compacted.None? then Err(NoBoundary)
    else if f.size(ReadableInput(s.input)) > MAX_READABLE_BYTES then Err(SourceTooLarge)
    else Ok(Canonical(ReadableInput(s.input), s.compacted.value))
  }

  predicate Complete(bytes: Bytes) {
    Decode(bytes).Some? && |bytes| <= MAX_SOURCE_BYTES && bytes != [] && bytes[|bytes| - 1] == LINE_FEED
  }

  function LinesOf(bytes: Bytes): seq<string>
    requires Decode(bytes).Some?
  {
    Lines(Decode(bytes).value)
  }

  function CanonicalOf(f: Format, thread: string, bytes: Bytes): Result<Canonical, Error> {
    if !Complete(bytes) then Err(IncompleteRollout)
    else
      var lines := LinesOf(bytes);
      match After(f, thread, bytes, lines, |lines|)
      case Err(error) => Err(error)
      case Ok(s) => Finish(f, s)
  }

  lemma AfterNothing(f: Format, thread: string, bytes: Bytes, lines: seq<string>)
    ensures After(f, thread, bytes, lines, 0) == Ok(START)
  {
  }

  lemma AfterOneMore(f: Format, thread: string, bytes: Bytes, lines: seq<string>, k: nat, s: Scan)
    requires k < |lines| && After(f, thread, bytes, lines, k) == Ok(s)
    ensures After(f, thread, bytes, lines, k + 1) == Step(f, thread, bytes, s, lines[k])
  {
  }

  // A refused line ends the scan.
  lemma {:induction false} RefusalStays(f: Format, thread: string, bytes: Bytes, lines: seq<string>, k: nat, n: nat)
    requires k <= n <= |lines| && After(f, thread, bytes, lines, k).Err?
    ensures After(f, thread, bytes, lines, n) == After(f, thread, bytes, lines, k)
    decreases n
  {
    if k < n {
      RefusalStays(f, thread, bytes, lines, k, n - 1);
    }
  }

  method CanonicalNativeCompactionSource(f: Format, thread: string, bytes: Bytes) returns (r: Result<Canonical, Error>)
    ensures r == CanonicalOf(f, thread, bytes)
  {
    if !Complete(bytes) {
      return Err(IncompleteRollout);
    }
    hide Complete, LinesOf, Encode, Finish, StepRecord, After, Step;
    AfterNothing(f, thread, bytes, LinesOf(bytes));
    var offset: nat, meta, compacted, priorClock, input := 0, false, None, None, [];
    var lines := LinesOf(bytes);
    for k := 0 to |lines|
      invariant After(f, thread, bytes, lines, k) == Ok(Scan(offset, meta, compacted, priorClock, input))
    {
      AfterOneMore(f, thread, bytes, lines, k, Scan(offset, meta, compacted, priorClock, input));
      var problem;
      problem, offset, meta, compacted, priorClock, input :=
        ReadLine(f, thread, bytes, lines[k], offset, meta, compacted, priorClock, input);
      if problem.Some? {
        RefusalStays(f, thread, bytes, lines, k + 1, |lines|);
        return Err(problem.value);
      }
    }
    r := Finish(f, Scan(offset, meta, compacted, priorClock, input));
  }

  // One turn of the loop: reads the line that starts at `start`.
  method ReadLine(f: Format, thread: string, bytes: Bytes, line: string,
                  start: nat, meta0: bool, compacted0: Option<Compaction>, clock0: Option<int>, input0: seq<Input>)
    returns (problem: Option<Error>, offset: nat, meta: bool, compacted: Option<Compaction>, priorClock: Option<int>, input: seq<Input>)
    ensures Step(f, thread, bytes, Scan(start, meta0, compacted0, clock0, input0), line)
         == if problem.Some? then Err(problem.value) else Ok(Scan(offset, meta, compacted, priorClock, input))
  {
    hide Encode, StepRecord;
    offset, meta, compacted, priorClock, input := start + |Encode(line)|, meta0, compacted0, clock0, input0;
    var row := f.read(line);
    if row.None? {
      return Some(AmbiguousJson), offset, meta, compacted, priorClock, input;
    }
    var clock := row.value.clock;
    if clock.None? || (priorClock.Some? && clock.value < priorClock.value) {
      return Some(AmbiguousChronology), offset, meta, compacted, priorClock, input;
    }
    priorClock := clock;
    problem, meta, compacted, input := ReadRecord(thread, bytes, row.value.record, start, offset, meta, compacted, priorClock, input);
  }

  // What a record of each kind changes.
  method ReadRecord(thread: string, bytes: Bytes, record: Record, start: nat, offset: nat,
                    meta0: bool, compacted0: Option<Compaction>, priorClock: Option<int>, input0: seq<Input>)
    returns (problem: Option<Error>, meta: bool, compacted: Option<Compaction>, input: seq<Input>)
    ensures StepRecord(thread, bytes, Scan(offset, meta0, compacted0, priorClock, input0), record, start)
         == if problem.Some? then Err(problem.value) else Ok(Scan(offset, meta, compacted, priorClock, input))
  {
    hide UniqueOpaque, CompactionAt;
    problem, meta, compacted, input := None, meta0, compacted0, input0;
    match record {
      case SessionMeta(id, instructions) =>
        if meta || start != 0 || id != Some(thread) || instructions.None? {
          problem := Some(NoUniqueInstructions);
        } else {
          meta, input := true, input + [Instructions(instructions.value)];
        }
      case Compacted(history, responseId) =>
        if !meta || compacted.Some? || history.None? {
          problem := Some(NotOneCompaction);
        } else if !UniqueOpaque(history.value) {
          problem := Some(NoUniqueOpaqueItem);
        } else {
          compacted := Some(CompactionAt(bytes, record, start, offset));
        }
      case ResponseItem(item) =>
        if !meta || item.None? {
          problem := Some(InvalidItem);
        } else if compacted.None? {
          if item.value.EarlierCompaction? {
            problem := Some(NoReadableLineage);
          } else if item.value.CallLessOutput? && !item.value.attributed {
            problem := Some(UnattributedInput);
          } else {
            input := input + [Item(item.value)];
          }
        }
      case WorldState(exact) =>
        if !exact { problem := Some(UnknownWorldState); }
      case TokenUsage(exact, owner) =>
        if !exact || owner != thread { problem := Some(UnknownTokenUsage); }
      case EventMessage =>
      case TurnContext =>
      case UnknownRecord =>
        problem := Some(UnknownKind);
    }
  }

  // ----- what an accepted rollout looks like -------------------------------------------

  function RecordAt(f: Format, lines: seq<string>, j: nat): (r: Record)
    requires j < |lines|
  {
    match f.read(lines[j])
    case Some(row) => row.record
    case None => UnknownRecord
  }

  function ClockAt(f: Format, lines: seq<string>, j: nat): Option<int>
    requires j < |lines|
  {
    match f.read(lines[j])
    case Some(row) => row.clock
    case None => None
  }

  // Some line before the `k`-th is a compaction.
  predicate CompactedBefore(f: Format, lines: seq<string>, k: nat)
    requires k <= |lines|
  {
    exists i :: 0 <= i < k && RecordAt(f, lines, i).Compacted?
  }

  // The `j`-th record may stand where it stands.
  predicate Placed(f: Format, thread: string, lines: seq<string>, j: nat)
    requires j < |lines|
  {
    match RecordAt(f, lines, j)
    case SessionMeta(id, instructions) => j == 0 && id == Some(thread) && instructions.Some?
    case Compacted(history, _) =>
      && j > 0 && RecordAt(f, lines, 0).SessionMeta? && !CompactedBefore(f, lines, j)
      && history.Some? && UniqueOpaque(history.value)
    case ResponseItem(item) =>
      && j > 0 && RecordAt(f, lines, 0).SessionMeta? && item.Some?
      && (item.value.EarlierCompaction? || (item.value.CallLessOutput? && !item.value.attributed) ==> CompactedBefore(f, lines, j))
    case WorldState(exact) => exact
    case TokenUsage(exact, owner) => exact && owner == thread
    case EventMessage => true
    case TurnContext => true
    case UnknownRecord => false
  }

  // The `j`-th clock is a time, and not before the one above it.
  predicate InOrder(f: Format, lines: seq<string>, j: nat)
    requires j < |lines|
  {
    && ClockAt(f, lines, j).Some?
    && (j > 0 && ClockAt(f, lines, j - 1).Some? ==> ClockAt(f, lines, j - 1).value <= ClockAt(f, lines, j).value)
  }

  predicate Admitted(f: Format, thread: string, lines: seq<string>, j: nat)
    requires j < |lines|
  {
    InOrder(f, lines, j) && Placed(f, thread, lines, j)
  }

  // Where the `k`-th line starts.
  function Offset(lines: seq<string>, k: nat): nat
    requires k <= |lines|
  {
    if k == 0 then 0 else Offset(lines, k - 1) + |Encode(lines[k - 1])|
  }

  // The first compaction before the `k`-th line.
  function CompactionIndex(f: Format, lines: seq<string>, k: nat): (r: Option<nat>)
    requires k <= |lines|
    ensures r.Some? ==> r.value < k && RecordAt(f, lines, r.value).Compacted?
    ensures r.Some? ==> !CompactedBefore(f, lines, r.value)
    ensures r.Some? <==> CompactedBefore(f, lines, k)
  {
    if k == 0 then None
    else match CompactionIndex(f, lines, k - 1)
      case Some(i) => Some(i)
      case None => if RecordAt(f, lines, k - 1).Compacted? then Some(k - 1) else None
  }

  function InputOf(record: Record): seq<Input> {
    match record
    case SessionMeta(_, Some(text)) => [Instructions(text)]
    case ResponseItem(Some(item)) => [Item(item)]
    case _ => []
  }

  // The inputs that the first `k` lines carry.
  function InputsBefore(f: Format, lines: seq<string>, k: nat): seq<Input>
    requires k <= |lines|
  {
    if k == 0 then [] else InputsBefore(f, lines, k - 1) + InputOf(RecordAt(f, lines, k - 1))
  }

  predicate NonEmptyLines(lines: seq<string>) {
    forall j :: 0 <= j < |lines| ==> lines[j] != ""
  }

  // What the scan knows after `k` lines, said without running it.
  ghost predicate Tracks(f: Format, bytes: Bytes, lines: seq<string>, k: nat, s: Scan)
    requires k <= |lines|
  {
    && s.offset == Offset(lines, k)
    && (s.meta <==> k > 0 && RecordAt(f, lines, 0).SessionMeta?)
    && s.priorClock == (if k == 0 then None else ClockAt(f, lines, k - 1))
    && (k > 0 ==> s.priorClock.Some?)
    && match CompactionIndex(f, lines, k)
       case None => s.compacted.None? && s.input == InputsBefore(f, lines, k)
       case Some(i) =>
         && IsBoundary(f, bytes, lines, i, s.compacted)
         && s.input == InputsBefore(f, lines, i)
  }

  ghost predicate IsBoundary(f: Format, bytes: Bytes, lines: seq<string>, i: nat, compacted: Option<Compaction>)
    requires i < |lines|
  {
    var record := RecordAt(f, lines, i);
    && record.Compacted? && record.history.Some? && UniqueOpaque(record.history.value)
    && compacted == Some(CompactionAt(bytes, record, Offset(lines, i), Offset(lines, i + 1)))
  }

  lemma {:induction false} OffsetsGrow(lines: seq<string>, i: nat, k: nat)
    requires i <= k <= |lines| && NonEmptyLines(lines)
    ensures Offset(lines, i) + (k - i) <= Offset(lines, k)
  {
    hide Encode;
    if i < k {
      OffsetsGrow(lines, i, k - 1);
    }
  }

  lemma NothingTracked(f: Format, bytes: Bytes, lines: seq<string>)
    ensures Tracks(f, bytes, lines, 0, START)
  {
  }

  lemma StepAdmits(f: Format, thread: string, bytes: Bytes, lines: seq<string>, k: nat, s: Scan)
    requires k < |lines| && NonEmptyLines(lines) && Tracks(f, bytes, lines, k, s)
    ensures Step(f, thread, bytes, s, lines[k]).Ok? <==> Admitted(f, thread, lines, k)
  {
    hide Encode, UniqueOpaque, CompactionAt, InputsBefore, CompactionIndex, CompactedBefore;
    OffsetsGrow(lines, 0, k);
  }

  lemma StepTracks(f: Format, thread: string, bytes: Bytes, lines: seq<string>, k: nat, s: Scan)
    requires k < |lines| && NonEmptyLines(lines) && Tracks(f, bytes, lines, k, s)
    requires Step(f, thread, bytes, s, lines[k]).Ok?
    ensures Tracks(f, bytes, lines, k + 1, Step(f, thread, bytes, s, lines[k]).value)
  {
    hide Encode, UniqueOpaque, CompactionAt, CompactedBefore;
    OffsetsGrow(lines, 0, k);
  }

  lemma {:induction false} AfterTracks(f: Format, thread: string, bytes: Bytes, lines: seq<string>, k: nat)
    requires k <= |lines| && NonEmptyLines(lines)
    ensures After(f, thread, bytes, lines, k).Ok? <==> forall j :: 0 <= j < k ==> Admitted(f, thread, lines, j)
    ensures var s := After(f, thread, bytes, lines, k); s.Ok? ==> Tracks(f, bytes, lines, k, s.value)
  {
    hide Step, Admitted, Tracks;
    if k == 0 {
      NothingTracked(f, bytes, lines);
    } else {
      AfterTracks(f, thread, bytes, lines, k - 1);
      var prior := After(f, thread, bytes, lines, k - 1);
      if prior.Ok? {
        StepAdmits(f, thread, bytes, lines, k - 1, prior.value);
        if After(f, thread, bytes, lines, k).Ok? {
          StepTracks(f, thread, bytes, lines, k - 1, prior.value);
        }
      }
    }
  }

  ghost predicate WellFormed(f: Format, thread: string, bytes: Bytes) {
    && Complete(bytes)
    && var lines := LinesOf(bytes);
    && (forall j :: 0 <= j < |lines| ==> Admitted(f, thread, lines, j))
    && CompactedBefore(f, lines, |lines|)
    && f.size(ReadableInput(InputsBefore(f, lines, CompactionIndex(f, lines, |lines|).value))) <= MAX_READABLE_BYTES
  }

  // An accepted rollout: its compaction line and what is reported of it.
  lemma Accepted(f: Format, thread: string, bytes: Bytes) returns (i: nat)
    requires CanonicalOf(f, thread, bytes).Ok?
    ensures var r, lines := CanonicalOf(f, thread, bytes).value, LinesOf(bytes);
            && 0 < i < |lines| && CompactionIndex(f, lines, |lines|) == Some(i) && RecordAt(f, lines, 0).SessionMeta?
            && IsBoundary(f, bytes, lines, i, Some(r.compaction))
            && r.source == ReadableInput(InputsBefore(f, lines, i))
            && f.size(r.source) <= MAX_READABLE_BYTES
            && forall j :: 0 <= j < |lines| ==> Admitted(f, thread, lines, j)
  {
    hide Lines, InputsBefore, UniqueOpaque, CompactionAt, CompactionIndex, ReadableInput, CompactedBefore;
    var lines := LinesOf(bytes);
    AfterTracks(f, thread, bytes, lines, |lines|);
    i := CompactionIndex(f, lines, |lines|).value;
    assert Admitted(f, thread, lines, i);
  }

  // A rollout is accepted exactly when it is well formed, line by line.
  lemma AcceptsExactly(f: Format, thread: string, bytes: Bytes)
    ensures CanonicalOf(f, thread, bytes).Ok? <==> WellFormed(f, thread, bytes)
  {
    hide Lines, InputsBefore, UniqueOpaque, CompactionAt, ReadableInput, CompactedBefore;
    if CanonicalOf(f, thread, bytes).Ok? {
      var _ := Accepted(f, thread, bytes);
    }
    if WellFormed(f, thread, bytes) {
      var lines := LinesOf(bytes);
      AfterTracks(f, thread, bytes, lines, |lines|);
      var i := CompactionIndex(f, lines, |lines|).value;
      assert Admitted(f, thread, lines, i);
    }
  }

  // ----- where the boundary lies --------------------------------------------------------

  function Flat(lines: seq<string>): string {
    if lines == [] then "" else lines[0] + Flat(lines[1..])
  }

  lemma {:induction false} FlatAppend(a: seq<string>, b: seq<string>)
    ensures Flat(a + b) == Flat(a) + Flat(b)
  {
    if a == [] {
      assert a + b == b;
    } else {
      assert (a + b)[1..] == a[1..] + b;
      FlatAppend(a[1..], b);
    }
  }

  lemma {:induction false} FlatLines(text: string)
    ensures Flat(Lines(text)) == text
    decreases |text|
  {
    hide LineEnd;
    if text != "" {
      var n := LineEnd(text);
      FlatLines(text[n..]);
      assert Lines(text)[1..] == Lines(text[n..]);
    }
  }

  lemma NothingEncoded()
    ensures Encode(Flat([])) == []
  {
  }

  lemma {:induction false} OffsetIsLength(lines: seq<string>, k: nat)
    requires k <= |lines|
    ensures |Encode(Flat(lines[..k]))| == Offset(lines, k)
  {
    hide Encode, Flat;
    if k == 0 {
      assert lines[..0] == [];
      NothingEncoded();
    } else {
      OffsetIsLength(lines, k - 1);
      assert lines[..k] == lines[..k - 1] + [lines[k - 1]];
      FlatAppend(lines[..k - 1], [lines[k - 1]]);
      FlatOne(lines[k - 1]);
      EncodeAppend(Flat(lines[..k - 1]), lines[k - 1]);
    }
  }

  lemma FlatOne(line: string)
    ensures Flat([line]) == line
  {
  }

  // A line occupies the bytes between its offset and the next.
  lemma LineAtOffset(bytes: Bytes, lines: seq<string>, i: nat)
    requires i < |lines| && bytes == Encode(Flat(lines))
    ensures Offset(lines, i) <= Offset(lines, i + 1) <= |bytes|
    ensures bytes[Offset(lines, i)..Offset(lines, i + 1)] == Encode(lines[i])
    ensures bytes[..Offset(lines, i)] == Encode(Flat(lines[..i]))
  {
    hide Encode, Flat;
    OffsetIsLength(lines, i);
    var front, back := lines[..i], lines[i + 1..];
    assert lines == front + ([lines[i]] + back);
    FlatAppend(front, [lines[i]] + back);
    FlatAppend([lines[i]], back);
    FlatOne(lines[i]);
    EncodeAppend(Flat(front), Flat([lines[i]] + back));
    EncodeAppend(lines[i], Flat(back));
  }

  lemma {:induction false} LinesEnd(text: string, j: nat)
    requires text != "" && text[|text| - 1] == '\n' && j < |Lines(text)|
    ensures var line := Lines(text)[j]; line != "" && line[|line| - 1] == '\n'
    decreases |text|
  {
    hide LineEnd;
    var n := LineEnd(text);
    if j > 0 {
      LinesEnd(text[n..], j - 1);
    }
  }

  // The bytes from `start` to `end` are one line of the rollout, line feed included.
  ghost predicate IsLine(bytes: Bytes, start: nat, end: nat) {
    && start < end <= |bytes|
    && Decode(bytes[start..end]).Some? && Decode(bytes[..start]).Some?
    && var line := Decode(bytes[start..end]).value;
    && line != "" && line[|line| - 1] == '\n' && '\n' !in line[..|line| - 1]
  }

  lemma LineIsLine(bytes: Bytes, i: nat)
    requires Complete(bytes) && i < |LinesOf(bytes)|
    ensures IsLine(bytes, Offset(LinesOf(bytes), i), Offset(LinesOf(bytes), i + 1))
    ensures Decode(bytes[Offset(LinesOf(bytes), i)..Offset(LinesOf(bytes), i + 1)]) == Some(LinesOf(bytes)[i])
  {
    hide Encode, EncodeChar, First, LineEnd, Offset, Decode, Flat, Lines;
    var text := Decode(bytes).value;
    var lines := Lines(text);
    FlatLines(text);
    LineAtOffset(bytes, lines, i);
    DecodeEncode(lines[i]);
    DecodeEncode(Flat(lines[..i]));
    assert bytes + [] == bytes;
    DecodeSplit(bytes, []);
    LinesEnd(text, i);
    OffsetsGrow(lines, i, i + 1);
  }

  ghost predicate Reports(f: Format, bytes: Bytes, r: Canonical, i: nat)
    requires Decode(bytes).Some?
  {
    var lines, start, end := LinesOf(bytes), r.compaction.byteStart, r.compaction.byteEnd;
    && i < |lines| && RecordAt(f, lines, i).Compacted?
    && IsLine(bytes, start, end) && Decode(bytes[start..end]) == Some(lines[i])
    && r.compaction.record == OfBytes(bytes[start..end])
    && r.compaction.sourcePrefix == OfBytes(bytes[..start])
    && r.source == ReadableInput(InputsBefore(f, lines, i))
  }

  // The reported range is the compaction's line, the only one; the prefix digest
  // covers all bytes before it, and the source holds the readable inputs before it.
  lemma BoundaryIsCompactionLine(f: Format, thread: string, bytes: Bytes)
    requires CanonicalOf(f, thread, bytes).Ok?
    ensures var lines := LinesOf(bytes);
            exists i ::
              && 0 < i && Reports(f, bytes, CanonicalOf(f, thread, bytes).value, i)
              && (forall j :: 0 <= j < |lines| && RecordAt(f, lines, j).Compacted? ==> j == i)
  {
    hide Lines, InputsBefore, UniqueOpaque, Offset, ReadableInput, Decode, CanonicalOf, CompactionIndex, IsLine;
    Encoded(f, thread, bytes);
    var i := Accepted(f, thread, bytes);
    var lines := LinesOf(bytes);
    LineIsLine(bytes, i);
    LineAtOffset(bytes, lines, i);
    assert Reports(f, bytes, CanonicalOf(f, thread, bytes).value, i);
    forall j | 0 <= j < |lines| && RecordAt(f, lines, j).Compacted? ensures j == i {
      assert Admitted(f, thread, lines, j) && Admitted(f, thread, lines, i);
    }
  }

  lemma Encoded(f: Format, thread: string, bytes: Bytes)
    requires CanonicalOf(f, thread, bytes).Ok?
    ensures Complete(bytes) && bytes == Encode(Flat(LinesOf(bytes)))
  {
    FlatLines(Decode(bytes).value);
  }

  // ----- appending ----------------------------------------------------------------------

  lemma {:induction false} LinesAppend(a: string, b: string)
    requires a != "" && a[|a| - 1] == '\n'
    ensures Lines(a + b) == Lines(a) + Lines(b)
    decreases |a|
  {
    hide LineEnd;
    var n := LineEnd(a);
    LineEndAppend(a, b);
    assert (a + b)[n..] == a[n..] + b;
    if n < |a| {
      LinesAppend(a[n..], b);
    } else {
      assert a[n..] + b == b && Lines(a[n..]) == [];
    }
  }

  lemma {:induction false} LineEndAppend(a: string, b: string)
    requires a != "" && a[|a| - 1] == '\n'
    ensures LineEnd(a + b) == LineEnd(a)
    ensures (a + b)[..LineEnd(a)] == a[..LineEnd(a)]
  {
    if a[0] != '\n' && |a| > 1 {
      assert (a + b)[1..] == a[1..] + b;
      LineEndAppend(a[1..], b);
    }
  }

  lemma LinesOfExtension(front: Bytes, back: Bytes)
    requires front != [] && front[|front| - 1] == LINE_FEED && Decode(front + back).Some?
    ensures Decode(front).Some? && Decode(back).Some?
    ensures LinesOf(front + back) == LinesOf(front) + LinesOf(back)
    ensures Offset(LinesOf(front), |LinesOf(front)|) == |front|
  {
    hide Encode, EncodeChar, First, Decode, Lines, Flat, Offset;
    DecodeSplit(front, back);
    LinesAppend(Decode(front).value, Decode(back).value);
    var lines := LinesOf(front);
    FlatLines(Decode(front).value);
    OffsetIsLength(lines, |lines|);
    assert lines[..|lines|] == lines;
  }

  lemma StepOnPrefix(f: Format, thread: string, front: Bytes, back: Bytes, s: Scan, line: string)
    requires s.offset + |Encode(line)| <= |front|
    ensures Step(f, thread, front + back, s, line) == Step(f, thread, front, s, line)
  {
    hide Encode, UniqueOpaque;
    var start, end := s.offset, s.offset + |Encode(line)|;
    assert Slice(front + back, start, end) == Slice(front, start, end);
    assert Slice(front + back, 0, start) == Slice(front, 0, start);
  }

  lemma {:induction false} AfterOnPrefix(f: Format, thread: string, front: Bytes, back: Bytes, lines: seq<string>, more: seq<string>, k: nat)
    requires NonEmptyLines(lines) && Offset(lines, |lines|) <= |front| && k <= |lines|
    ensures After(f, thread, front + back, lines + more, k) == After(f, thread, front, lines, k)
  {
    hide Encode, Step;
    if k > 0 {
      AfterOnPrefix(f, thread, front, back, lines, more, k - 1);
      var prior := After(f, thread, front, lines, k - 1);
      if prior.Ok? {
        AfterTracks(f, thread, front, lines, k - 1);
        OffsetsGrow(lines, k, |lines|);
        StepOnPrefix(f, thread, front, back, prior.value, lines[k - 1]);
      }
    }
  }

  lemma {:induction false} IndexStays(f: Format, lines: seq<string>, k: nat, n: nat)
    requires k <= n <= |lines|
    ensures CompactionIndex(f, lines, k).Some? ==> CompactionIndex(f, lines, n) == CompactionIndex(f, lines, k)
    ensures CompactionIndex(f, lines, k).None? && CompactionIndex(f, lines, n).Some? ==> CompactionIndex(f, lines, n).value >= k
    decreases n
  {
    hide CompactedBefore;
    if k < n {
      IndexStays(f, lines, k, n - 1);
    }
  }

  // The state in which an accepted rollout's prefix leaves the scan.
  lemma AfterFront(f: Format, thread: string, front: Bytes, back: Bytes) returns (s: Scan)
    requires front != [] && front[|front| - 1] == LINE_FEED && CanonicalOf(f, thread, front + back).Ok?
    ensures Decode(front).Some? && Complete(front) && s.offset == |front|
    ensures CanonicalOf(f, thread, front) == Finish(f, s)
    ensures |LinesOf(front)| <= |LinesOf(front + back)|
    ensures Tracks(f, front + back, LinesOf(front + back), |LinesOf(front)|, s)
  {
    hide Encode, Decode, Lines, Step, Finish, Tracks, Offset;
    var all := front + back;
    LinesOfExtension(front, back);
    var lines, more := LinesOf(front), LinesOf(back);
    var n := |lines|;
    AllNonEmpty(Decode(front).value);
    AllNonEmpty(Decode(all).value);
    AfterOnPrefix(f, thread, front, back, lines, more, n);
    AfterTracks(f, thread, all, lines + more, |lines + more|);
    AfterTracks(f, thread, all, lines + more, n);
    AfterTracks(f, thread, front, lines, n);
    s := After(f, thread, front, lines, n).value;
    TracksOffset(f, front, lines, n, s);
  }

  lemma AllNonEmpty(text: string)
    ensures NonEmptyLines(Lines(text))
  {
  }

  lemma TracksOffset(f: Format, bytes: Bytes, lines: seq<string>, k: nat, s: Scan)
    requires k <= |lines| && Tracks(f, bytes, lines, k, s)
    ensures s.offset == Offset(lines, k)
  {
  }

  lemma FinishOnPrefix(f: Format, bytes: Bytes, lines: seq<string>, n: nat, i: nat, s: Scan, r: Canonical)
    requires n <= |lines| && 0 < i < |lines| && NonEmptyLines(lines)
    requires CompactionIndex(f, lines, |lines|) == Some(i) && RecordAt(f, lines, 0).SessionMeta?
    requires IsBoundary(f, bytes, lines, i, Some(r.compaction))
    requires r.source == ReadableInput(InputsBefore(f, lines, i)) && f.size(r.source) <= MAX_READABLE_BYTES
    requires Tracks(f, bytes, lines, n, s)
    ensures Finish(f, s) == if r.compaction.byteEnd <= s.offset then Ok(r) else Err(NoBoundary)
  {
    hide InputsBefore, UniqueOpaque, CompactionIndex, ReadableInput, Offset, CompactedBefore;
    IndexStays(f, lines, n, |lines|);
    if i < n {
      OffsetsGrow(lines, i + 1, n);
    } else {
      OffsetsGrow(lines, n, i + 1);
    }
  }

  // When a rollout is accepted, a prefix of it that ends with a line is accepted
  // exactly if it holds the compaction, and then with the same result.
  lemma AcceptedPrefix(f: Format, thread: string, front: Bytes, back: Bytes)
    requires front != [] && front[|front| - 1] == LINE_FEED && CanonicalOf(f, thread, front + back).Ok?
    ensures var whole := CanonicalOf(f, thread, front + back);
            CanonicalOf(f, thread, front) == if whole.value.compaction.byteEnd <= |front| then whole else Err(NoBoundary)
  {
    hide CanonicalOf, LinesOf, Admitted, InputsBefore, UniqueOpaque, CompactionIndex, ReadableInput, Complete, Finish, Tracks, IsBoundary;
    var all := front + back;
    Encoded(f, thread, all);
    var i := Accepted(f, thread, all);
    var s := AfterFront(f, thread, front, back);
    LinesNonEmpty(all);
    FinishOnPrefix(f, all, LinesOf(all), |LinesOf(front)|, i, s, CanonicalOf(f, thread, all).value);
  }

  lemma LinesNonEmpty(bytes: Bytes)
    requires Complete(bytes)
    ensures Decode(bytes).Some? && NonEmptyLines(LinesOf(bytes))
  {
    AllNonEmpty(Decode(bytes).value);
  }

  // Append stability: records the native app appends later change nothing.
  lemma AppendStable(f: Format, thread: string, bytes: Bytes, appended: Bytes)
    requires CanonicalOf(f, thread, bytes).Ok? && CanonicalOf(f, thread, bytes + appended).Ok?
    ensures CanonicalOf(f, thread, bytes + appended) == CanonicalOf(f, thread, bytes)
  {
    Encoded(f, thread, bytes);
    AcceptedPrefix(f, thread, bytes, appended);
  }
}
