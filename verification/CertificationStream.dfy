/**
  Observing one synthetic response stream, event by event.

  Main result: `PassesExactly`, the streams that pass, said without the fold.
 */
module CertificationStream {
  import opened Common

  const MAX_BYTES := 8 * 1024 * 1024
  const MARKER := "CERT_STREAM_OK"

  datatype Event =
    | TextDelta(text: string)
    | Completed(completed: bool)
    | OtherTerminal  // failed, incomplete or error
    | OtherEvent

  // What arrives: the bytes of a chunk, and then the frames that the chunk completes.
  datatype Arrival =
    | Bytes(count: nat)
    | Silent  // a frame without data, or the end marker
    | Malformed
    | Dispatched(event: Event)

  datatype Response = Response(status: nat, eventStream: bool, arrivals: seq<Arrival>)

  datatype Code = HttpRefusal | NotEventStream | StreamLimit | MalformedSse | InvalidStream | IncompleteStream

  datatype Observation = Observation(visible: string, bytes: nat, events: nat, textDeltas: nat, terminal: Option<Event>)

  const NOTHING := Observation("", 0, 0, 0, None)

  predicate IsTerminal(e: Event) {
    e.Completed? || e.OtherTerminal?
  }

  function Step(o: Observation, a: Arrival): Result<Observation, Code> {
    match a
    case Bytes(count) => if o.bytes + count > MAX_BYTES then Err(StreamLimit) else Ok(o.(bytes := o.bytes + count))
    case Silent => Ok(o)
    case Malformed => Err(MalformedSse)
    case Dispatched(e) =>
      if o.terminal.Some? then Err(InvalidStream)
      else if e.TextDelta? then Ok(o.(events := o.events + 1, textDeltas := o.textDeltas + 1, visible := o.visible + e.text))
      else Ok(o.(events := o.events + 1, terminal := if IsTerminal(e) then Some(e) else None))
  }

  function After(arrivals: seq<Arrival>, k: nat): Result<Observation, Code>
    requires k <= |arrivals|
  {
    if k == 0 then Ok(NOTHING)
    else match After(arrivals, k - 1)
      case Err(code) => Err(code)
      case Ok(o) => Step(o, arrivals[k - 1])
  }

  // `trim` removes white space at both ends.
  function Observed(trim: string -> string, r: Response): Result<Observation, Code> {
    if r.status != 200 then Err(HttpRefusal)
    else if !r.eventStream then Err(NotEventStream)
    else match After(r.arrivals, |r.arrivals|)
      case Err(code) => Err(code)
      case Ok(o) =>
        if o.textDeltas > 0 && o.terminal == Some(Completed(true)) && trim(o.visible) == MARKER then Ok(o) else Err(IncompleteStream)
  }

  lemma {:induction false} RefusalStays(arrivals: seq<Arrival>, k: nat, n: nat)
    requires k <= n <= |arrivals| && After(arrivals, k).Err?
    ensures After(arrivals, n) == After(arrivals, k)
    decreases n
  {
    if k < n {
      RefusalStays(arrivals, k, n - 1);
    }
  }

  method ObserveCertificationStream(trim: string -> string, response: Response) returns (r: Result<Observation, Code>)
    ensures r == Observed(trim, response)
  {
    if response.status != 200 { return Err(HttpRefusal); }
    if !response.eventStream { return Err(NotEventStream); }
    var visible, bytes: nat, events: nat, textDeltas: nat, terminal := "", 0, 0, 0, None;
    var arrivals := response.arrivals;
    for k := 0 to |arrivals|
      invariant After(arrivals, k) == Ok(Observation(visible, bytes, events, textDeltas, terminal))
    {
      var problem := None;
      match arrivals[k] {
        case Bytes(count) =>
          bytes := bytes + count;
          if bytes > MAX_BYTES { problem := Some(StreamLimit); }
        case Silent =>
        case Malformed =>
          problem := Some(MalformedSse);
        case Dispatched(e) =>
          events := events + 1;
          if terminal.Some? {
            problem := Some(InvalidStream);
          } else if e.TextDelta? {
            textDeltas, visible := textDeltas + 1, visible + e.text;
          } else if IsTerminal(e) {
            terminal := Some(e);
          }
      }
      if problem.Some? {
        assert After(arrivals, k + 1) == Err(problem.value);
        RefusalStays(arrivals, k + 1, |arrivals|);
        return Err(problem.value);
      }
    }
    if textDeltas == 0 || terminal != Some(Completed(true)) || trim(visible) != MARKER { return Err(IncompleteStream); }
    r := Ok(Observation(visible, bytes, events, textDeltas, terminal));
  }

  // ----- the streams that pass ---------------------------------------------------------------------

  function Total(arrivals: seq<Arrival>): nat {
    if arrivals == [] then 0
    else Total(arrivals[..|arrivals| - 1]) + (var last := arrivals[|arrivals| - 1]; if last.Bytes? then last.count else 0)
  }

  function Text(arrivals: seq<Arrival>): string {
    if arrivals == [] then ""
    else
      var last := arrivals[|arrivals| - 1];
      Text(arrivals[..|arrivals| - 1]) + if last.Dispatched? && last.event.TextDelta? then last.event.text else ""
  }

  predicate Ends(a: Arrival) {
    a.Dispatched? && IsTerminal(a.event)
  }

  // No frame is malformed and no event follows a terminal one.
  predicate Legal(arrivals: seq<Arrival>, i: nat)
    requires i < |arrivals|
  {
    arrivals[i] != Malformed && (arrivals[i].Dispatched? ==> forall j :: 0 <= j < i ==> !Ends(arrivals[j]))
  }

  predicate Speaks(a: Arrival) {
    a.Dispatched? && a.event.TextDelta?
  }

  ghost predicate Describes(arrivals: seq<Arrival>, k: nat, o: Observation)
    requires k <= |arrivals|
  {
    && o.bytes == Total(arrivals[..k]) && o.visible == Text(arrivals[..k])
    && (o.textDeltas > 0 <==> exists j :: 0 <= j < k && Speaks(arrivals[j]))
    && (o.terminal.None? <==> forall j :: 0 <= j < k ==> !Ends(arrivals[j]))
    && (o.terminal.Some? ==> exists j :: 0 <= j < k && Ends(arrivals[j]) && o.terminal == Some(arrivals[j].event))
  }

  lemma StepDescribes(arrivals: seq<Arrival>, k: nat, o: Observation)
    requires k < |arrivals| && Describes(arrivals, k, o)
    ensures Step(o, arrivals[k]).Ok? <==> Legal(arrivals, k) && (arrivals[k].Bytes? ==> Total(arrivals[..k + 1]) <= MAX_BYTES)
    ensures Step(o, arrivals[k]).Ok? ==> Describes(arrivals, k + 1, Step(o, arrivals[k]).value)
  {
    assert arrivals[..k + 1][..k] == arrivals[..k] && arrivals[..k + 1][k] == arrivals[k];
  }

  lemma {:induction false} TotalGrows(arrivals: seq<Arrival>, k: nat, n: nat)
    requires k <= n <= |arrivals|
    ensures Total(arrivals[..k]) <= Total(arrivals[..n])
  {
    if k < n {
      assert arrivals[..n][..n - 1] == arrivals[..n - 1];
      TotalGrows(arrivals, k, n - 1);
    }
  }

  lemma {:induction false} AfterDescribes(arrivals: seq<Arrival>, k: nat)
    requires k <= |arrivals|
    ensures After(arrivals, k).Ok? <==> Total(arrivals[..k]) <= MAX_BYTES && forall i :: 0 <= i < k ==> Legal(arrivals, i)
    ensures After(arrivals, k).Ok? ==> Describes(arrivals, k, After(arrivals, k).value)
  {
    hide Step, Legal;
    if k > 0 {
      AfterDescribes(arrivals, k - 1);
      TotalGrows(arrivals, k - 1, k);
      if After(arrivals, k - 1).Ok? {
        StepDescribes(arrivals, k - 1, After(arrivals, k - 1).value);
        assert arrivals[..k][..k - 1] == arrivals[..k - 1];
      }
    }
  }

  // A stream passes exactly if it is a bounded event stream without malformed frames, has
  // some text, ends its events with one completed response, and spells the marker.
  lemma PassesExactly(trim: string -> string, r: Response)
    ensures Observed(trim, r).Ok? <==>
              && r.status == 200 && r.eventStream && Total(r.arrivals) <= MAX_BYTES
              && (forall i :: 0 <= i < |r.arrivals| ==> Legal(r.arrivals, i))
              && (exists j :: 0 <= j < |r.arrivals| && Speaks(r.arrivals[j]))
              && (exists j :: 0 <= j < |r.arrivals| && r.arrivals[j] == Dispatched(Completed(true)))
              && trim(Text(r.arrivals)) == MARKER
  {
    hide Legal;
    var n := |r.arrivals|;
    AfterDescribes(r.arrivals, n);
    assert r.arrivals[..n] == r.arrivals;
    if (forall i :: 0 <= i < n ==> Legal(r.arrivals, i)) {
      OneEnd(r.arrivals);
    }
  }

  // Legal arrivals end at most once.
  lemma OneEnd(arrivals: seq<Arrival>)
    requires forall i :: 0 <= i < |arrivals| ==> Legal(arrivals, i)
    ensures forall i, j :: 0 <= i < |arrivals| && 0 <= j < |arrivals| && Ends(arrivals[i]) && Ends(arrivals[j]) ==> i == j
  {
    forall j | 0 <= j < |arrivals| && Ends(arrivals[j]) ensures forall i :: 0 <= i < j ==> !Ends(arrivals[i]) {
      assert Legal(arrivals, j);
    }
  }
}
