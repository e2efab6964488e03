/** The line splitter every byte transport shares, and the event stream that goes through it. */
module LineFraming {
  import opened Text
  import opened Utf8
  import opened Json
  import Events
  import OperatorEvents

  function TrimReturns(s: string): string {
    if s != "" && s[|s| - 1] == '\r' then TrimReturns(s[..|s| - 1]) else s
  }

  /** The line a terminated run of bytes yields: none when it is not UTF-8, or empty once trimmed. */
  function LineOf(bs: seq<byte>): seq<string> {
    match Decode(bs)
    case None => []
    case Some(t) => if TrimReturns(t) == "" then [] else [TrimReturns(t)]
  }

  /** A stream cut at its newlines: the terminated runs, and the bytes after the last newline. */
  datatype Cut = Cut(runs: seq<seq<byte>>, rest: seq<byte>)

  const NOTHING := Cut([], [])

  function Step(c: Cut, b: byte): Cut {
    if b == NEWLINE then Cut(c.runs + [c.rest], []) else Cut(c.runs, c.rest + [b])
  }

  function Scan(c: Cut, bs: seq<byte>): Cut
    decreases |bs|
  {
    if bs == [] then c else Scan(Step(c, bs[0]), bs[1..])
  }

  lemma {:induction false} ScanAppend(c: Cut, a: seq<byte>, b: seq<byte>)
    ensures Scan(c, a + b) == Scan(Scan(c, a), b)
    decreases |a|
  {
    if a == [] {
      assert a + b == b;
    } else {
      assert (a + b)[1..] == a[1..] + b;
      ScanAppend(Step(c, a[0]), a[1..], b);
    }
  }

  lemma ScanSnoc(c: Cut, a: seq<byte>, b: byte)
    ensures Scan(c, a + [b]) == Step(Scan(c, a), b)
  {
    ScanAppend(c, a, [b]);
  }

  /** The runs already cut do not influence the rest. */
  lemma {:induction false} ScanFrame(runs: seq<seq<byte>>, rest: seq<byte>, bs: seq<byte>)
    ensures Scan(Cut(runs, rest), bs) == Cut(runs + Scan(Cut([], rest), bs).runs, Scan(Cut([], rest), bs).rest)
    decreases |bs|
  {
    if bs == [] {
      assert runs + [] == runs;
    } else if bs[0] == NEWLINE {
      ScanFrame(runs + [rest], [], bs[1..]);
      ScanFrame([rest], [], bs[1..]);
      assert [] + [rest] == [rest];
      var more := Scan(Cut([], []), bs[1..]).runs;
      assert runs + [rest] + more == runs + ([rest] + more);
    } else {
      ScanFrame(runs, rest + [bs[0]], bs[1..]);
    }
  }

  lemma {:induction false} ScanPlain(c: Cut, p: seq<byte>)
    requires NEWLINE !in p
    ensures Scan(c, p) == Cut(c.runs, c.rest + p)
    decreases |p|
  {
    if p == [] {
      assert c.rest + p == c.rest;
    } else {
      ScanPlain(Step(c, p[0]), p[1..]);
      assert c.rest + [p[0]] + p[1..] == c.rest + p;
    }
  }

  lemma {:induction false} RestHasNoNewline(c: Cut, bs: seq<byte>)
    requires NEWLINE !in c.rest
    ensures NEWLINE !in Scan(c, bs).rest
    decreases |bs|
  {
    if bs != [] {
      RestHasNoNewline(Step(c, bs[0]), bs[1..]);
    }
  }

  function Remainder(bs: seq<byte>): (r: seq<byte>)
    ensures NEWLINE !in r
  {
    RestHasNoNewline(NOTHING, bs);
    Scan(NOTHING, bs).rest
  }

  function Render(runs: seq<seq<byte>>): seq<string> {
    if runs == [] then [] else LineOf(runs[0]) + Render(runs[1..])
  }

  /** The lines of a byte stream. */
  function Lines(bs: seq<byte>): seq<string> {
    Render(Scan(NOTHING, bs).runs)
  }

  lemma {:induction false} RenderAppend(a: seq<seq<byte>>, b: seq<seq<byte>>)
    ensures Render(a + b) == Render(a) + Render(b)
  {
    if a == [] {
      assert a + b == b;
    } else {
      RenderAppend(a[1..], b);
      assert (a + b)[1..] == a[1..] + b;
      Reassociate(LineOf(a[0]), Render(a[1..]), Render(b));
    }
  }

  lemma RenderSnoc(a: seq<seq<byte>>, p: seq<byte>)
    ensures Render(a + [p]) == Render(a) + LineOf(p)
  {
    RenderAppend(a, [p]);
    assert [p][1..] == [];
  }

  class LineBuffer {
    var buffer: seq<byte>

    constructor ()
      ensures buffer == []
    {
      buffer := [];
    }

    method Append(chunk: seq<byte>)
      modifies this
      ensures buffer == old(buffer) + chunk
    {
      buffer := buffer + chunk;
    }

    /** `drain_lines` */
    method DrainLines() returns (lines: seq<string>)
      modifies this
      ensures lines == Lines(old(buffer))
      ensures buffer == Remainder(old(buffer))
    {
      lines := [];
      var start, consumed := 0, 0;
      ghost var runs := [];
      for i := 0 to |buffer|
        invariant buffer == old(buffer)
        invariant start == consumed <= i
        invariant lines == Render(runs)
        invariant Scan(NOTHING, buffer[..i]) == Cut(runs, buffer[start..i])
      {
        ScanSnoc(NOTHING, buffer[..i], buffer[i]);
        assert buffer[..i + 1] == buffer[..i] + [buffer[i]];
        if buffer[i] == NEWLINE {
          ghost var run := buffer[start..i];
          RenderSnoc(runs, run);
          runs := runs + [run];
          lines := lines + LineOf(buffer[start..i]);
          start := i + 1;
          consumed := start;
        } else {
          assert buffer[start..i + 1] == buffer[start..i] + [buffer[i]];
        }
      }
      assert buffer[..|buffer|] == buffer;
      if consumed > 0 {
        buffer := buffer[consumed..];
      }
    }
  }

  // ── Chunking ───────────────────────────────────────────────────────────────

  /** Appending bytes later changes nothing about the lines already drained. */
  lemma LinesAppend(a: seq<byte>, b: seq<byte>)
    ensures Lines(a + b) == Lines(a) + Lines(Remainder(a) + b)
    ensures Remainder(a + b) == Remainder(Remainder(a) + b)
  {
    var Cut(runs, rest) := Scan(NOTHING, a);
    ScanAppend(NOTHING, a, b);
    ScanFrame(runs, rest, b);
    ScanAppend(NOTHING, Remainder(a), b);
    ScanPlain(NOTHING, Remainder(a));
    assert [] + rest == rest;
    RenderAppend(runs, Scan(Cut([], rest), b).runs);
  }

  lemma LinesNone(p: seq<byte>)
    requires NEWLINE !in p
    ensures Lines(p) == [] && Remainder(p) == p
  {
    ScanPlain(NOTHING, p);
    assert [] + p == p;
  }

  /** Cutting off a first line. */
  lemma LinesCons(p: seq<byte>, t: seq<byte>)
    requires NEWLINE !in p
    ensures Lines(p + ([NEWLINE] + t)) == LineOf(p) + Lines(t)
    ensures Remainder(p + ([NEWLINE] + t)) == Remainder(t)
  {
    ScanAppend(NOTHING, p, [NEWLINE] + t);
    ScanPlain(NOTHING, p);
    assert [] + p == p && ([NEWLINE] + t)[1..] == t;
    ScanFrame([p], [], t);
    assert [] + [p] == [p];
    RenderAppend([p], Scan(NOTHING, t).runs);
    RenderSnoc([], p);
    assert [] + [p] == [p] && [] + LineOf(p) == LineOf(p);
  }

  /** Appending each chunk to the buffer and draining after it: all lines, and the final buffer. */
  function Feed(buffer: seq<byte>, chunks: seq<seq<byte>>): (seq<string>, seq<byte>)
    decreases |chunks|
  {
    if chunks == [] then ([], buffer)
    else
      var bs := buffer + chunks[0];
      var (lines, rest) := Feed(Remainder(bs), chunks[1..]);
      (Lines(bs) + lines, rest)
  }

  /** The lines and the remainder of a whole stream. */
  function Whole(bs: seq<byte>): (seq<string>, seq<byte>) {
    (Lines(bs), Remainder(bs))
  }

  lemma WholeAppend(buffer: seq<byte>, chunk: seq<byte>, tail: seq<byte>)
    ensures var bs := buffer + chunk;
            Whole(buffer + (chunk + tail)) ==
            (Lines(bs) + Whole(Remainder(bs) + tail).0, Whole(Remainder(bs) + tail).1)
  {
    LinesAppend(buffer + chunk, tail);
    assert buffer + (chunk + tail) == buffer + chunk + tail;
  }

  lemma {:induction false} FeedFrom(buffer: seq<byte>, chunks: seq<seq<byte>>)
    requires NEWLINE !in buffer
    ensures Feed(buffer, chunks) == Whole(buffer + Concat(chunks))
    decreases |chunks|
  {
    if chunks == [] {
      assert buffer + [] == buffer;
      LinesNone(buffer);
    } else {
      FeedFrom(Remainder(buffer + chunks[0]), chunks[1..]);
      WholeAppend(buffer, chunks[0], Concat(chunks[1..]));
    }
  }

  /** However a stream is cut into reads, the lines and the remainder are those of the whole. */
  lemma ChunkingIsInvisible(chunks: seq<seq<byte>>)
    ensures Feed([], chunks) == Whole(Concat(chunks))
    ensures NEWLINE !in Feed([], chunks).1
  {
    FeedFrom([], chunks);
    assert [] + Concat(chunks) == Concat(chunks);
  }

  /** The transport loop: append a read, drain, collect. */
  method ReadAll(chunks: seq<seq<byte>>) returns (lines: seq<string>, rest: seq<byte>)
    ensures lines == Lines(Concat(chunks))
    ensures rest == Remainder(Concat(chunks)) && NEWLINE !in rest
  {
    var b := new LineBuffer();
    lines := [];
    for i := 0 to |chunks|
      invariant NEWLINE !in b.buffer
      invariant lines == Lines(Concat(chunks[..i])) && b.buffer == Remainder(Concat(chunks[..i]))
    {
      ConcatSnoc(chunks[..i], chunks[i]);
      LinesAppend(Concat(chunks[..i]), chunks[i]);
      assert chunks[..i + 1] == chunks[..i] + [chunks[i]];
      b.Append(chunks[i]);
      var drained := b.DrainLines();
      lines := lines + drained;
    }
    rest := b.buffer;
    assert chunks[..|chunks|] == chunks;
  }

  // ── The event stream ───────────────────────────────────────────────────────

  predicate NoControls(s: string) {
    forall i :: 0 <= i < |s| ==> s[i] as int >= 0x20
  }

  /** Every number token is free of control characters. */
  predicate Clean(j: Json) {
    match j
    case Num(t) => NoControls(t)
    case Arr(es) => forall i :: 0 <= i < |es| ==> Clean(es[i])
    case Obj(ms) => forall i :: 0 <= i < |ms| ==> Clean(ms[i].value)
    case _ => true
  }

  lemma QuoteNoControls(s: string)
    ensures NoControls(Quote(s))
  {
    EscapeHasNoControls(s);
  }

  /** The printer emits no control character. */
  lemma {:induction false} PrintNoControls(j: Json)
    requires Clean(j)
    ensures NoControls(Print(j))
    decreases j, 1
  {
    match j
    case Str(s) => QuoteNoControls(s);
    case Arr(es) => PrintElemsNoControls(es);
    case Obj(ms) => PrintMembersNoControls(ms);
    case _ =>
  }

  lemma {:induction false} PrintElemsNoControls(es: seq<Json>)
    requires forall i :: 0 <= i < |es| ==> Clean(es[i])
    ensures NoControls(PrintElems(es))
    decreases es, 0
  {
    if es != [] {
      PrintNoControls(es[0]);
      PrintElemsNoControls(es[1..]);
    }
  }

  lemma {:induction false} PrintMembersNoControls(ms: seq<Member>)
    requires forall i :: 0 <= i < |ms| ==> Clean(ms[i].value)
    ensures NoControls(PrintMembers(ms))
    decreases ms, 0
  {
    if ms != [] {
      QuoteNoControls(ms[0].key);
      PrintNoControls(ms[0].value);
      PrintMembersNoControls(ms[1..]);
    }
  }

  lemma {:induction false} ValidIsClean(j: Json)
    requires Valid(j)
    ensures Clean(j)
  {
    match j
    case Arr(es) => forall i | 0 <= i < |es| ensures Clean(es[i]) { ValidIsClean(es[i]); }
    case Obj(ms) => forall i | 0 <= i < |ms| ensures Clean(ms[i].value) { ValidIsClean(ms[i].value); }
    case _ =>
  }

  predicate AllClean(ms: seq<Member>) {
    forall i :: 0 <= i < |ms| ==> Clean(ms[i].value)
  }

  /** The words for a non-finite number have no control characters either. */
  lemma DisplayNoControls(f: Events.Float)
    ensures Clean(Num(Events.Display(f)))
  {
    if f.Finite? {
      ValidIsClean(Num(f.token));
    }
  }

  lemma VitalsClean(e: Events.Event)
    requires e.Vitals?
    ensures AllClean(OperatorEvents.Loads(e)) && AllClean(OperatorEvents.Budgets(e))
  {
    DisplayNoControls(e.thermalLoad);
    DisplayNoControls(e.computePressure);
    DisplayNoControls(e.memoryPressure);
    DisplayNoControls(e.powerBudget);
    DisplayNoControls(e.financialBudget);
    DisplayNoControls(e.attentionDemand);
    DisplayNoControls(e.aggregateStress);
  }

  lemma GateClean(e: Events.Event)
    requires e.Gate?
    ensures AllClean(OperatorEvents.GateMembers(e))
  {
    DisplayNoControls(e.valueScore);
    DisplayNoControls(e.threshold);
  }

  lemma MembersClean(e: Events.Event)
    ensures AllClean(OperatorEvents.Members(e))
  {
    if e.Vitals? {
      VitalsClean(e);
    } else if e.Gate? {
      GateClean(e);
    } else {
      OperatorEvents.MembersValid(e);
      ValidIsClean(Obj(OperatorEvents.Members(e)));
    }
  }

  lemma EventLineNoControls(e: Events.Event)
    ensures NoControls(OperatorEvents.Line(e))
    ensures var s := OperatorEvents.Line(e); s != "" && s[|s| - 1] == '}'
  {
    MembersClean(e);
    PrintNoControls(Obj(OperatorEvents.Members(e)));
  }

  lemma EncodeNoNewline(s: string)
    requires NoControls(s)
    ensures NEWLINE !in Encode(s)
  {
    forall i | 0 <= i < |Encode(s)| ensures Encode(s)[i] != NEWLINE {
      if Encode(s)[i] < 0x80 {
        EncodeAscii(s, i);
        assert Encode(s)[i] >= 0x20;
      }
    }
  }

  /** Lines as they are written: each with a newline. */
  function Stream(lines: seq<string>): seq<byte> {
    if lines == [] then [] else Encode(lines[0]) + ([NEWLINE] + Stream(lines[1..]))
  }

  /** A line that is drained as itself. */
  predicate IsLine(s: string) {
    NEWLINE !in Encode(s) && LineOf(Encode(s)) == [s]
  }

  lemma {:induction false} StreamOfLines(lines: seq<string>)
    requires forall i :: 0 <= i < |lines| ==> IsLine(lines[i])
    ensures Whole(Stream(lines)) == (lines, [])
  {
    if lines == [] {
      LinesNone([]);
    } else {
      StreamOfLines(lines[1..]);
      LinesCons(Encode(lines[0]), Stream(lines[1..]));
      assert [lines[0]] + lines[1..] == lines;
    }
  }

  function EventLines(es: seq<Events.Event>): seq<string> {
    seq(|es|, i requires 0 <= i < |es| => OperatorEvents.Line(es[i]))
  }

  lemma EventIsLine(e: Events.Event)
    ensures IsLine(OperatorEvents.Line(e))
  {
    EventLineNoControls(e);
    EncodeNoNewline(OperatorEvents.Line(e));
    DecodeEncode(OperatorEvents.Line(e));
  }

  /** Every stream of printed events, finite or not, drains to exactly their lines. */
  lemma StreamLines(es: seq<Events.Event>)
    ensures Lines(Stream(EventLines(es))) == EventLines(es) && Remainder(Stream(EventLines(es))) == []
  {
    var lines := EventLines(es);
    forall i | 0 <= i < |lines| ensures IsLine(lines[i]) {
      EventIsLine(es[i]);
    }
    StreamOfLines(lines);
  }

  // ── Any stream of lines ────────────────────────────────────────────────────

  function Returns(k: nat): string {
    if k == 0 then "" else Returns(k - 1) + ['\r']
  }

  /** What can stand before a newline: a text and carriage returns after it, or bytes that are not UTF-8. */
  datatype Run = Line(text: string, cr: nat) | Junk(bytes: seq<byte>)

  predicate ValidRun(r: Run) {
    match r
    case Line(s, _) => '\n' !in s && (s != "" ==> s[|s| - 1] != '\r')
    case Junk(bs) => NEWLINE !in bs && Decode(bs) == None
  }

  function RunBytes(r: Run): seq<byte> {
    match r case Line(s, k) => Encode(s + Returns(k)) case Junk(bs) => bs
  }

  function RunStream(runs: seq<Run>): seq<byte> {
    if runs == [] then [] else RunBytes(runs[0]) + ([NEWLINE] + RunStream(runs[1..]))
  }

  /** The texts that are not empty. */
  function Texts(runs: seq<Run>): seq<string> {
    if runs == [] then []
    else (if runs[0].Line? && runs[0].text != "" then [runs[0].text] else []) + Texts(runs[1..])
  }

  lemma {:induction false} ReturnsTrimmed(s: string, k: nat)
    requires s != "" ==> s[|s| - 1] != '\r'
    ensures TrimReturns(s + Returns(k)) == s && forall i :: 0 <= i < |Returns(k)| ==> Returns(k)[i] == '\r'
  {
    var t := s + Returns(k);
    if k == 0 {
      assert t == s;
    } else {
      ReturnsTrimmed(s, k - 1);
      assert t[..|t| - 1] == s + Returns(k - 1);
    }
  }

  lemma NoNewlineEncoded(s: string)
    requires '\n' !in s
    ensures NEWLINE !in Encode(s)
  {
    forall i | 0 <= i < |Encode(s)| ensures Encode(s)[i] != NEWLINE {
      if Encode(s)[i] < 0x80 {
        EncodeAscii(s, i);
      }
    }
  }

  lemma RunIsLine(r: Run)
    requires ValidRun(r)
    ensures NEWLINE !in RunBytes(r)
    ensures LineOf(RunBytes(r)) == if r.Line? && r.text != "" then [r.text] else []
  {
    if r.Line? {
      ReturnsTrimmed(r.text, r.cr);
      NoNewlineEncoded(r.text + Returns(r.cr));
      DecodeEncode(r.text + Returns(r.cr));
    }
  }

  /** Any stream of terminated runs drains to its texts: returns are trimmed, and empty or broken lines dropped. */
  lemma {:induction false} RunsDrain(runs: seq<Run>)
    requires forall i :: 0 <= i < |runs| ==> ValidRun(runs[i])
    ensures Lines(RunStream(runs)) == Texts(runs) && Remainder(RunStream(runs)) == []
  {
    if runs == [] {
      LinesNone([]);
    } else {
      RunsDrain(runs[1..]);
      RunIsLine(runs[0]);
      LinesCons(RunBytes(runs[0]), RunStream(runs[1..]));
    }
  }

  /** What the operator's side makes of a stream of bytes. */
  function EventsOf(lines: seq<string>): (es: seq<Option<Events.Event>>)
    ensures |es| == |lines|
  {
    seq(|lines|, i requires 0 <= i < |lines| => OperatorEvents.EventFromLine(lines[i]))
  }

  /**
   End to end: for every list of events and every cutting of its bytes, each event with finite numbers
   arrives at its place, and one without is unreadable there and disturbs no other.
   */
  lemma EventsArrive(es: seq<Events.Event>, chunks: seq<seq<byte>>)
    requires Concat(chunks) == Stream(EventLines(es))
    ensures Feed([], chunks) == (EventLines(es), [])
    ensures |EventsOf(EventLines(es))| == |es|
    ensures forall i :: 0 <= i < |es| ==>
              EventsOf(EventLines(es))[i] == if Events.AllFinite(es[i]) then Some(es[i]) else None
  {
    ChunkingIsInvisible(chunks);
    StreamLines(es);
    forall i | 0 <= i < |es|
      ensures EventsOf(EventLines(es))[i] == if Events.AllFinite(es[i]) then Some(es[i]) else None
    {
      OperatorEvents.NdjsonRoundTrip(es[i], "", "");
      assert "" + OperatorEvents.Line(es[i]) + "" == OperatorEvents.Line(es[i]);
    }
  }
}
